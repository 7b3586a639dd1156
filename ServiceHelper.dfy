/**
 * The REST client of the zkWasm service: how a request is shaped from an
 * endpoint, a path, a body and headers; how a transport failure is reported;
 * how the `{success, result, error}` envelope of every reply is unwrapped;
 * and the task and image helpers built on top of it.
 *
 * The network is a parameter: `send` maps the request the client would hand
 * to its HTTP library to what comes back (the decoded body, or a failure).
 */
module ServiceHelper {
  import opened Wrappers
  import opened JsArray
  import opened Numerals
  import opened JsValue

  datatype HttpMethod = GET | POST

  /** A request body: parsed JSON, or multipart form entries passed through untouched. */
  datatype Body = JsonBody(json: Json) | FormBody(entries: seq<(string, string)>)

  /** What is handed to the HTTP library. */
  datatype HttpRequest =
    | HttpGet(url: string, params: Option<Body>)
    | HttpPost(url: string, data: Body, headers: map<string, string>)

  /** The decoded response body, or a rejection (network error, non-2xx status). */
  datatype Reply = Delivered(data: Json) | Failed(cause: string)

  /** `if (body)` for a body that may be null (None). */
  predicate BodyTruthy(body: Option<Body>) {
    match body
    case None => false
    case Some(JsonBody(j)) => Truthy(j)
    case Some(FormBody(_)) => true
  }

  /**
   * The request `prepareRequest` issues: the URL is the endpoint followed by
   * the path; a GET carries `params` only for a truthy body; a POST sends a
   * falsy body as `{}` and a copy of the headers (none given: `{}`).
   */
  function RequestFor(endpoint: string, verb: HttpMethod, url: string, body: Option<Body>,
                      headers: Option<map<string, string>>): (r: HttpRequest)
    ensures r.url == endpoint + url
    ensures r.HttpGet? <==> verb == GET
    ensures r.HttpGet? ==> (r.params.Some? <==> BodyTruthy(body))
    ensures r.HttpGet? && r.params.Some? ==> r.params == body
    ensures r.HttpPost? ==> r.data == (if BodyTruthy(body) then body.value else JsonBody(JObj(map[])))
    ensures r.HttpPost? ==> r.headers == headers.GetOr(map[])
  {
    if verb == GET then
      HttpGet(endpoint + url, if BodyTruthy(body) then body else None)
    else
      HttpPost(endpoint + url, if BodyTruthy(body) then body.value else JsonBody(JObj(map[])), headers.GetOr(map[]))
  }

  /** The message a failed transport is reported with; the cause itself is dropped. */
  function FailureName(verb: HttpMethod): string {
    if verb == GET then "RestEndpointGetFailure" else "RestEndpointPostFailure"
  }

  /**
   * `getJSONResponse`: the reply's `result` when its `success` is exactly
   * `true`; otherwise an Error reading "RequestError:" followed by the
   * reply's `error` converted to a string. A null reply throws a TypeError.
   */
  function GetJSONResponse(json: Json): (r: Result<Option<Json>, Thrown>)
    ensures r.Ok? <==> Get(Some(json), "success") == Ok(Some(JBool(true)))
    ensures r.Ok? ==> Ok(r.value) == Get(Some(json), "result")
    ensures json == JNull ==> r == Err(TypeError)
    ensures json != JNull && r.Err? && ToString(Get(Some(json), "error").value).Ok? ==>
      r.error == Error("RequestError:" + ToString(Get(Some(json), "error").value).value)
    ensures json != JNull && r.Err? && ToString(Get(Some(json), "error").value).Err? ==>
      r.error == TypeError
  {
    match Get(Some(json), "success")
    case Err(e) => Err(e)
    case Ok(success) =>
      if success != Some(JBool(true)) then
        match ToString(Get(Some(json), "error").value)
        case Ok(text) => Err(Error("RequestError:" + text))
        case Err(e) => Err(e)
      else
        Get(Some(json), "result")
  }

  /** A successful reply as the service writes it. */
  function Envelope(result: Json): Json {
    JObj(map["success" := JBool(true), "result" := result])
  }

  /** A failed reply as the service writes it. */
  function ErrorEnvelope(error: string): Json {
    JObj(map["success" := JBool(false), "error" := JStr(error)])
  }

  /** Unwrapping gives back exactly what was wrapped, whatever else the reply holds. */
  lemma EnvelopeRoundTrip(result: Json, extra: map<string, Json>)
    ensures GetJSONResponse(Envelope(result)) == Ok(Some(result))
    ensures GetJSONResponse(JObj(extra + Envelope(result).fields)) == Ok(Some(result))
  {
  }

  /** A service error comes back with its text after the "RequestError:" prefix. */
  lemma ErrorEnvelopeMessage(error: string)
    ensures GetJSONResponse(ErrorEnvelope(error)) == Err(Error("RequestError:" + error))
  {
  }

  /** Only the boolean `true` is success: 1, "true", an object or a missing field all fail. */
  lemma SuccessIsStrict(fields: map<string, Json>)
    requires "success" !in fields || fields["success"] != JBool(true)
    ensures GetJSONResponse(JObj(fields)).Err?
    ensures "error" !in fields ==> GetJSONResponse(JObj(fields)) == Err(Error("RequestError:undefined"))
  {
    assert "RequestError:" + "undefined" == "RequestError:undefined";
  }

  /** An `error` object with its own `toString` field cannot be turned into the message: a TypeError instead. */
  lemma ErrorWithoutToString(shadow: Json)
    ensures GetJSONResponse(JObj(map["success" := JBool(false), "error" := JObj(map["toString" := shadow])]))
         == Err(TypeError)
  {
  }

  /** A client of one service endpoint. */
  class ZkWasmServiceHelper {
    var endpoint: string
    var username: string
    var useraddress: string

    constructor(endpoint: string, username: string, useraddress: string)
      ensures this.endpoint == endpoint && this.username == username && this.useraddress == useraddress
    {
      this.endpoint := endpoint;
      this.username := username;
      this.useraddress := useraddress;
    }

    /** `prepareRequest`: the decoded reply, or the method's failure name. */
    function PrepareRequest(send: HttpRequest -> Reply, verb: HttpMethod, url: string, body: Option<Body>,
                            headers: Option<map<string, string>>): (r: Result<Json, Thrown>)
      reads this
      ensures send(RequestFor(endpoint, verb, url, body, headers)).Failed? <==> r.Err?
      ensures r.Err? ==> r.error == Error(FailureName(verb))
      ensures r.Ok? ==> send(RequestFor(endpoint, verb, url, body, headers)) == Delivered(r.value)
    {
      match send(RequestFor(endpoint, verb, url, body, headers))
      case Delivered(data) => Ok(data)
      case Failed(_) => Err(Error(FailureName(verb)))
    }

    /** `invokeRequest`: the envelope of the reply unwrapped, after a successful transport. */
    function InvokeRequest(send: HttpRequest -> Reply, verb: HttpMethod, url: string, body: Option<Body>,
                           headers: Option<map<string, string>>): (r: Result<Option<Json>, Thrown>)
      reads this
      ensures PrepareRequest(send, verb, url, body, headers).Err? ==> r == Err(Error(FailureName(verb)))
      ensures PrepareRequest(send, verb, url, body, headers).Ok? ==>
        r == GetJSONResponse(PrepareRequest(send, verb, url, body, headers).value)
    {
      match PrepareRequest(send, verb, url, body, headers)
      case Err(e) => Err(e)
      case Ok(data) => GetJSONResponse(data)
    }
  }

  /** Whatever the transport reports, a failed request gives the same error. */
  lemma TransportCauseDropped(h: ZkWasmServiceHelper, send1: HttpRequest -> Reply, send2: HttpRequest -> Reply,
                              verb: HttpMethod, url: string, body: Option<Body>, headers: Option<map<string, string>>)
    requires send1(RequestFor(h.endpoint, verb, url, body, headers)).Failed?
    requires send2(RequestFor(h.endpoint, verb, url, body, headers)).Failed?
    ensures h.InvokeRequest(send1, verb, url, body, headers) == h.InvokeRequest(send2, verb, url, body, headers)
    ensures h.InvokeRequest(send1, verb, url, body, headers).Err?
  {
  }

  /** A delivered envelope comes back unwrapped. */
  lemma InvokeDelivers(h: ZkWasmServiceHelper, send: HttpRequest -> Reply, verb: HttpMethod, url: string,
                       body: Option<Body>, headers: Option<map<string, string>>, result: Json)
    requires send(RequestFor(h.endpoint, verb, url, body, headers)) == Delivered(Envelope(result))
    ensures h.InvokeRequest(send, verb, url, body, headers) == Ok(Some(result))
  {
    EnvelopeRoundTrip(result, map[]);
  }

  /** The figures of the task board, under the client's own names. */
  datatype Statistics = Statistics(totalImages: Option<Json>, totalProofs: Option<Json>,
                                   totalTasks: Option<Json>, totalDeployed: Option<Json>)

  /** The record `loadStatistics` builds from the `/statistics` result. */
  function StatisticsOf(st: Option<Json>): (r: Result<Statistics, Thrown>)
    ensures r.Err? <==> st == None || st == Some(JNull)
    ensures r.Ok? ==> Ok(r.value.totalImages) == Get(st, "total_images")
    ensures r.Ok? ==> Ok(r.value.totalProofs) == Get(st, "total_proofs")
    ensures r.Ok? ==> Ok(r.value.totalTasks) == Get(st, "total_tasks")
    ensures r.Ok? ==> Ok(r.value.totalDeployed) == Get(st, "total_deployed")
  {
    if st == None || st == Some(JNull) then Err(TypeError)
    else
      Ok(Statistics(Get(st, "total_images").value, Get(st, "total_proofs").value,
                    Get(st, "total_tasks").value, Get(st, "total_deployed").value))
  }

  /** The service-side object with the four figures. */
  function StatisticsObject(images: Json, proofs: Json, tasks: Json, deployed: Json): Json {
    JObj(map["total_images" := images, "total_proofs" := proofs,
             "total_tasks" := tasks, "total_deployed" := deployed])
  }

  /** The four figures are carried over under their new names. */
  lemma StatisticsRenamed(images: Json, proofs: Json, tasks: Json, deployed: Json)
    ensures StatisticsOf(Some(StatisticsObject(images, proofs, tasks, deployed)))
         == Ok(Statistics(Some(images), Some(proofs), Some(tasks), Some(deployed)))
  {
  }

  /** No other field of the result reaches the record. */
  lemma StatisticsIgnoreOtherFields(f: map<string, Json>, g: map<string, Json>)
    requires forall k :: k in StatisticsKeys ==> (k in f <==> k in g) && (k in f ==> f[k] == g[k])
    ensures StatisticsOf(Some(JObj(f))) == StatisticsOf(Some(JObj(g)))
  {
  }

  const StatisticsKeys: set<string> := {"total_images", "total_proofs", "total_tasks", "total_deployed"}

  /** The task filter; an empty string means "any". */
  datatype QueryParams = QueryParams(user_address: string, md5: string, id: string,
                                     tasktype: string, taskstatus: string)

  /** The keys of a QueryParams object, in declaration order. */
  const QueryKeys: seq<string> := ["user_address", "md5", "id", "tasktype", "taskstatus"]

  /** `query[key]` for one of the QueryParams keys. */
  function QueryField(query: QueryParams, key: string): string {
    if key == "user_address" then query.user_address
    else if key == "md5" then query.md5
    else if key == "id" then query.id
    else if key == "tasktype" then query.tasktype
    else if key == "taskstatus" then query.taskstatus
    else ""
  }

  /** The query object: exactly the keys whose value is not "", values unchanged. */
  function QueryOf(query: QueryParams): map<string, Json> {
    map key | key in QueryKeys && QueryField(query, key) != "" :: JStr(QueryField(query, key))
  }

  /** Builds the query object key by key, as `loadTasks` does. */
  method BuildQuery(query: QueryParams) returns (queryJson: map<string, Json>)
    ensures queryJson == QueryOf(query)
  {
    queryJson := map[];
    for k := 0 to |QueryKeys|
      invariant forall key :: key in queryJson <==> key in QueryKeys[..k] && QueryField(query, key) != ""
      invariant forall key :: key in queryJson ==> queryJson[key] == JStr(QueryField(query, key))
    {
      var key := QueryKeys[k];
      TakeSnoc(QueryKeys, k);
      if QueryField(query, key) != "" {
        queryJson := queryJson[key := JStr(QueryField(query, key))];
      }
    }
    TakeAll(QueryKeys);
  }

  /** The filter read back from a query object; a missing key reads as "". */
  function QueryFromJson(m: map<string, Json>): QueryParams {
    QueryParams(StringAt(m, "user_address"), StringAt(m, "md5"), StringAt(m, "id"),
                StringAt(m, "tasktype"), StringAt(m, "taskstatus"))
  }

  function StringAt(m: map<string, Json>, key: string): string {
    if key in m && m[key].JStr? then m[key].s else ""
  }

  /** Dropping the empty fields loses nothing: the filter is recovered from its query. */
  lemma QueryRoundTrip(query: QueryParams)
    ensures QueryFromJson(QueryOf(query)) == query
  {
    QueryOfAt(query, "user_address");
    QueryOfAt(query, "md5");
    QueryOfAt(query, "id");
    QueryOfAt(query, "tasktype");
    QueryOfAt(query, "taskstatus");
  }

  /** One key of the query object reads back as the filter's field. */
  lemma QueryOfAt(query: QueryParams, key: string)
    requires key in QueryKeys
    ensures StringAt(QueryOf(query), key) == QueryField(query, key)
  {
  }

  /** Every query object with non-empty strings under filter keys comes from a filter. */
  lemma QueryOfFromJson(m: map<string, Json>)
    requires forall key :: key in m ==> key in QueryKeys && m[key].JStr? && m[key].s != ""
    ensures QueryOf(QueryFromJson(m)) == m
  {
    var q := QueryFromJson(m);
    forall key | key in QueryKeys
      ensures QueryField(q, key) == StringAt(m, key)
    {
      assert key == QueryKeys[0] || key == QueryKeys[1] || key == QueryKeys[2] || key == QueryKeys[3] || key == QueryKeys[4];
    }
    assert forall key :: key in m <==> key in QueryOf(q);
  }

  /**
   * The result of a submission after `response.toString()`: a TypeError
   * when the method cannot be called or throws (undefined, null, an object
   * whose own `toString` field shadows it, or an array holding one),
   * otherwise the result unchanged.
   */
  function LoggedResult(r: Result<Option<Json>, Thrown>): (out: Result<Option<Json>, Thrown>)
    ensures out.Ok? <==> r.Ok? && HasToString(r.value)
    ensures out.Ok? ==> out == r
    ensures r.Ok? && !HasToString(r.value) ==> out == Err(TypeError)
    ensures r.Err? ==> out == r
  {
    match r
    case Ok(v) => if HasToString(v) then r else Err(TypeError)
    case Err(_) => r
  }

  /** The task side of the service. */
  class ZkWasmServiceTaskHelper {
    const helper: ZkWasmServiceHelper

    /** The username argument is dropped: both user fields hold the address. */
    constructor(endpoint: string, username: string, useraddress: string)
      ensures fresh(helper)
      ensures helper.endpoint == endpoint && helper.username == useraddress && helper.useraddress == useraddress
    {
      helper := new ZkWasmServiceHelper(endpoint, useraddress, useraddress);
    }

    /** GET `/statistics` with an empty object, renamed into a Statistics record. */
    function LoadStatistics(send: HttpRequest -> Reply): (r: Result<Statistics, Thrown>)
      reads helper
      ensures send(StatisticsRequest(helper.endpoint)).Failed? ==> r == Err(Error("RestEndpointGetFailure"))
      ensures r.Ok? ==> send(StatisticsRequest(helper.endpoint)).Delivered?
    {
      match helper.InvokeRequest(send, GET, "/statistics", Some(JsonBody(JObj(map[]))), None)
      case Err(e) => Err(e)
      case Ok(st) => StatisticsOf(st)
    }

    /** GET `/tasks` with the non-empty fields of the filter as parameters. */
    method LoadTasks(query: QueryParams, send: HttpRequest -> Reply) returns (r: Result<Option<Json>, Thrown>)
      ensures r == helper.InvokeRequest(send, GET, "/tasks", Some(JsonBody(JObj(QueryOf(query)))), None)
    {
      var queryJson := BuildQuery(query);
      r := helper.InvokeRequest(send, GET, "/tasks", Some(JsonBody(JObj(queryJson))), None);
    }

    /** POST `/setup` with the form and a multipart content type. */
    function AddNewWasmImage(send: HttpRequest -> Reply, form: seq<(string, string)>): (r: Result<Option<Json>, Thrown>)
      reads helper
      ensures send(SetupRequest(helper.endpoint, form)).Failed? ==> r == Err(Error("RestEndpointPostFailure"))
      ensures r.Ok? ==> HasToString(r.value)
    {
      LoggedResult(helper.InvokeRequest(send, POST, "/setup", Some(FormBody(form)), Some(SetupHeaders)))
    }

    /** POST `/prove` with the task as JSON. */
    function AddProvingTask(send: HttpRequest -> Reply, task: Json): (r: Result<Option<Json>, Thrown>)
      reads helper
      ensures send(TaskRequest(helper.endpoint, "/prove", task)).Failed? ==> r == Err(Error("RestEndpointPostFailure"))
      ensures r.Ok? ==> HasToString(r.value)
    {
      LoggedResult(helper.InvokeRequest(send, POST, "/prove", Some(JsonBody(task)), None))
    }

    /** POST `/deploy` with the task as JSON. */
    function AddDeployTask(send: HttpRequest -> Reply, task: Json): (r: Result<Option<Json>, Thrown>)
      reads helper
      ensures send(TaskRequest(helper.endpoint, "/deploy", task)).Failed? ==> r == Err(Error("RestEndpointPostFailure"))
      ensures r.Ok? ==> HasToString(r.value)
    {
      LoggedResult(helper.InvokeRequest(send, POST, "/deploy", Some(JsonBody(task)), None))
    }
  }

  const SetupHeaders: map<string, string> := map["Content-Type" := "multipart/form-data"]

  /** The statistics request is a GET of `/statistics` with empty parameters. */
  function StatisticsRequest(endpoint: string): HttpRequest {
    HttpGet(endpoint + "/statistics", Some(JsonBody(JObj(map[]))))
  }

  /** The image registration: the form, POSTed to `/setup` with a multipart content type. */
  function SetupRequest(endpoint: string, form: seq<(string, string)>): HttpRequest {
    HttpPost(endpoint + "/setup", FormBody(form), SetupHeaders)
  }

  /** A task submission: the task POSTed to the path, a falsy task as `{}`, no headers. */
  function TaskRequest(endpoint: string, path: string, task: Json): HttpRequest {
    HttpPost(endpoint + path, if Truthy(task) then JsonBody(task) else JsonBody(JObj(map[])), map[])
  }

  /** A delivered set of figures arrives renamed; a failed request keeps its failure name. */
  lemma StatisticsLoaded(t: ZkWasmServiceTaskHelper, send: HttpRequest -> Reply,
                         images: Json, proofs: Json, tasks: Json, deployed: Json)
    ensures RequestFor(t.helper.endpoint, GET, "/statistics", Some(JsonBody(JObj(map[]))), None)
         == StatisticsRequest(t.helper.endpoint)
    ensures send(StatisticsRequest(t.helper.endpoint)) == Delivered(Envelope(StatisticsObject(images, proofs, tasks, deployed)))
        ==> t.LoadStatistics(send) == Ok(Statistics(Some(images), Some(proofs), Some(tasks), Some(deployed)))
    ensures send(StatisticsRequest(t.helper.endpoint)).Failed?
        ==> t.LoadStatistics(send) == Err(Error("RestEndpointGetFailure"))
    ensures send(StatisticsRequest(t.helper.endpoint)) == Delivered(JObj(map["success" := JBool(true)]))
        ==> t.LoadStatistics(send) == Err(TypeError)
  {
    assert RequestFor(t.helper.endpoint, GET, "/statistics", Some(JsonBody(JObj(map[]))), None)
        == StatisticsRequest(t.helper.endpoint);
    EnvelopeRoundTrip(StatisticsObject(images, proofs, tasks, deployed), map[]);
    StatisticsRenamed(images, proofs, tasks, deployed);
  }

  /** The request `loadTasks` sends always carries parameters, `{}` for an empty filter. */
  lemma TasksRequest(t: ZkWasmServiceTaskHelper, query: QueryParams)
    ensures RequestFor(t.helper.endpoint, GET, "/tasks", Some(JsonBody(JObj(QueryOf(query)))), None)
         == HttpGet(t.helper.endpoint + "/tasks", Some(JsonBody(JObj(QueryOf(query)))))
    ensures query == QueryParams("", "", "", "", "") ==> QueryOf(query) == map[]
  {
  }

  /** The three submissions POST to `/setup`, `/prove` and `/deploy`; a falsy task is sent as `{}`. */
  lemma SubmissionRequests(t: ZkWasmServiceTaskHelper, form: seq<(string, string)>, task: Json)
    ensures RequestFor(t.helper.endpoint, POST, "/setup", Some(FormBody(form)), Some(SetupHeaders))
         == SetupRequest(t.helper.endpoint, form)
    ensures RequestFor(t.helper.endpoint, POST, "/prove", Some(JsonBody(task)), None)
         == TaskRequest(t.helper.endpoint, "/prove", task)
    ensures RequestFor(t.helper.endpoint, POST, "/deploy", Some(JsonBody(task)), None)
         == TaskRequest(t.helper.endpoint, "/deploy", task)
  {
  }

  /**
   * What a logged POST yields for each kind of reply: a delivered result as
   * `toString` lets it through, a TypeError for a missing result, and the
   * POST failure name when the transport fails.
   */
  lemma PostOutcomes(h: ZkWasmServiceHelper, send: HttpRequest -> Reply, path: string, body: Option<Body>,
                     headers: Option<map<string, string>>, result: Json)
    ensures send(RequestFor(h.endpoint, POST, path, body, headers)) == Delivered(Envelope(result))
        ==> LoggedResult(h.InvokeRequest(send, POST, path, body, headers)) == LoggedResult(Ok(Some(result)))
    ensures send(RequestFor(h.endpoint, POST, path, body, headers)) == Delivered(JObj(map["success" := JBool(true)]))
        ==> LoggedResult(h.InvokeRequest(send, POST, path, body, headers)) == Err(TypeError)
    ensures send(RequestFor(h.endpoint, POST, path, body, headers)).Failed?
        ==> LoggedResult(h.InvokeRequest(send, POST, path, body, headers)) == Err(Error("RestEndpointPostFailure"))
  {
    EnvelopeRoundTrip(result, map[]);
  }

  /** `addNewWasmImage`: each kind of reply to its `/setup` request. */
  lemma NewWasmImageOutcomes(t: ZkWasmServiceTaskHelper, send: HttpRequest -> Reply, form: seq<(string, string)>, result: Json)
    ensures send(SetupRequest(t.helper.endpoint, form)) == Delivered(Envelope(result))
        ==> t.AddNewWasmImage(send, form) == LoggedResult(Ok(Some(result)))
    ensures send(SetupRequest(t.helper.endpoint, form)) == Delivered(JObj(map["success" := JBool(true)]))
        ==> t.AddNewWasmImage(send, form) == Err(TypeError)
    ensures send(SetupRequest(t.helper.endpoint, form)).Failed?
        ==> t.AddNewWasmImage(send, form) == Err(Error("RestEndpointPostFailure"))
  {
    SubmissionRequests(t, form, JNull);
    PostOutcomes(t.helper, send, "/setup", Some(FormBody(form)), Some(SetupHeaders), result);
  }

  /** `addProvingTask`: each kind of reply to its `/prove` request. */
  lemma ProvingTaskOutcomes(t: ZkWasmServiceTaskHelper, send: HttpRequest -> Reply, task: Json, result: Json)
    ensures send(TaskRequest(t.helper.endpoint, "/prove", task)) == Delivered(Envelope(result))
        ==> t.AddProvingTask(send, task) == LoggedResult(Ok(Some(result)))
    ensures send(TaskRequest(t.helper.endpoint, "/prove", task)) == Delivered(JObj(map["success" := JBool(true)]))
        ==> t.AddProvingTask(send, task) == Err(TypeError)
    ensures send(TaskRequest(t.helper.endpoint, "/prove", task)).Failed?
        ==> t.AddProvingTask(send, task) == Err(Error("RestEndpointPostFailure"))
  {
    SubmissionRequests(t, [], task);
    PostOutcomes(t.helper, send, "/prove", Some(JsonBody(task)), None, result);
  }

  /** `addDeployTask`: each kind of reply to its `/deploy` request. */
  lemma DeployTaskOutcomes(t: ZkWasmServiceTaskHelper, send: HttpRequest -> Reply, task: Json, result: Json)
    ensures send(TaskRequest(t.helper.endpoint, "/deploy", task)) == Delivered(Envelope(result))
        ==> t.AddDeployTask(send, task) == LoggedResult(Ok(Some(result)))
    ensures send(TaskRequest(t.helper.endpoint, "/deploy", task)) == Delivered(JObj(map["success" := JBool(true)]))
        ==> t.AddDeployTask(send, task) == Err(TypeError)
    ensures send(TaskRequest(t.helper.endpoint, "/deploy", task)).Failed?
        ==> t.AddDeployTask(send, task) == Err(Error("RestEndpointPostFailure"))
  {
    SubmissionRequests(t, [], task);
    PostOutcomes(t.helper, send, "/deploy", Some(JsonBody(task)), None, result);
  }

  /** A result object with its own `toString` field is refused by the logging call. */
  lemma ShadowedToStringRefused(shadow: Json)
    ensures LoggedResult(Ok(Some(JObj(map["toString" := shadow])))) == Err(TypeError)
    ensures LoggedResult(Ok(Some(JArr([JObj(map["toString" := shadow])])))) == Err(TypeError)
    ensures LoggedResult(Ok(Some(JObj(map[])))) == Ok(Some(JObj(map[])))
  {
    var inner := JObj(map["toString" := shadow]);
    assert !Converts(JArr([inner])) by { assert [inner][0] == inner; }
  }

  /** The image side of the service. */
  class ZkWasmServiceImageHelper {
    const helper: ZkWasmServiceHelper

    /** The username argument is dropped: both user fields hold the address. */
    constructor(endpoint: string, username: string, useraddress: string)
      ensures fresh(helper)
      ensures helper.endpoint == endpoint && helper.username == useraddress && helper.useraddress == useraddress
    {
      helper := new ZkWasmServiceHelper(endpoint, useraddress, useraddress);
    }

    /** GET `/image` with `{md5}`: the whole result. */
    function QueryImages(send: HttpRequest -> Reply, md5: string): (r: Result<Option<Json>, Thrown>)
      reads helper
      ensures send(ImageRequest(helper.endpoint, md5)).Failed? ==> r == Err(Error("RestEndpointGetFailure"))
      ensures r.Ok? ==> send(ImageRequest(helper.endpoint, md5)).Delivered?
    {
      helper.InvokeRequest(send, GET, "/image", Some(JsonBody(JObj(map["md5" := JStr(md5)]))), None)
    }

    /** The same request: element 0 of the result (undefined for an empty list). */
    function QueryImage(send: HttpRequest -> Reply, md5: string): (r: Result<Option<Json>, Thrown>)
      reads helper
      ensures QueryImages(send, md5).Err? ==> r == QueryImages(send, md5)
      ensures QueryImages(send, md5) == Ok(None) || QueryImages(send, md5) == Ok(Some(JNull)) ==> r == Err(TypeError)
      ensures r.Ok? ==> QueryImages(send, md5).Ok? && QueryImages(send, md5).value !in {None, Some(JNull)}
    {
      match QueryImages(send, md5)
      case Err(e) => Err(e)
      case Ok(images) => Get(images, "0")
    }
  }

  /** For a list of images, `queryImage` is its first element and `queryImages` the list. */
  lemma ImageSelection(m: ZkWasmServiceImageHelper, send: HttpRequest -> Reply, md5: string, images: seq<Json>)
    requires send(ImageRequest(m.helper.endpoint, md5)) == Delivered(Envelope(JArr(images)))
    ensures m.QueryImages(send, md5) == Ok(Some(JArr(images)))
    ensures images != [] ==> m.QueryImage(send, md5) == Ok(Some(images[0]))
    ensures images == [] ==> m.QueryImage(send, md5) == Ok(None)
  {
    ImageRequestShape(m, md5);
    EnvelopeRoundTrip(JArr(images), map[]);
    IndexOfDecString(0);
    assert DecString(0) == "0";
  }

  /** `queryImage` fails where `queryImages` fails, and also on a missing or null result. */
  lemma ImageSelectionFailures(m: ZkWasmServiceImageHelper, send: HttpRequest -> Reply, md5: string)
    ensures m.QueryImages(send, md5).Err? ==> m.QueryImage(send, md5) == m.QueryImages(send, md5)
    ensures m.QueryImages(send, md5) == Ok(None) ==> m.QueryImage(send, md5) == Err(TypeError)
    ensures m.QueryImages(send, md5) == Ok(Some(JNull)) ==> m.QueryImage(send, md5) == Err(TypeError)
    ensures send(ImageRequest(m.helper.endpoint, md5)).Failed?
        ==> m.QueryImage(send, md5) == Err(Error("RestEndpointGetFailure"))
  {
    ImageRequestShape(m, md5);
  }

  /** Both image queries send `{md5}` to the endpoint's `/image`. */
  function ImageRequest(endpoint: string, md5: string): HttpRequest {
    HttpGet(endpoint + "/image", Some(JsonBody(JObj(map["md5" := JStr(md5)]))))
  }

  lemma ImageRequestShape(m: ZkWasmServiceImageHelper, md5: string)
    ensures RequestFor(m.helper.endpoint, GET, "/image", Some(JsonBody(JObj(map["md5" := JStr(md5)]))), None)
         == ImageRequest(m.helper.endpoint, md5)
  {
  }
}
