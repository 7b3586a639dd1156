# zkwasm-service-helper in Dafny

A model of the client library of the zkWasm proving service, in two parts.

The argument codec `ZkWasmUtil` appears twice in the repository, as `dist/cjs/helper/util.js` and `dist/mjs/helper/util.js`. The two builds differ only in module plumbing, so the table below cites the CommonJS file. The codec covers:

- typed literals such as `123:i64`, `0xdead:i64` and `0xdead:bytes`, turned into big numbers by `parseArg` and `parseArgs`;
- hex strings cut into 16-digit chunks by `hexToBNs`;
- byte buffers cut into 32-byte little-endian words by `bytesToBN`;
- the signing payload of an image registration, built by `createAddImageSignMessage`;
- the argument list that `verifyProof` hands to the verifier contract.

The service client is `src/index.ts`. It covers:

- how `prepareRequest` shapes a request from the endpoint, a path, a body and headers;
- how transport failures become `RestEndpointGetFailure` and `RestEndpointPostFailure`;
- how `getJSONResponse` unwraps the `{success, result, error}` envelope;
- `invokeRequest`, which composes the two;
- the task helper: statistics, the task query filter, and the three submissions;
- the image helper's queries;
- the constructors of both helpers.

Files:

- `Wrappers.dfy`: `Option` and `Result`.
- `Numerals.dfy`: values of hex, decimal and little-endian digit strings, and their renderings back to digits.
- `JsText.dfy`: `String.prototype.split`, `join` and `trim`.
- `JsArray.dfy`: sparse JavaScript arrays with holes, `flat()`, and a few generic sequence facts.
- `ZkWasmUtil.dfy`: the codec.
- `JsValue.dfy`: parsed JSON values, property reads, truthiness, and conversion to a string.
- `ServiceHelper.dfy`: the service client.

Big numbers (bn.js) are `nat`. A JavaScript array built with `new Array(n)` and filled by index assignment is a `Sparse` value: a length plus a map from index to element. `flat()` skips its holes.

The network is a parameter `send: HttpRequest -> Reply`. It maps the request handed to the HTTP library to either the decoded reply body or a failure. `undefined` is `None`. A thrown exception or a rejected promise is an `Err`.

Validation in `parseArg` (`dist/cjs/helper/util.js:33`) tests `value.slice(2)` against the hex pattern whatever the first two characters are. So `"bad:i64"` passes validation: `"bad".slice(2)` is `"d"`, a hex digit. Because `"bad"` does not start with `0x`, it then reaches `new BN("bad")` at `dist/cjs/helper/util.js:44`, and the result of that depends on the bn.js version. `ValidationIgnoresPrefix` and `BadIsHexAfterSlice` state this.

## Model

| member | source | states |
|---|---|---|
| ZkWasmUtil.HexToBNs | dist/cjs/helper/util.js:19-25 | The loop writes the value of each window of up to 16 hex digits at the window's character offset. The result equals `ChunkSlots`: values at offsets 0, 16, 32, … and holes elsewhere. |
| ZkWasmUtil.ChunkSlotsLayout | dist/cjs/helper/util.js:20-24 | The array has a slot exactly at every offset below the input length. Its `length` is `16*(ceil(n/16)-1)+1`, which is larger than `ceil(n/16)` once there are more than 16 digits and equal to it otherwise. |
| ZkWasmUtil.DenseChunkSlots | dist/cjs/helper/util.js:19-25 | Dropping the holes gives exactly `ceil(n/16)` chunks, in order, each the value of its window. |
| ZkWasmUtil.HexChunksShape | dist/cjs/helper/util.js:21-22 | Chunk k is the value of the digits in `[16k, min(16k+16, n))`, and there are `ceil(n/16)` chunks. |
| ZkWasmUtil.HexChunksFit64 | dist/cjs/helper/util.js:22 | Every chunk is below 2^64. |
| ZkWasmUtil.ParseArg | dist/cjs/helper/util.js:26-60 | An accepted literal passed validation and has type `i64`, `bytes` or `bytes-packed`, and a bytes literal starts with `0x`. `ParseArgAccepts` states the converse, and `ParseArgI64` and `ParseArgBytes` the numbers. |
| ZkWasmUtil.ParseArgAccepts | dist/cjs/helper/util.js:26-60 | `parseArg` returns non-null exactly when two things hold. First, `value.slice(2)` is hex or the whole value is decimal. Second, the type is `i64`, or it is `bytes`/`bytes-packed` and the value starts with `0x`. |
| ZkWasmUtil.ParseArgI64 | dist/cjs/helper/util.js:38-47 | An accepted `i64` literal gives one number: the hex value after `0x`, or else the decimal value. |
| ZkWasmUtil.ParseArgBytes | dist/cjs/helper/util.js:48-55 | A bytes literal is accepted exactly when it is `0x` followed by hex digits. Its numbers are then the 16-digit chunks of those digits. |
| ZkWasmUtil.ParseArgDecimalRoundTrip | dist/cjs/helper/util.js:38-46 | `"<decimal of n>:i64"` parses to `[n]` for every n. There is no 64-bit range check. |
| ZkWasmUtil.ParseArgHexRoundTrip | dist/cjs/helper/util.js:38-42 | `"0x<digits>:i64"` parses to the single value of the digits. |
| ZkWasmUtil.ParseArgBytesRoundTrip | dist/cjs/helper/util.js:48-54 | `"0x<digits>:bytes"` parses to the sparse chunk array of the digits, as `hexToBNs` builds it. |
| ZkWasmUtil.ParseArgIgnoresExtraFields | dist/cjs/helper/util.js:27-29 | Text after a second `:` does not change the result. |
| ZkWasmUtil.ShortValueRejected | dist/cjs/helper/util.js:33-36 | A value of at most two characters is accepted only when it is decimal: its `slice(2)` is empty and fails the hex test. |
| ZkWasmUtil.DecimalBytesRejected | dist/cjs/helper/util.js:48-52 | A decimal value with a bytes type passes validation but is rejected for the missing `0x`. |
| ZkWasmUtil.ValidationIgnoresPrefix | dist/cjs/helper/util.js:33-44 | Any value that is not all digits, does not start with `0x`, and has hex digits after its first two characters passes validation. As an `i64` literal it then reaches `new BN(value)` as a malformed decimal. |
| ZkWasmUtil.BadIsHexAfterSlice | dist/cjs/helper/util.js:33 | `"bad"` is such a value. |
| ZkWasmUtil.OutcomeFails | dist/cjs/helper/util.js:64-72 | One entry fails exactly when its trimmed text is non-blank and `parseArg` rejects it. The error is `invalid args in <trimmed entry>`. |
| ZkWasmUtil.ParseArgs | dist/cjs/helper/util.js:61-76 | The loop trims each entry, skips blanks, pushes each accepted literal's array, throws on the first rejection and flattens at the end. Its result equals `ParsedArgs`. |
| ZkWasmUtil.ParseStep | dist/cjs/helper/util.js:63-73 | One loop iteration, matched against the fold that specifies `parseArgs`. |
| ZkWasmUtil.ParsedArgsFailFast | dist/cjs/helper/util.js:66-72 | The batch fails exactly when some entry is rejected. The error names the first rejected entry. |
| ZkWasmUtil.ParsedArgsSkipsBlank | dist/cjs/helper/util.js:64-65 | An all-whitespace entry anywhere changes nothing. |
| ZkWasmUtil.ParsedArgsAppend | dist/cjs/helper/util.js:63-75 | Parsing two batches in sequence equals parsing their concatenation: order is kept and the first failure wins. |
| ZkWasmUtil.CollectFirstFailure | dist/cjs/helper/util.js:66-72 | A run of steps fails exactly when some step fails, and then with the first failure. |
| ZkWasmUtil.CollectSkipsEmpty | dist/cjs/helper/util.js:65 | A step that contributes no numbers changes nothing. |
| ZkWasmUtil.RejectedOutcomes | dist/cjs/helper/util.js:66-72 | The failing per-entry outcomes are exactly those of the rejected entries, each carrying its message. |
| ZkWasmUtil.BytesToBN | dist/cjs/helper/util.js:112-122 | The loop pushes the little-endian value of each 32-byte slice. The result equals `LeChunks`. |
| ZkWasmUtil.LeChunksShape | dist/cjs/helper/util.js:115-117 | There are `ceil(len/32)` words, and word k reads bytes `[32k, min(32k+32, len))`. |
| ZkWasmUtil.LeChunksFit256 | dist/cjs/helper/util.js:116-117 | Every word is below 2^256. |
| ZkWasmUtil.UnchunkLeChunks | dist/cjs/helper/util.js:112-122 | Writing the words back as little-endian bytes gives the original buffer. |
| ZkWasmUtil.LeChunksUnchunk | dist/cjs/helper/util.js:112-122 | Words below 2^256, written as 32 bytes each, are read back unchanged. |
| ZkWasmUtil.CreateAddImageSignMessage | dist/cjs/helper/util.js:89-99 | The message is the six fields in the fixed order name, md5, address, description, avatar, circuit size, with no delimiter. Its length is the sum of the field lengths. |
| ZkWasmUtil.SignPayloadFields | dist/cjs/helper/util.js:91-98 | Given the field lengths, the payload yields the fields back. |
| ZkWasmUtil.SignPayloadExamples | dist/cjs/helper/util.js:91-98 | Without a delimiter, two different forms sign the same message. |
| ZkWasmUtil.TargetArgs | dist/cjs/helper/util.js:134-138 | The public inputs are rendered in decimal, and each reads back to its number. An empty list becomes `["0x0"]`. |
| ZkWasmUtil.VerifyProofArgs | dist/cjs/helper/util.js:129-140 | The contract receives the 32-byte words of the proof, the instances and aux, plus `[args]`. A `parseArgs` failure aborts the call with the same message. |
| ZkWasmUtil.EmptyPublicInputsPlaceholder | dist/cjs/helper/util.js:136-138 | With no public inputs, the fourth argument is `[["0x0"]]`. |
| JsText.SplitOfJoin | dist/cjs/helper/util.js:27 | `split(":")` undoes a join of fields that contain no `:`. |
| JsText.SplitField | dist/cjs/helper/util.js:27-29 | Splitting a field that contains no `:`, followed by `:` and some rest, gives the field and then the split of the rest. |
| JsText.TrimIsCore | dist/cjs/helper/util.js:64 | `trim()` keeps a contiguous slice that neither starts nor ends with whitespace, and removes only whitespace. |
| JsText.TrimBlank | dist/cjs/helper/util.js:64-65 | An entry trims to `""` exactly when it is all whitespace. |
| Numerals.DecStringOfDecValue | dist/cjs/helper/util.js:134 | Decimal text without a leading zero is exactly `toString(10)` of its value. |
| Numerals.LeBytesOfLeValue | dist/cjs/helper/util.js:117 | Reading bytes little-endian and writing the value back at the same width gives the same bytes. |
| JsValue.Get | src/index.ts:127-131 | A property read throws exactly on `undefined` or `null`. Otherwise it gives the own field, the element at a canonical index, or `undefined`. |
| ServiceHelper.RequestFor | src/index.ts:95-117 | The URL is the endpoint followed by the path. A GET carries `params` exactly when the body is truthy. A POST sends a falsy body as `{}` and the headers, defaulting to `{}`. |
| ServiceHelper.ZkWasmServiceHelper.PrepareRequest | src/index.ts:87-124 | A delivered reply is returned as-is. A failure becomes `RestEndpointGetFailure` or `RestEndpointPostFailure`, by method. |
| ServiceHelper.GetJSONResponse | src/index.ts:126-132 | The result is `result` exactly when `success` is the boolean `true`. Otherwise the error is `"RequestError:" + error`, converted the JavaScript way. A null reply, or an `error` that cannot be converted (an object with its own `toString` field, or an array holding one), throws a TypeError. |
| ServiceHelper.EnvelopeRoundTrip | src/index.ts:126-132 | A `{success: true, result}` reply unwraps to `result`, whatever other fields it has. |
| ServiceHelper.ErrorEnvelopeMessage | src/index.ts:127-129 | `{success: false, error: e}` fails with `RequestError:e`. |
| ServiceHelper.ErrorWithoutToString | src/index.ts:129 | An `error` object with its own `toString` field throws a TypeError instead of the request error. |
| ServiceHelper.SuccessIsStrict | src/index.ts:127 | Any `success` other than `true` fails, truthy values included. With no `error` field, the message is `RequestError:undefined`. |
| ServiceHelper.ZkWasmServiceHelper.InvokeRequest | src/index.ts:134-144 | This is `getJSONResponse` applied to the `prepareRequest` result. Transport failures pass through unchanged. |
| ServiceHelper.TransportCauseDropped | src/index.ts:103-106 | Two transports that fail on the same request, for any causes, give the same error. |
| ServiceHelper.InvokeDelivers | src/index.ts:142-143 | A delivered envelope comes back unwrapped. |
| ServiceHelper.ZkWasmServiceHelper.constructor | src/index.ts:82-86 | The three fields hold the arguments as given. |
| ServiceHelper.ZkWasmServiceTaskHelper.constructor | src/index.ts:147-150 | The `username` argument is dropped. Both user fields hold `useraddress`, and the endpoint is stored as given. |
| ServiceHelper.ZkWasmServiceImageHelper.constructor | src/index.ts:229-232 | The same as for the task helper. |
| ServiceHelper.StatisticsOf | src/index.ts:159-164 | Each of the four record fields is the corresponding `total_*` field of the result. A missing or null result throws a TypeError. |
| ServiceHelper.StatisticsRenamed | src/index.ts:159-164 | `total_images`, `total_proofs`, `total_tasks` and `total_deployed` become `totalImages`, `totalProofs`, `totalTasks` and `totalDeployed`. |
| ServiceHelper.StatisticsIgnoreOtherFields | src/index.ts:159-164 | No other field of the result affects the record. |
| ServiceHelper.ZkWasmServiceTaskHelper.LoadStatistics | src/index.ts:152-165 | A transport failure gives `RestEndpointGetFailure`, and any record comes from a delivered reply to GET `/statistics`. `StatisticsLoaded` states each outcome. |
| ServiceHelper.StatisticsLoaded | src/index.ts:152-165 | `loadStatistics` sends GET `/statistics` with `{}` and returns the delivered figures renamed. A transport failure gives `RestEndpointGetFailure`, and a missing result throws a TypeError. |
| ServiceHelper.BuildQuery | src/index.ts:172-177 | The loop adds each filter key whose value is not `""`, with its value unchanged. The result equals `QueryOf`. |
| ServiceHelper.QueryRoundTrip | src/index.ts:174-177 | Dropping the empty fields loses nothing: the filter is recovered from its query object. |
| ServiceHelper.QueryOfFromJson | src/index.ts:174-177 | Every object of non-empty strings under filter keys is the query object of some filter. |
| ServiceHelper.ZkWasmServiceTaskHelper.LoadTasks | src/index.ts:169-185 | `loadTasks` is `invokeRequest` of GET `/tasks` with the query object. |
| ServiceHelper.TasksRequest | src/index.ts:182 | The request always carries params, `{}` for an all-empty filter. |
| ServiceHelper.LoggedResult | src/index.ts:199 | `response.toString()` throws a TypeError exactly when the result is undefined or null, or does not convert: an object with its own `toString` field, or an array holding one. Any other result passes through unchanged. |
| ServiceHelper.ShadowedToStringRefused | src/index.ts:199 | A result object with its own `toString` field, or an array holding one, throws. A plain object passes. |
| ServiceHelper.ZkWasmServiceTaskHelper.AddNewWasmImage | src/index.ts:188-201 | A transport failure gives `RestEndpointPostFailure`, and a returned result has a callable `toString`. `NewWasmImageOutcomes` states each outcome. |
| ServiceHelper.ZkWasmServiceTaskHelper.AddProvingTask | src/index.ts:203-211 | The same for `/prove`. `ProvingTaskOutcomes` states each outcome. |
| ServiceHelper.ZkWasmServiceTaskHelper.AddDeployTask | src/index.ts:213-225 | The same for `/deploy`. `DeployTaskOutcomes` states each outcome. |
| ServiceHelper.SubmissionRequests | src/index.ts:188-225 | The submissions POST the form to `/setup` with a multipart header, and the task to `/prove` or `/deploy`, sending a falsy task as `{}`. |
| ServiceHelper.PostOutcomes | src/index.ts:134-144 | For any logged POST: a delivered envelope gives its result as `toString` lets it through, an envelope with no result throws a TypeError, and a transport failure gives `RestEndpointPostFailure`. |
| ServiceHelper.NewWasmImageOutcomes | src/index.ts:188-201 | `addNewWasmImage` on each kind of reply to its `/setup` request: the result delivered, a TypeError for a missing result, `RestEndpointPostFailure` for a failed transport. |
| ServiceHelper.ProvingTaskOutcomes | src/index.ts:203-211 | `addProvingTask` on each kind of reply to its `/prove` request: the same three outcomes. |
| ServiceHelper.DeployTaskOutcomes | src/index.ts:213-225 | `addDeployTask` on each kind of reply to its `/deploy` request: the same three outcomes. |
| ServiceHelper.ImageRequestShape | src/index.ts:235-242 | Both image queries send GET `/image` with `{md5}`. |
| ServiceHelper.ZkWasmServiceImageHelper.QueryImages | src/index.ts:247-258 | A transport failure gives `RestEndpointGetFailure`, and any result comes from a delivered reply to GET `/image`. `ImageSelection` states the delivered case. |
| ServiceHelper.ZkWasmServiceImageHelper.QueryImage | src/index.ts:234-245 | `queryImage` fails wherever `queryImages` fails, throws on an undefined or null list, and succeeds only on a list that is neither. `ImageSelection` gives the element. |
| ServiceHelper.ImageSelection | src/index.ts:234-257 | For a delivered list, `queryImages` returns the list. `queryImage` returns its first element, or `undefined` for an empty list. |
| ServiceHelper.ImageSelectionFailures | src/index.ts:234-245 | `queryImage` fails wherever `queryImages` fails. It also throws a TypeError on a missing or null result. |

## Left out

- `ZkWasmUtil.ParseArg`, `ZkWasmUtil.Outcome`, `ZkWasmUtil.ParsedArgs`, `ZkWasmUtil.ParseArgs` and `ZkWasmUtil.VerifyProofArgs`:
  - Each requires that no `i64` literal reach `new BN(value)` with a value that passes validation but is not decimal (`MalformedDecimal`). For text such as `"bad"`, what bn.js returns depends on its version. Negative decimals and decimals with a space are covered in the next item. The case is stated by `ValidationIgnoresPrefix` instead of being modelled.
  - `ParseArgs` and its callers require this of every entry, including entries after the first rejection, which the loop never reaches.
- `ZkWasmUtil.ParseArg`: `MalformedDecimal` also excludes two literals that bn.js does read, because the model's numbers are `nat`:
  - negative decimals: `"-12:i64"` passes validation, since `"-12".slice(2)` is `"2"`, and `new BN("-12")` is −12, which `verifyProof` passes on as `"-12"`;
  - decimals with a space among their first two characters, such as `"1 23:i64"`, which pass validation the same way; older bn.js versions read them without a check.
- `ZkWasmUtil.HexToBNs`: requires every character to be a hex digit. `parseArg` only hands it validated text. bn.js on other text is left out for the same reason.
- Big numbers are unbounded `nat`. `i64` literals are not range-checked, and neither is the source.
- The verifier contract call (`verify(...).send()`), `composeVerifyContract`, the contract ABI and web3 are left out: they are foreign calls.
- `convertToMd5` is left out. MD5 hashing is not part of this model.
- `createLogsMesssage`, `createProvingSignMessage`, `createDeploySignMessage`, `createResetImageMessage` and `createModifyImageMessage` are left out. Each is a single `JSON.stringify`, and JSON serialization is not modelled.
- Logging (`console.log` and `console.error`) is left out. The one effect of logging that matters, `response.toString()` throwing, is modelled by `LoggedResult`.
- HTTP is a parameter. The following are not modelled:
  - axios's serialization of `params` and of JSON and multipart bodies;
  - the transport's error object, beyond the fact that it is dropped;
  - asynchrony and concurrency.
- `FormData` is an opaque list of name/value entries.
- `JSON.parse(JSON.stringify(task))` in `addProvingTask` and `addDeployTask` is taken to be the task's JSON value itself. Properties that do not survive JSON serialization are not modelled.
- JSON numbers are integers. Fractions and exponents are not modelled, and neither is their `toString`.
- `ServiceHelper.GetJSONResponse` and `ServiceHelper.LoggedResult`: string conversion models one prototype method, `toString`, and an own field that shadows it. A shadowing `valueOf` field is non-callable, so it is skipped, and converting is unaffected.
- Property reads do not see inherited properties such as `constructor` of `Object.prototype` and `Array.prototype`. The keys the client reads (`success`, `result`, `error`, `total_*`, `0`) are none of these.
- Strings are sequences of code points, not UTF-16 units. This matters only for `length` and for indexing into non-BMP text.
- Key order in query objects is not modelled. Objects are maps.
- `ServiceHelper.QueryField`: the filter is the five `QueryParams` keys. A caller's object with extra or missing keys, which `Object.keys` would also enumerate or skip, is not modelled.
- `Statistics`, `Image` and the other interfaces are types only and have no behaviour. The record fields of `Statistics` are whatever values the service returns.
- `sayHello`/`sayGoodbye` and the remaining files of the repository are not part of this model.
