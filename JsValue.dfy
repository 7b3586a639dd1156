/**
 * The JavaScript values the service client handles: parsed JSON (what a
 * response body decodes to), property reads `v[key]`, truthiness, and the
 * string conversion `"..." + v` performs. A read that finds nothing gives
 * `undefined`, written `None`; reading a property of `undefined` or `null`
 * throws a TypeError.
 */
module JsValue {
  import opened Wrappers
  import opened Numerals
  import opened JsText

  /** A parsed JSON value; numbers are limited to integers. */
  datatype Json =
    | JNull
    | JBool(b: bool)
    | JNum(n: int)
    | JStr(s: string)
    | JArr(elems: seq<Json>)
    | JObj(fields: map<string, Json>)

  /** What a JavaScript function throws. */
  datatype Thrown = Error(message: string) | TypeError

  /** A canonical array index: decimal digits without a leading zero ("0", "7", "12", not "07"). */
  function IndexOf(key: string): (r: Option<nat>)
    ensures r.Some? ==> DecString(r.value) == key
  {
    if IsDecString(key) && (key[0] == '0' ==> |key| == 1) then
      DecStringOfDecValue(key);
      Some(DecValue(key))
    else None
  }

  /** Every index is read back from its own decimal name. */
  lemma IndexOfDecString(i: nat)
    ensures IndexOf(DecString(i)) == Some(i)
  {
  }

  /**
   * `base[key]`: an object's own field, an array element or a string's
   * character at a canonical index, the `length` of an array or a string;
   * anything else is `undefined`, and `undefined` or `null` as the base throws.
   */
  function Get(base: Option<Json>, key: string): (r: Result<Option<Json>, Thrown>)
    ensures r.Err? <==> base == None || base == Some(JNull)
    ensures r.Err? ==> r.error == TypeError
  {
    match base
    case None => Err(TypeError)
    case Some(JNull) => Err(TypeError)
    case Some(JObj(fields)) => Ok(if key in fields then Some(fields[key]) else None)
    case Some(JArr(es)) =>
      var i := IndexOf(key);
      if i.Some? && i.value < |es| then Ok(Some(es[i.value]))
      else if key == "length" then Ok(Some(JNum(|es|)))
      else Ok(None)
    case Some(JStr(s)) =>
      var i := IndexOf(key);
      if i.Some? && i.value < |s| then Ok(Some(JStr([s[i.value]])))
      else if key == "length" then Ok(Some(JNum(|s|)))
      else Ok(None)
    case Some(_) => Ok(None)
  }

  /** `if (v)`: false, 0, "" and null are falsy; every array and object is truthy. */
  predicate Truthy(v: Json) {
    match v
    case JNull => false
    case JBool(b) => b
    case JNum(n) => n != 0
    case JStr(s) => s != ""
    case _ => true
  }

  /** The decimal rendering of an integer, with a '-' for negatives. */
  function IntString(n: int): (r: string)
    ensures |r| > 0
    ensures n >= 0 ==> r == DecString(n)
    ensures n < 0 ==> r == "-" + DecString(-n)
  {
    if n < 0 then "-" + DecString(-n) else DecString(n)
  }

  /** `parts.join(",")`, empty for no parts. */
  function JoinComma(parts: seq<string>): string {
    if parts == [] then "" else Join(parts, ',')
  }

  /**
   * JavaScript's ToString of a JSON value that converts: arrays join their
   * elements with "," (null elements become ""), objects give "[object Object]".
   */
  function JsonString(v: Json): string
    decreases v
  {
    match v
    case JNull => "null"
    case JBool(b) => if b then "true" else "false"
    case JNum(n) => IntString(n)
    case JStr(s) => s
    case JArr(es) => JoinComma(seq(|es|, i requires 0 <= i < |es| => if es[i] == JNull then "" else JsonString(es[i])))
    case JObj(_) => "[object Object]"
  }

  /**
   * An object's own `toString` field shadows `Object.prototype.toString`.
   * A parsed value is never callable, so converting such an object to a
   * string finds no usable method and throws a TypeError. An array converts
   * by converting its elements, so the same holds for an array that holds
   * such an object at any depth.
   */
  predicate Converts(v: Json)
    decreases v
  {
    match v
    case JObj(fields) => "toString" !in fields
    case JArr(es) => forall i :: 0 <= i < |es| ==> Converts(es[i])
    case _ => true
  }

  /** ToString of any value, `undefined` included; a TypeError where no `toString` method can be called. */
  function ToString(v: Option<Json>): (r: Result<string, Thrown>)
    ensures r.Err? <==> v.Some? && !Converts(v.value)
    ensures r.Err? ==> r.error == TypeError
  {
    match v
    case None => Ok("undefined")
    case Some(j) => if Converts(j) then Ok(JsonString(j)) else Err(TypeError)
  }

  /**
   * `v.toString()` succeeds: v is neither undefined nor null, and it converts
   * (an array's `toString` is `join`, which converts every element).
   */
  predicate HasToString(v: Option<Json>) {
    v.Some? && v.value != JNull && Converts(v.value)
  }
}
