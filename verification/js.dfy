/**
 * The JavaScript values that cross the tool-dispatch boundary: the result of
 * `JSON.parse` on a tool call's argument text, the values a handler returns,
 * and the few built-in conversions the source applies to them
 * (`Object.values`, template-literal interpolation, Node's argument-type
 * error text).
 */
module Js {
  import opened Common

  /**
   * A parsed JSON value. An object lists its properties in JavaScript
   * property order (the order `Object.values` enumerates), with distinct
   * keys. A number carries the text JavaScript prints for it.
   */
  datatype Json =
    | JNull
    | JBool(b: bool)
    | JNum(printed: string)
    | JStr(s: string)
    | JArr(items: seq<Json>)
    | JObj(props: seq<(string, Json)>)

  /** The TypeError `Object.values` throws on `null`. */
  const NullToObject := "Cannot convert undefined or null to object"

  /**
   * `Object.values(v)`: an object's property values in property order, an
   * array's elements, a string's characters, nothing for a number or a
   * boolean, and a TypeError for `null`.
   */
  function ObjectValues(v: Json): (r: Result<seq<Json>, string>)
    ensures r.Err? <==> v.JNull?
    ensures v.JObj? ==>
              r.Ok? && |r.value| == |v.props|
              && forall i :: 0 <= i < |v.props| ==> r.value[i] == v.props[i].1
    ensures v.JArr? ==> r == Ok(v.items)
    ensures v.JStr? ==>
              r.Ok? && |r.value| == |v.s|
              && forall i :: 0 <= i < |v.s| ==> r.value[i] == JStr([v.s[i]])
  {
    match v
    case JNull => Err(NullToObject)
    case JBool(_) => Ok([])
    case JNum(_) => Ok([])
    case JStr(s) => Ok(seq(|s|, i requires 0 <= i < |s| => JStr([s[i]])))
    case JArr(items) => Ok(items)
    case JObj(props) => Ok(seq(|props|, i requires 0 <= i < |props| => props[i].1))
  }

  /** `String(v)`, as a template literal `${v}` renders a defined value. */
  function ToJsString(v: Json): string
    decreases v
  {
    match v
    case JNull => "null"
    case JBool(b) => if b then "true" else "false"
    case JNum(printed) => printed
    case JStr(s) => s
    case JArr(items) => ArrayString(items)
    case JObj(_) => "[object Object]"
  }

  /** `Array.prototype.join(',')`, which renders `null` elements as empty text. */
  function ArrayString(items: seq<Json>): string
    decreases items
  {
    if |items| == 0 then ""
    else
      var head := if items[0].JNull? then "" else ToJsString(items[0]);
      if |items| == 1 then head else head + "," + ArrayString(items[1..])
  }

  /** Template-literal interpolation of a possibly missing argument. */
  function Interpolate(v: Option<Json>): string {
    match v
    case None => "undefined"
    case Some(j) => ToJsString(j)
  }

  /**
   * How Node's ERR_INVALID_ARG_TYPE message describes a received value that
   * is not a string.
   */
  function Describe(v: Option<Json>): string {
    match v
    case None => "undefined"
    case Some(JNull) => "null"
    case Some(JBool(b)) => "type boolean (" + (if b then "true" else "false") + ")"
    case Some(JNum(p)) => "type number (" + (if |p| > 28 then p[..25] + "..." else p) + ")"
    case Some(JStr(s)) =>
      var quoted := "'" + s + "'";
      "type string (" + (if |quoted| > 28 then quoted[..25] + "..." else quoted) + ")"
    case Some(JArr(_)) => "an instance of Array"
    case Some(JObj(_)) => "an instance of Object"
  }

  /** The argument a handler parameter at `index` receives: `undefined` past the end. */
  function Arg(args: seq<Json>, index: nat): (r: Option<Json>)
    ensures r.Some? <==> index < |args|
    ensures index < |args| ==> r.value == args[index]
  {
    if index < |args| then Some(args[index]) else None
  }
}
