/** JavaScript values as the handlers and components see them after JSON parsing,
    with the coercions the source relies on: truthiness, `a || b`, property reads
    and `String(v)`. Numbers are integers here; no field of the modelled core holds
    a fraction. */
module Js {
  import opened Optional
  import opened Text

  datatype Value =
    | Undefined
    | Null
    | Bool(b: bool)
    | Num(n: int)
    | Str(s: string)
    | Arr(items: seq<Value>)
    | Obj(fields: map<string, Value>)

  /** An object: a property that is not in the map reads as `undefined`. */
  type Row = map<string, Value>

  /** `!!v`: undefined, null, false, 0 and "" are falsy; every array and object is truthy. */
  predicate Truthy(v: Value) {
    match v
    case Undefined => false
    case Null => false
    case Bool(b) => b
    case Num(n) => n != 0
    case Str(s) => s != ""
    case Arr(_) => true
    case Obj(_) => true
  }

  /** `a || b` */
  function Or(a: Value, b: Value): Value {
    if Truthy(a) then a else b
  }

  /** `row.k` */
  function Get(row: Row, k: string): Value {
    if k in row then row[k] else Undefined
  }

  /** Reading a property of null or undefined throws a `TypeError`. */
  predicate NoProperties(v: Value) {
    v.Null? || v.Undefined?
  }

  /** `v.k` on a value that is not null or undefined (see `NoProperties`, which callers
      test first where the source can meet one): only objects have properties the
      source reads, anything else yields `undefined`. */
  function Prop(v: Value, k: string): Value {
    match v
    case Obj(fields) => Get(fields, k)
    case _ => Undefined
  }

  /** The `TypeError` message for reading property `k` of null or undefined. */
  function ReadError(v: Value, k: string): string {
    "Cannot read properties of " + JsString(v) + " (reading '" + k + "')"
  }

  /** A JavaScript string value, as an optional string (`undefined` for None). */
  function OfOption(o: Option<string>): Value {
    match o
    case Some(s) => Str(s)
    case None => Undefined
  }

  /** `v === secret` where the secret is a configured string or `undefined` when unset. */
  predicate StrictEqualsSecret(v: Value, secret: Option<string>) {
    v == OfOption(secret)
  }

  /** `String(v)`, as used by template literals, `new Error(v)`, `FormData.append`
      and `sessionStorage.setItem`. An array joins its elements with "," and shows
      null and undefined elements as "". */
  function JsString(v: Value): string
    decreases v
  {
    match v
    case Undefined => "undefined"
    case Null => "null"
    case Bool(b) => if b then "true" else "false"
    case Num(n) => IntToString(n)
    case Str(s) => s
    case Arr(items) =>
      Join(seq(|items|, i requires 0 <= i < |items| =>
        if items[i].Undefined? || items[i].Null? then "" else JsString(items[i])), ',')
    case Obj(_) => "[object Object]"
  }

  /** An array of rows, as a response body carries it. */
  function RowsValue(rows: seq<Row>): (v: Value)
    ensures v.Arr? && |v.items| == |rows|
    ensures forall i :: 0 <= i < |rows| ==> v.items[i] == Obj(rows[i])
  {
    Arr(seq(|rows|, i requires 0 <= i < |rows| => Obj(rows[i])))
  }

  /** An array of strings, as a request body carries it. */
  function Strings(ws: seq<string>): (v: Value)
    ensures v.Arr? && |v.items| == |ws|
    ensures forall i :: 0 <= i < |ws| ==> v.items[i] == Str(ws[i])
  {
    Arr(seq(|ws|, i requires 0 <= i < |ws| => Str(ws[i])))
  }
}
