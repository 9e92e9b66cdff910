/** JavaScript values as they reach the reducers, the screens and the Express handlers,
    with the two ways the source turns a possibly-missing value into a default:
    the `||` operator (any falsy value is replaced) and a destructuring default
    (`{ status = 'planned' } = req.body`, only `undefined` is replaced). */
module Js {

  datatype Option<+T> = None | Some(value: T)

  /** A JSON-like value. Numbers are modelled as reals; NaN and the infinities are not modelled. */
  datatype JsValue =
    | Undefined
    | Null
    | Bool(b: bool)
    | Num(n: real)
    | Str(s: string)
    | Arr(items: seq<JsValue>)
    | Obj(fields: map<string, JsValue>)

  /** A database row or a parsed JSON body: field name to value. */
  type Row = map<string, JsValue>

  /** JavaScript truthiness: false, 0, "", null and undefined are falsy; arrays and objects are truthy. */
  predicate Truthy(v: JsValue)
  {
    match v
    case Undefined => false
    case Null => false
    case Bool(b) => b
    case Num(n) => n != 0.0
    case Str(s) => s != ""
    case Arr(_) => true
    case Obj(_) => true
  }

  /** `a || b` */
  function Or(a: JsValue, b: JsValue): (r: JsValue)
    ensures Truthy(a) ==> r == a
    ensures !Truthy(a) ==> r == b
    ensures r == a || r == b
    ensures Truthy(r) <==> Truthy(a) || Truthy(b)
  {
    if Truthy(a) then a else b
  }

  /** A destructuring default `{ k = d } = obj`: only a missing (undefined) value takes the default. */
  function DefaultIfUndefined(v: JsValue, d: JsValue): (r: JsValue)
    ensures v.Undefined? ==> r == d
    ensures !v.Undefined? ==> r == v
    ensures r.Undefined? <==> v.Undefined? && d.Undefined?
  {
    if v.Undefined? then d else v
  }

  /** Property access `obj.key`: a missing key reads as undefined. */
  function Get(row: Row, key: string): (r: JsValue)
    ensures key in row ==> r == row[key]
    ensures key !in row ==> r == Undefined
  {
    if key in row then row[key] else Undefined
  }

  /** The two defaulting rules differ exactly on falsy values other than undefined:
      `null || d` is `d`, while a destructuring default keeps `null`. */
  lemma OrVersusDefault(v: JsValue, d: JsValue)
    ensures !Truthy(v) && !v.Undefined? ==> Or(v, d) == d && DefaultIfUndefined(v, d) == v
    ensures Truthy(v) ==> Or(v, d) == DefaultIfUndefined(v, d) == v
    ensures v.Undefined? ==> Or(v, d) == DefaultIfUndefined(v, d) == d
  {
  }
}
