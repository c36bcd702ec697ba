/** Parsed JSON values as the dashboard's JavaScript sees them, and the few
    language operations its screens rely on: truthiness, `||`, property
    reads with and without `?.`, `String(v)` (template literals),
    `Array.prototype.join`, `===`, `Number(v)` and `+`.
    Numbers are integers. NaN comes from `Number`: of undefined, of an
    object, and of any string that is not a signed decimal integer
    (decimals and exponents included); `+` passes it on. */
module Js {

  import opened Wrappers
  import opened Text

  datatype JsVal =
    | Undef
    | Null
    | Bool(b: bool)
    | Num(n: int)
    | NaN
    | Str(s: string)
    | Arr(items: seq<JsVal>)
    | Obj(fields: map<string, JsVal>)

  /** A plain object, such as one row of a list response or an edit form. */
  type Record = map<string, JsVal>

  /** The values JavaScript treats as true in a condition. */
  predicate Truthy(v: JsVal) {
    match v
    case Undef => false
    case Null => false
    case Bool(b) => b
    case Num(n) => n != 0
    case NaN => false
    case Str(s) => s != ""
    case Arr(_) => true
    case Obj(_) => true
  }

  predicate Nullish(v: JsVal) { v.Undef? || v.Null? }

  /** A value on which `v?.toLowerCase()` or `v?.trim()` does not throw. */
  predicate OptString(v: JsVal) { Nullish(v) || v.Str? }

  /** `a || b`. */
  function Or(a: JsVal, b: JsVal): (r: JsVal)
    ensures Truthy(b) ==> Truthy(r)
    ensures r == a || r == b
  {
    if Truthy(a) then a else b
  }

  /** A JSON array of objects, such as a list response. */
  predicate IsRecordList(v: JsVal) {
    v.Arr? && forall i :: 0 <= i < |v.items| ==> v.items[i].Obj?
  }

  /** The objects of such a list, in order. */
  function Records(v: JsVal): (rs: seq<Record>)
    requires IsRecordList(v)
    ensures |rs| == |v.items|
    ensures forall i :: 0 <= i < |rs| ==> v.items[i] == Obj(rs[i])
  {
    seq(|v.items|, i requires 0 <= i < |v.items| => v.items[i].fields)
  }

  /** Reading field k of a record; a missing field reads as undefined. */
  function Get(r: Record, k: string): JsVal {
    if k in r then r[k] else Undef
  }

  /** Property read `v.k`: None is the TypeError thrown when v is null or
      undefined. Primitives and arrays have none of the properties the
      screens read. */
  function Prop(v: JsVal, k: string): (r: Option<JsVal>)
    ensures r.None? <==> Nullish(v)
  {
    match v
    case Undef => None
    case Null => None
    case Obj(m) => Some(Get(m, k))
    case _ => Some(Undef)
  }

  /** Optional property read `v?.k`, which never throws. */
  function OptProp(v: JsVal, k: string): JsVal {
    match v
    case Obj(m) => Get(m, k)
    case _ => Undef
  }

  /** `String(v)`, which is also what a template literal `${v}` produces. */
  function ToStr(v: JsVal): string {
    match v
    case Undef => "undefined"
    case Null => "null"
    case Bool(b) => if b then "true" else "false"
    case Num(n) => IntToString(n)
    case NaN => "NaN"
    case Str(s) => s
    case Arr(xs) => Join(seq(|xs|, i requires 0 <= i < |xs| => if Nullish(xs[i]) then "" else ToStr(xs[i])), ",")
    case Obj(_) => "[object Object]"
  }

  /** How `Array.prototype.join` renders one element: null and undefined
      become the empty string. */
  function JoinField(v: JsVal): (s: string)
    ensures Nullish(v) ==> s == ""
    ensures !Nullish(v) ==> s == ToStr(v)
  {
    if Nullish(v) then "" else ToStr(v)
  }

  /** `[v0, v1, ...].join(sep)`. */
  function JoinValues(vs: seq<JsVal>, sep: string): string {
    Join(seq(|vs|, i requires 0 <= i < |vs| => JoinField(vs[i])), sep)
  }

  /** `a === b` between separately parsed JSON values: primitives compare by
      value (NaN equals nothing), two objects or arrays are never the same
      reference. */
  predicate StrictEq(a: JsVal, b: JsVal) {
    match a
    case Undef => b.Undef?
    case Null => b.Null?
    case Bool(x) => b == Bool(x)
    case Num(x) => b == Num(x)
    case NaN => false
    case Str(x) => b == Str(x)
    case Arr(_) => false
    case Obj(_) => false
  }

  /** `Number(v)` for integer-valued input: white space around a signed
      decimal is ignored, the empty string is 0, anything else is NaN. */
  function ToNumber(v: JsVal): (r: JsVal)
    ensures r.Num? || r.NaN?
  {
    match v
    case Undef => NaN
    case Null => Num(0)
    case Bool(b) => Num(if b then 1 else 0)
    case Num(n) => Num(n)
    case NaN => NaN
    case Str(s) => StringToNumber(s)
    case Arr(_) => StringToNumber(ToStr(v))
    case Obj(_) => NaN
  }

  /** `Number(s)` restricted to integers: a trimmed signed decimal integer
      reads as its value and the blank string as 0. Every other string is
      NaN here, including decimals, exponents, hexadecimal and "Infinity",
      which JavaScript reads as numbers. */
  function StringToNumber(s: string): (r: JsVal)
    ensures r.Num? || r.NaN?
  {
    var t := Trim(s);
    if t == "" then Num(0)
    else match ParseInt(t)
      case Some(n) => Num(n)
      case None => NaN
  }

  /** A rendered integer reads back as that number. */
  lemma NumberOfString(n: int)
    ensures ToNumber(Str(IntToString(n))) == Num(n)
  {
    var s := IntToString(n);
    IntToStringRoundTrip(n);
    assert LeadingSpaces(s) == 0 && TrailingSpaces(s) == 0;
    assert Trim(s) == s;
  }

  /** The binary `+` operator: concatenation as soon as one side is a
      string, an array or an object; numeric addition otherwise. */
  function Add(a: JsVal, b: JsVal): (r: JsVal)
    ensures a.Num? && b.Num? ==> r == Num(a.n + b.n)
    ensures a.Str? || b.Str? ==> r == Str(ToStr(a) + ToStr(b))
  {
    if a.Str? || a.Arr? || a.Obj? || b.Str? || b.Arr? || b.Obj? then Str(ToStr(a) + ToStr(b))
    else
      var x, y := ToNumber(a), ToNumber(b);
      if x.Num? && y.Num? then Num(x.n + y.n) else NaN
  }
}
