/** The JavaScript values the client handles: what `response.json()` yields,
    the objects callers pass in, and `undefined`.  Only the parts of the
    language the client relies on are modelled: truthiness, reading a property,
    reading index 0 and the ToString conversion a template literal applies. */
module Js {

  datatype Option<T> = None | Some(value: T)

  /** A JavaScript value.  Numbers are integers; objects are plain data, so a
      property read sees only the object's own keys. */
  datatype Value =
    | Undefined
    | Null
    | Bool(b: bool)
    | Num(n: int)
    | Str(s: string)
    | Arr(items: seq<Value>)
    | Obj(fields: map<string, Value>)

  /** The completion of a call into code outside the model: a normal return or
      an exception carrying the thrown value. */
  datatype Result<T> = Ok(value: T) | Threw(error: Value)

  predicate Nullish(v: Value) {
    v.Undefined? || v.Null?
  }

  /** `if (v)`: undefined, null, false, 0 and the empty string are falsy. */
  predicate Truthy(v: Value) {
    match v
    case Undefined => false
    case Null => false
    case Bool(b) => b
    case Num(n) => n != 0
    case Str(s) => s != ""
    case Arr(_) => true
    case Obj(_) => true
  }

  /** `m[key]` on an object whose own keys are those of `m`. */
  function Lookup(m: map<string, Value>, key: string): Value {
    if key in m then m[key] else Undefined
  }

  /** `v.name` on a value that is neither undefined nor null. */
  function Member(v: Value, name: string): Value
    requires !Nullish(v)
  {
    match v
    case Obj(fields) => Lookup(fields, name)
    case _ => Undefined
  }

  /** `v.name`; None is the TypeError JavaScript throws for undefined and null. */
  function Read(v: Value, name: string): (r: Option<Value>)
    ensures r.None? <==> Nullish(v)
    ensures v.Obj? ==> r == Some(Lookup(v.fields, name))
  {
    if Nullish(v) then None else Some(Member(v, name))
  }

  /** `v[0]`; None is the TypeError JavaScript throws for undefined and null. */
  function First(v: Value): (r: Option<Value>)
    ensures r.None? <==> Nullish(v)
    ensures v.Arr? ==> r == Some(if v.items == [] then Undefined else v.items[0])
    ensures r.Some? && !Nullish(r.value) ==> v.Arr? || v.Str? || v.Obj?
  {
    match v
    case Undefined => None
    case Null => None
    case Arr(items) => Some(if items == [] then Undefined else items[0])
    case Str(s) => Some(if s == "" then Undefined else Str(s[..1]))
    case Obj(fields) => Some(Lookup(fields, "0"))
    case _ => Some(Undefined)
  }

  function DigitChar(d: int): (c: char)
    requires 0 <= d < 10
    ensures '0' <= c <= '9'
  {
    (48 + d) as char
  }

  /** The decimal numeral of a natural number, without leading zeros. */
  function NatToString(n: nat): (s: string)
    ensures |s| > 0
    ensures forall i :: 0 <= i < |s| ==> '0' <= s[i] <= '9'
    ensures s[0] == '0' ==> n == 0
    decreases n
  {
    if n < 10 then [DigitChar(n)] else NatToString(n / 10) + [DigitChar(n % 10)]
  }

  function IntToString(n: int): (s: string)
    ensures |s| > 0
    ensures (s[0] == '-') <==> n < 0
  {
    if n < 0 then "-" + NatToString(-n) else NatToString(n)
  }

  /** `parts.join(sep)` */
  function Join(parts: seq<string>, sep: string): string
    decreases |parts|
  {
    if parts == [] then ""
    else if |parts| == 1 then parts[0]
    else parts[0] + sep + Join(parts[1..], sep)
  }

  /** ToString, as `${v}` in a template literal applies it: an array renders as
      its elements joined by commas (undefined and null elements as empty),
      an object as "[object Object]" (an object with an own `toString` key,
      which JavaScript would reject, is not told apart). */
  function ToStr(v: Value): (s: string)
    ensures v.Str? ==> s == v.s
    ensures v.Bool? ==> s == (if v.b then "true" else "false")
  {
    match v
    case Undefined => "undefined"
    case Null => "null"
    case Bool(b) => if b then "true" else "false"
    case Num(n) => IntToString(n)
    case Str(s) => s
    case Arr(items) =>
      Join(seq(|items|, i requires 0 <= i < |items| =>
                          if Nullish(items[i]) then "" else ToStr(items[i])), ",")
    case Obj(_) => "[object Object]"
  }
}
