/**
 * The JavaScript values that conversation payloads, database records and
 * entity properties are made of, with the few operators the mapper applies
 * to them: truthiness, `||`, property reads, `===`, `<`, `typeof`,
 * `includes` and the conversion of a value to a property key.
 */
module JsValue {
  import opened Wrappers

  /**
   * A JSON-shaped JavaScript value. Numbers are whole numbers (timestamps,
   * timers and enum values are); NaN, the result of parsing a malformed
   * date, is its own case.
   */
  datatype Value =
    | Undefined
    | Null
    | Bool(b: bool)
    | Num(n: int)
    | NaN
    | Str(s: string)
    | Arr(items: seq<Value>)
    | Obj(fields: map<string, Value>)

  /**
   * The runtime's date-string parser (ISO 8601 and the formats it accepts
   * besides), supplied by the caller; None stands for an invalid date.
   */
  type DateParser = string -> Option<int>

  /** The largest time value, in milliseconds, that a Date can hold. */
  const MAX_TIME: int := 8_640_000_000_000_000

  /** A time value, or NaN outside the range a Date can hold. */
  function TimeClip(t: Option<int>): (r: Value)
    ensures r.Num? || r.NaN?
    ensures r.Num? <==> t.Some? && -MAX_TIME <= t.value <= MAX_TIME
    ensures r.Num? ==> r.n == t.value
  {
    if t.Some? && -MAX_TIME <= t.value <= MAX_TIME then Num(t.value) else NaN
  }

  /**
   * `new Date(v).getTime()`: undefined gives NaN, null, booleans and
   * numbers are converted to a number of milliseconds, anything else is
   * converted to a string and parsed.
   */
  function DateTime(parse: DateParser, v: Value): (r: Value)
    ensures r.Num? || r.NaN?
    ensures v == Undefined || v == NaN ==> r == NaN
    ensures v == Null ==> r == Num(0)
    ensures v.Num? && -MAX_TIME <= v.n <= MAX_TIME ==> r == v
    ensures v.Str? ==> r == TimeClip(parse(v.s))
  {
    match v
    case Undefined => NaN
    case Null => Num(0)
    case Bool(b) => Num(if b then 1 else 0)
    case Num(n) => TimeClip(Some(n))
    case NaN => NaN
    case _ => TimeClip(parse(ToPropertyKey(v)))
  }

  /** `if (v)`: false, 0, NaN, "", null and undefined are falsy. */
  predicate Truthy(v: Value) {
    match v
    case Undefined => false
    case Null => false
    case Bool(b) => b
    case Num(n) => n != 0
    case NaN => false
    case Str(s) => s != ""
    case Arr(_) => true
    case Obj(_) => true
  }

  /** Reading a property of these throws a TypeError. */
  predicate Nullish(v: Value) {
    v == Undefined || v == Null
  }

  /** `typeof v === 'number'`, which holds for NaN too. */
  predicate IsNumber(v: Value) {
    v.Num? || v.NaN?
  }

  /** `a || b` */
  function Or(a: Value, b: Value): (r: Value)
    ensures Truthy(r) <==> Truthy(a) || Truthy(b)
    ensures Truthy(a) ==> r == a
    ensures !Truthy(a) ==> r == b
  {
    if Truthy(a) then a else b
  }

  /**
   * The property read `v.key` on a value that is neither null nor undefined
   * (callers rule those out first, as the source would throw): an object's
   * own field, the `length` of an array or string, and `undefined` otherwise.
   */
  function Get(v: Value, key: string): Value {
    match v
    case Obj(m) => if key in m then m[key] else Undefined
    case Arr(items) => if key == "length" then Num(|items|) else Undefined
    case Str(s) => if key == "length" then Num(|s|) else Undefined
    case _ => Undefined
  }

  /** `o.key` on an object held as its map of own properties. */
  function Lookup<K>(m: map<K, Value>, key: K): Value {
    if key in m then m[key] else Undefined
  }

  /** The properties `{...v}` copies out of an object. */
  function OwnEntries(v: Value): map<string, Value> {
    if v.Obj? then v.fields else map[]
  }

  /**
   * `a === b`. Payloads are parsed JSON, so two arrays or objects compared
   * here are never the same object; NaN equals nothing.
   */
  predicate StrictEquals(a: Value, b: Value) {
    a == b && !a.NaN? && !a.Arr? && !a.Obj?
  }

  /** `t` occurs in `s` starting at index `i`. */
  predicate OccursAt(t: string, s: string, i: int) {
    0 <= i <= |s| - |t| && s[i..i + |t|] == t
  }

  /** `s.includes(t)` on strings. */
  predicate IsSubstring(t: string, s: string) {
    exists i :: 0 <= i <= |s| && OccursAt(t, s, i)
  }

  /**
   * `v.includes(needle)` on an array (SameValueZero, which for a string
   * needle is equality) or on a string (substring search). On other values
   * `includes` is not a function and the call throws.
   */
  predicate Includes(v: Value, needle: string)
    requires v.Arr? || v.Str?
  {
    match v
    case Arr(items) => exists i :: 0 <= i < |items| && items[i] == Str(needle)
    case Str(s) => IsSubstring(needle, s)
  }

  /**
   * The number a relational comparison converts a primitive to; None is
   * NaN. Strings, arrays and objects are treated as NaN (see README).
   */
  function ToNumber(v: Value): Option<int> {
    match v
    case Null => Some(0)
    case Bool(b) => Some(if b then 1 else 0)
    case Num(n) => Some(n)
    case _ => None
  }

  /** `a < b`; any comparison involving NaN is false. */
  predicate LessThan(a: Value, b: Value) {
    ToNumber(a).Some? && ToNumber(b).Some? && ToNumber(a).value < ToNumber(b).value
  }

  function DigitChar(d: nat): char
    requires d < 10
  {
    "0123456789"[d]
  }

  /** Decimal notation of a natural number. */
  function NatToString(n: nat): (s: string)
    ensures |s| > 0
  {
    if n < 10 then [DigitChar(n)] else NatToString(n / 10) + [DigitChar(n % 10)]
  }

  /** `items.join(",")` */
  function JoinWithCommas(parts: seq<string>): string {
    if parts == [] then ""
    else if |parts| == 1 then parts[0]
    else JoinWithCommas(parts[..|parts| - 1]) + "," + parts[|parts| - 1]
  }

  /**
   * The property key `obj[v]` and `v in obj` use: `String(v)`. An array
   * joins its elements with commas, null and undefined elements giving "".
   */
  function ToPropertyKey(v: Value): string {
    match v
    case Undefined => "undefined"
    case Null => "null"
    case Bool(b) => if b then "true" else "false"
    case Num(n) => if n < 0 then "-" + NatToString(-n) else NatToString(n)
    case NaN => "NaN"
    case Str(s) => s
    case Arr(items) => JoinWithCommas(seq(|items|, i requires 0 <= i < |items| =>
      if Nullish(items[i]) then "" else ToPropertyKey(items[i])))
    case Obj(_) => "[object Object]"
  }
}
