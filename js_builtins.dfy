/** The parts of JavaScript's value model and built-ins that the telemetry
    layer relies on: truthiness, thrown errors, String.prototype.includes,
    Array.prototype.slice(0, end) and Number.prototype.toString(radix). */
module Js {

  datatype Option<T> = None | Some(value: T)

  /** A call either returns a value or throws an Error carrying a message. */
  datatype Result<T> = Ok(value: T) | Failure(message: string)

  /** The JSON-like values the tools hand to the store as opaque payloads.
      `Date` is a `new Date()` object, `ServerTime` the Firestore
      `serverTimestamp()` sentinel. */
  datatype Value =
    | Null
    | Bool(b: bool)
    | Num(n: int)
    | Str(s: string)
    | Date(millis: int)
    | ServerTime
    | Obj(fields: map<string, Value>)

  type Fields = map<string, Value>

  /** JavaScript truthiness (`!!v`). */
  predicate Truthy(v: Value)
  {
    match v
    case Null => false
    case Bool(b) => b
    case Num(n) => n != 0
    case Str(s) => s != ""
    case _ => true
  }

  /** Truthiness of an optional string argument: null and "" are falsy. */
  predicate NonEmpty(o: Option<string>)
  {
    o.Some? && o.value != ""
  }

  /** `v.key` for a property read: reading a property of null throws a
      TypeError, reading a missing property gives undefined (None). */
  function Property(v: Value, key: string): (r: Result<Option<Value>>)
    ensures r.Failure? <==> v.Null?
    ensures r.Ok? && r.value.Some? ==> v.Obj? && key in v.fields && r.value.value == v.fields[key]
    ensures v.Obj? && key in v.fields ==> r == Ok(Some(v.fields[key]))
  {
    match v
    case Null => Failure(NullPropertyMessage(key))
    case Obj(m) => Ok(if key in m then Some(m[key]) else None)
    case _ => Ok(None)
  }

  function NullPropertyMessage(key: string): string
  {
    "Cannot read properties of null (reading '" + key + "')"
  }

  // ---------------------------------------------------------------------
  // String.prototype.includes

  predicate OccursAt(s: string, sub: string, i: nat)
  {
    i + |sub| <= |s| && s[i..i + |sub|] == sub
  }

  lemma OccursAtShift(s: string, sub: string)
    requires |s| >= 1
    ensures forall j: nat :: OccursAt(s[1..], sub, j) <==> OccursAt(s, sub, j + 1)
  {
    forall j: nat
      ensures OccursAt(s[1..], sub, j) <==> OccursAt(s, sub, j + 1)
    {
      if j + |sub| <= |s[1..]| {
        assert s[1..][j..j + |sub|] == s[j + 1..j + 1 + |sub|];
      }
    }
  }

  /** `s.includes(sub)`: true iff `sub` occurs in `s` at some position. */
  function Includes(s: string, sub: string): (r: bool)
    ensures r <==> exists i: nat :: OccursAt(s, sub, i)
    decreases |s|
  {
    if |s| < |sub| then
      false
    else if s[..|sub|] == sub then
      assert OccursAt(s, sub, 0);
      true
    else
      var rest := Includes(s[1..], sub);
      OccursAtShift(s, sub);
      assert !OccursAt(s, sub, 0);
      assert forall i: nat :: OccursAt(s, sub, i) ==> i >= 1 && OccursAt(s[1..], sub, i - 1);
      rest
  }

  // ---------------------------------------------------------------------
  // Array.prototype.slice(0, end)

  /** The index at which `slice(0, end)` stops on an array of length `len`:
      a negative end counts back from the end of the array. */
  function SliceEnd(len: nat, end: int): nat
  {
    if end < 0 then (if len + end < 0 then 0 else len + end)
    else if end > len then len
    else end
  }

  /** `s.slice(0, end)`: a prefix of `s`, as long as `end` when that fits, or
      all but the last `-end` elements when `end` is negative. */
  function SliceTo<T>(s: seq<T>, end: int): (r: seq<T>)
    ensures |r| <= |s| && r == s[..|r|]
    ensures 0 <= end <= |s| ==> |r| == end
    ensures end > |s| ==> r == s
    ensures end < 0 ==> |r| == (if |s| + end < 0 then 0 else |s| + end)
  {
    s[..SliceEnd(|s|, end)]
  }

  // ---------------------------------------------------------------------
  // Number.prototype.toString(radix) on non-negative integers

  function Digit(d: nat): (c: char)
    requires d < 36
  {
    if d < 10 then ('0' as int + d) as char else ('a' as int + d - 10) as char
  }

  function DigitValue(c: char): nat
  {
    if '0' <= c <= '9' then c as int - '0' as int
    else if 'a' <= c <= 'z' then c as int - 'a' as int + 10
    else 0
  }

  lemma DigitRoundTrip(d: nat)
    requires d < 36
    ensures DigitValue(Digit(d)) == d
  {
  }

  lemma DivModFacts(n: nat, base: nat)
    requires 2 <= base <= n
    ensures 1 <= n / base < n
    ensures n % base < base
    ensures (n / base) * base + n % base == n
  {
  }

  /** `n.toString(base)`: the digits of `n`, most significant first, without
      leading zeros; never empty. */
  function ToRadix(n: nat, base: nat): (s: string)
    requires 2 <= base <= 36
    ensures |s| >= 1
    ensures forall k :: 0 <= k < |s| ==> DigitValue(s[k]) < base
    ensures |s| > 1 ==> s[0] != '0'
    decreases n
  {
    if n < base then
      DigitRoundTrip(n);
      [Digit(n)]
    else
      DivModFacts(n, base);
      DigitRoundTrip(n % base);
      var high := ToRadix(n / base, base);
      assert |high| == 1 ==> high[0] == Digit(n / base);
      high + [Digit(n % base)]
  }

  /** Reads a digit string in the given base, the inverse of ToRadix. */
  function ParseRadix(s: string, base: nat): nat
    decreases |s|
  {
    if s == [] then 0 else ParseRadix(s[..|s| - 1], base) * base + DigitValue(s[|s| - 1])
  }

  lemma {:induction false} ParseToRadix(n: nat, base: nat)
    requires 2 <= base <= 36
    ensures ParseRadix(ToRadix(n, base), base) == n
    decreases n
  {
    var s := ToRadix(n, base);
    if n < base {
      DigitRoundTrip(n);
      assert s[..0] == [];
    } else {
      DivModFacts(n, base);
      DigitRoundTrip(n % base);
      var high := ToRadix(n / base, base);
      assert s[..|s| - 1] == high;
      ParseToRadix(n / base, base);
    }
  }

  lemma ToRadixInjective(n: nat, m: nat, base: nat)
    requires 2 <= base <= 36
    ensures ToRadix(n, base) == ToRadix(m, base) ==> n == m
  {
    ParseToRadix(n, base);
    ParseToRadix(m, base);
  }
}
