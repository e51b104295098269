/**
 * JavaScript values and the parts of JavaScript's semantics that the dispatch
 * front end relies on: truthiness and `||` defaults, string conversion and
 * `Array.prototype.join`, number conversion, `Math.ceil`, `Math.round`,
 * `parseInt(…, 10)`, `Array.prototype.filter`, and the time value of a `Date`.
 */
module JsValues {

  datatype Option<+T> = None | Some(value: T)

  /** The outcome of evaluating JavaScript that may throw (a TypeError or a RangeError). */
  datatype Completion<+T> = Normal(value: T) | Throw(error: string)

  /**
   * A JavaScript number. Arithmetic is exact on reals: floating-point rounding,
   * the infinities and negative zero are not modelled.
   */
  datatype JsNumber = Finite(r: real) | NaN

  /** A JavaScript value as the pages receive it: JSON data, plus `undefined`. */
  datatype Value =
    | Undefined
    | Null
    | Bool(b: bool)
    | Num(n: JsNumber)
    | Str(s: string)
    | Arr(items: seq<Value>)
    | Obj(fields: map<string, Value>)

  /** The time value of a `Date`, in milliseconds since the epoch; `Invalid` is `Invalid Date`. */
  datatype Instant = Valid(ms: int) | Invalid

  /**
   * What the JavaScript engine provides and this model does not define: the text of a
   * number that is not a small integer, `n.toFixed(1)`, `Number(text)` for numeric text
   * other than plain digits, `parseFloat(text)`, date parsing and `JSON.parse` (`None`
   * when it throws).
   */
  datatype Env = Env(
    numberText: real -> string,
    toFixed1: real -> string,
    stringToNumber: string -> JsNumber,
    parseFloat: string -> JsNumber,
    parseDate: string -> Instant,
    parseJson: string -> Option<Value>)

  // ---------------------------------------------------------------------------
  // Truthiness and `||` defaults

  predicate Truthy(v: Value)
  {
    match v
    case Undefined => false
    case Null => false
    case Bool(b) => b
    case Num(n) => TruthyNumber(n)
    case Str(s) => s != ""
    case Arr(_) => true
    case Obj(_) => true
  }

  predicate TruthyNumber(n: JsNumber)
  {
    n.Finite? && n.r != 0.0
  }

  /** Truthiness of an optional numeric field: absent, `null`, `0` are falsy. */
  predicate TruthyReal(x: Option<real>)
  {
    x.Some? && x.value != 0.0
  }

  /** Truthiness of an optional text field: absent, `null`, `''` are falsy. */
  predicate TruthyText(x: Option<string>)
  {
    x.Some? && x.value != ""
  }

  /** `x || fallback` for a numeric field. */
  function OrReal(x: Option<real>, fallback: real): real
  {
    if TruthyReal(x) then x.value else fallback
  }

  /** `x || fallback` for a text field. */
  function OrText(x: Option<string>, fallback: string): string
  {
    if TruthyText(x) then x.value else fallback
  }

  /**
   * Property access `v.key` for an own property of a plain object; everything else reads
   * as `undefined` (the built-in `length` of strings and arrays is handled where it is used).
   */
  function Get(v: Value, key: string): Value
  {
    if v.Obj? then Field(v.fields, key) else Undefined
  }

  /** `o.key` for an object given by its own properties. */
  function Field(o: map<string, Value>, key: string): Value
  {
    if key in o then o[key] else Undefined
  }

  /** `a || b`. */
  function Or(a: Value, b: Value): (r: Value)
    ensures Truthy(r) <==> Truthy(a) || Truthy(b)
    ensures Truthy(a) ==> r == a
  {
    if Truthy(a) then a else b
  }

  /** `a === b`. Arrays and objects are distinct references here, so they are never equal. */
  predicate StrictEquals(a: Value, b: Value)
  {
    match a
    case Undefined => b.Undefined?
    case Null => b.Null?
    case Bool(x) => b.Bool? && b.b == x
    case Num(x) => b.Num? && x.Finite? && b.n.Finite? && x.r == b.n.r
    case Str(x) => b.Str? && b.s == x
    case Arr(_) => false
    case Obj(_) => false
  }

  // ---------------------------------------------------------------------------
  // Numbers

  function AbsReal(r: real): real
  {
    if r < 0.0 then -r else r
  }

  /** `Math.abs(n) <= bound`: false for NaN. */
  predicate AbsAtMost(n: JsNumber, bound: real)
  {
    n.Finite? && AbsReal(n.r) <= bound
  }

  /** `Math.abs(n) > bound`: false for NaN. */
  predicate AbsAbove(n: JsNumber, bound: real)
  {
    n.Finite? && AbsReal(n.r) > bound
  }

  function Add(a: JsNumber, b: JsNumber): JsNumber
  {
    if a.Finite? && b.Finite? then Finite(a.r + b.r) else NaN
  }

  function Sub(a: JsNumber, b: JsNumber): JsNumber
  {
    if a.Finite? && b.Finite? then Finite(a.r - b.r) else NaN
  }

  function Mul(a: JsNumber, b: JsNumber): JsNumber
  {
    if a.Finite? && b.Finite? then Finite(a.r * b.r) else NaN
  }

  function DivBy(a: JsNumber, d: real): JsNumber
    requires d != 0.0
  {
    if a.Finite? then Finite(a.r / d) else NaN
  }

  /** `Math.ceil` on a number. */
  function CeilNumber(n: JsNumber): (c: JsNumber)
    ensures c.Finite? <==> n.Finite?
    ensures n.Finite? ==> n.r <= c.r < n.r + 1.0 && c.r == c.r.Floor as real
  {
    if n.Finite? then Finite(Ceil(n.r) as real) else NaN
  }

  /** `Math.ceil`: the least integer not below `r`. */
  function Ceil(r: real): (c: int)
    ensures r <= c as real < r + 1.0
  {
    -((-r).Floor)
  }

  /** `Math.round`: the nearest integer, halves rounded up. */
  function Round(r: real): (n: int)
    ensures r - 0.5 < n as real <= r + 0.5
  {
    (r + 0.5).Floor
  }

  /** Truncation toward zero, as `ToIntegerOrInfinity` does. */
  function Trunc(r: real): (n: int)
    ensures 0.0 <= r ==> n as real <= r < n as real + 1.0
    ensures r < 0.0 ==> n as real - 1.0 < r <= n as real
  {
    if r >= 0.0 then r.Floor else -((-r).Floor)
  }

  lemma CeilMonotone(x: real, y: real)
    requires x <= y
    ensures Ceil(x) <= Ceil(y)
  {
  }

  // ---------------------------------------------------------------------------
  // Decimal text of integers and `parseInt(text, 10)`

  function DigitChar(d: int): char
    requires 0 <= d < 10
  {
    ('0' as int + d) as char
  }

  predicate IsDigit(c: char)
  {
    '0' <= c <= '9'
  }

  /** The decimal digits of a natural number, without leading zeros. */
  function NatText(n: nat): (s: string)
    ensures |s| >= 1
    ensures forall i :: 0 <= i < |s| ==> IsDigit(s[i])
  {
    if n < 10 then [DigitChar(n)] else NatText(n / 10) + [DigitChar(n % 10)]
  }

  /** How JavaScript writes an integer-valued number below 10^21 in magnitude. */
  function DecimalText(n: int): string
  {
    if n < 0 then "-" + NatText(-n) else NatText(n)
  }

  /** The value of a string of decimal digits. */
  function DigitsValue(s: string): (v: int)
    requires forall i :: 0 <= i < |s| ==> IsDigit(s[i])
    ensures v >= 0
  {
    if s == [] then 0
    else
      assert IsDigit(s[|s| - 1]);
      DigitsValue(s[..|s| - 1]) * 10 + (s[|s| - 1] as int - '0' as int)
  }

  /** The longest prefix of `s` made of decimal digits. */
  function LeadingDigits(s: string): (d: string)
    ensures |d| <= |s| && d == s[..|d|]
    ensures forall i :: 0 <= i < |d| ==> IsDigit(d[i])
    ensures |d| < |s| ==> !IsDigit(s[|d|])
  {
    if s != [] && IsDigit(s[0]) then [s[0]] + LeadingDigits(s[1..]) else []
  }

  /** The characters `parseInt` skips before the number (WhiteSpace and LineTerminator). */
  predicate IsJsWhiteSpace(c: char)
  {
    c == '\t' || c == '\n' || c == '\U{000B}' || c == '\U{000C}' || c == '\r' || c == ' '
    || c == '\U{00A0}' || c == '\U{1680}' || ('\U{2000}' <= c <= '\U{200A}')
    || c == '\U{2028}' || c == '\U{2029}' || c == '\U{202F}' || c == '\U{205F}'
    || c == '\U{3000}' || c == '\U{FEFF}'
  }

  function TrimStart(s: string): (t: string)
    ensures |t| <= |s| && t == s[|s| - |t|..]
    ensures t != [] ==> !IsJsWhiteSpace(t[0])
  {
    if s != [] && IsJsWhiteSpace(s[0]) then TrimStart(s[1..]) else s
  }

  /** `parseInt(s, 10)`: `None` stands for NaN. Precision beyond 2^53 is not modelled. */
  function ParseInt(s: string): Option<int>
  {
    ParseTrimmed(TrimStart(s))
  }

  /** `parseInt` after the leading white space has been skipped: sign, then digits. */
  function ParseTrimmed(t: string): Option<int>
  {
    if t != [] && t[0] == '-' then
      match ParseDigits(t[1..])
      case None => None
      case Some(v) => Some(-v)
    else if t != [] && t[0] == '+' then ParseDigits(t[1..])
    else ParseDigits(t)
  }

  /** The value of the leading digits of `body`; `None` when there are none. */
  function ParseDigits(body: string): (r: Option<int>)
    ensures r.Some? ==> r.value >= 0
  {
    var digits := LeadingDigits(body);
    if digits == [] then None else Some(DigitsValue(digits))
  }

  lemma {:induction false} DigitsValueOfNatText(n: nat)
    ensures DigitsValue(NatText(n)) == n
  {
    if n >= 10 {
      var s := NatText(n);
      DigitsValueOfNatText(n / 10);
      assert s[..|s| - 1] == NatText(n / 10);
    }
  }

  lemma {:induction false} LeadingDigitsOfDigits(s: string)
    requires forall i :: 0 <= i < |s| ==> IsDigit(s[i])
    ensures LeadingDigits(s) == s
  {
    if s != [] {
      LeadingDigitsOfDigits(s[1..]);
    }
  }

  /** Text that does not start with white space is left alone by `TrimStart`. */
  lemma TrimStartOfNonSpace(s: string)
    requires s != [] && !IsJsWhiteSpace(s[0])
    ensures TrimStart(s) == s
  {
  }

  /** A non-empty run of digits reads back as its value. */
  lemma ParseTrimmedOfDigits(digits: string)
    requires digits != [] && forall i :: 0 <= i < |digits| ==> IsDigit(digits[i])
    ensures ParseTrimmed(digits) == Some(DigitsValue(digits))
  {
    assert IsDigit(digits[0]);
    LeadingDigitsOfDigits(digits);
  }

  /** A minus sign followed by digits that read as `v` reads back as `-v`. */
  lemma ParseTrimmedOfNegative(digits: string, v: int)
    requires ParseDigits(digits) == Some(v)
    ensures ParseTrimmed(['-'] + digits) == Some(-v)
  {
    var t := ['-'] + digits;
    assert t[1..] == digits;
    MinusSign(t);
  }

  /** After a minus sign, `parseInt` negates the value of the digits that follow. */
  lemma MinusSign(t: string)
    requires t != [] && t[0] == '-'
    ensures ParseTrimmed(t) == if ParseDigits(t[1..]).Some? then Some(-ParseDigits(t[1..]).value) else None
  {
  }

  /** `parseInt(String(n), 10)` gives back the integer `n`. */
  lemma ParseIntOfDecimalText(n: int)
    ensures ParseInt(DecimalText(n)) == Some(n)
  {
    var m: nat := if n < 0 then -n else n;
    var digits := NatText(m);
    DigitsValueOfNatText(m);
    var t := DecimalText(n);
    assert IsDigit(digits[0]);
    TrimStartOfNonSpace(t);
    if n < 0 {
      assert ParseDigits(digits) == Some(m) by {
        LeadingDigitsOfDigits(digits);
      }
      ParseTrimmedOfNegative(digits, m);
      assert t == ['-'] + digits;
    } else {
      ParseTrimmedOfDigits(digits);
      assert t == digits;
    }
  }

  // ---------------------------------------------------------------------------
  // String conversion

  function StartsWith(s: string, prefix: string): bool
  {
    |prefix| <= |s| && s[..|prefix|] == prefix
  }

  function EndsWith(s: string, suffix: string): bool
  {
    |suffix| <= |s| && s[|s| - |suffix|..] == suffix
  }

  /** `pattern` occurs in `s` at index `i`. */
  predicate OccursAt(s: string, pattern: string, i: int)
  {
    0 <= i && i + |pattern| <= |s| && s[i..i + |pattern|] == pattern
  }

  /** `s.includes(pattern)`. */
  function Contains(s: string, pattern: string): (b: bool)
    ensures b <==> exists i :: OccursAt(s, pattern, i)
  {
    if StartsWith(s, pattern) then
      assert OccursAt(s, pattern, 0);
      true
    else if s == [] then
      assert forall i :: !OccursAt(s, pattern, i);
      false
    else
      var b := Contains(s[1..], pattern);
      ContainsShift(s, pattern);
      b
  }

  /** An occurrence not at the front of `s` is an occurrence in `s[1..]`. */
  lemma ContainsShift(s: string, pattern: string)
    requires s != [] && !StartsWith(s, pattern)
    ensures (exists i :: OccursAt(s, pattern, i)) <==> (exists i :: OccursAt(s[1..], pattern, i))
  {
    if exists i :: OccursAt(s, pattern, i) {
      var i :| OccursAt(s, pattern, i);
      assert i != 0;
      assert s[1..][i - 1..i - 1 + |pattern|] == s[i..i + |pattern|];
      assert OccursAt(s[1..], pattern, i - 1);
    }
    if exists i :: OccursAt(s[1..], pattern, i) {
      var i :| OccursAt(s[1..], pattern, i);
      assert s[1..][i..i + |pattern|] == s[i + 1..i + 1 + |pattern|];
      assert OccursAt(s, pattern, i + 1);
    }
  }

  /**
   * `s.length`: the number of UTF-16 code units, two for a character outside the Basic
   * Multilingual Plane.
   */
  function Utf16Length(s: string): (n: nat)
    ensures |s| <= n <= 2 * |s|
    ensures (forall i :: 0 <= i < |s| ==> s[i] as int < 0x10000) ==> n == |s|
  {
    if s == [] then 0 else (if s[0] as int >= 0x10000 then 2 else 1) + Utf16Length(s[1..])
  }

  /** Lower-casing of one character: only `A`-`Z` change. */
  function LowerChar(c: char): (d: char)
    ensures 'A' <= c <= 'Z' ==> 'a' <= d <= 'z' && d as int == c as int + 32
    ensures !('A' <= c <= 'Z') ==> d == c
  {
    if 'A' <= c <= 'Z' then (c as int + 32) as char else c
  }

  /** Lower-casing of the ASCII letters, character by character. */
  function AsciiLower(s: string): (t: string)
    ensures |t| == |s|
    ensures forall i :: 0 <= i < |s| ==> t[i] == LowerChar(s[i])
  {
    seq(|s|, i requires 0 <= i < |s| => LowerChar(s[i]))
  }

  /** `String(n)` for a number. */
  function NumberToString(n: JsNumber, env: Env): string
  {
    match n
    case NaN => "NaN"
    case Finite(r) =>
      if r == r.Floor as real && AbsReal(r) < 1000000000000000000000.0 then DecimalText(r.Floor)
      else env.numberText(r)
  }

  /** `String(v)`, as a template literal renders a value. */
  function ToJsString(v: Value, env: Env): string
    decreases v, 0
  {
    match v
    case Undefined => "undefined"
    case Null => "null"
    case Bool(b) => if b then "true" else "false"
    case Num(n) => NumberToString(n, env)
    case Str(s) => s
    case Arr(items) => JoinElements(items, env)
    case Obj(_) => "[object Object]"
  }

  /** An array element as `join` renders it: `null` and `undefined` become empty. */
  function ElementText(v: Value, env: Env): string
    decreases v, 1
  {
    if v.Undefined? || v.Null? then "" else ToJsString(v, env)
  }

  /** `items.join(',')`. */
  function JoinElements(items: seq<Value>, env: Env): string
    decreases items
  {
    if items == [] then ""
    else if |items| == 1 then ElementText(items[0], env)
    else ElementText(items[0], env) + "," + JoinElements(items[1..], env)
  }

  /** `parts.join(sep)` for strings. */
  function JoinStrings(parts: seq<string>, sep: string): string
  {
    if parts == [] then ""
    else if |parts| == 1 then parts[0]
    else parts[0] + sep + JoinStrings(parts[1..], sep)
  }

  /** `Number(v)`. */
  function ToNumber(v: Value, env: Env): JsNumber
  {
    match v
    case Undefined => NaN
    case Null => Finite(0.0)
    case Bool(b) => Finite(if b then 1.0 else 0.0)
    case Num(n) => n
    case Str(s) => StringToNumber(s, env)
    case Arr(_) => StringToNumber(ToJsString(v, env), env)
    case Obj(_) => NaN
  }

  /** The characters a numeric string literal can be made of (StringNumericLiteral). */
  predicate NumericLiteralChar(c: char)
  {
    IsDigit(c) || IsJsWhiteSpace(c) || c == '+' || c == '-' || c == '.'
    || ('a' <= c <= 'f') || ('A' <= c <= 'F') || c == 'x' || c == 'X' || c == 'o' || c == 'O'
    || c == 'I' || c == 'n' || c == 'i' || c == 't' || c == 'y'
  }

  /**
   * `Number(s)` for a string: blank text is 0, a run of decimal digits is its value, text
   * with a character no numeric literal uses is NaN; the engine decides the rest.
   */
  function StringToNumber(s: string, env: Env): (n: JsNumber)
    ensures (exists i :: 0 <= i < |s| && !NumericLiteralChar(s[i])) ==> n == NaN
  {
    if forall i :: 0 <= i < |s| ==> IsJsWhiteSpace(s[i]) then Finite(0.0)
    else if forall i :: 0 <= i < |s| ==> IsDigit(s[i]) then Finite(DigitsValue(s) as real)
    else if exists i :: 0 <= i < |s| && !NumericLiteralChar(s[i]) then NaN
    else env.stringToNumber(s)
  }

  /** `a + b`: string concatenation once either side is (or converts to) a string. */
  function Plus(a: Value, b: Value, env: Env): Value
  {
    if a.Str? || a.Arr? || a.Obj? || b.Str? || b.Arr? || b.Obj? then Str(ToJsString(a, env) + ToJsString(b, env))
    else Num(Add(ToNumber(a, env), ToNumber(b, env)))
  }

  // ---------------------------------------------------------------------------
  // Dates

  /** The largest time value a `Date` can hold, in milliseconds. */
  const MaxTimeMs: int := 8_640_000_000_000_000

  /** `new Date(x)` for a number `x` (TimeClip). */
  function DateFromTime(x: JsNumber): (d: Instant)
    ensures d.Valid? <==> x.Finite? && -(MaxTimeMs as real) <= x.r <= MaxTimeMs as real
    ensures d.Valid? ==> -MaxTimeMs <= d.ms <= MaxTimeMs
  {
    if x.Finite? && -(MaxTimeMs as real) <= x.r <= MaxTimeMs as real then Valid(Trunc(x.r)) else Invalid
  }

  /** `d.getTime()`. */
  function TimeValue(d: Instant): JsNumber
  {
    if d.Valid? then Finite(d.ms as real) else NaN
  }

  /** `new Date(v)`: text is parsed, anything else is converted to a number. */
  function NewDate(v: Value, env: Env): Instant
  {
    match v
    case Str(s) => env.parseDate(s)
    case Arr(_) => env.parseDate(ToJsString(v, env))
    case Obj(_) => env.parseDate(ToJsString(v, env))
    case _ => DateFromTime(ToNumber(v, env))
  }

  // ---------------------------------------------------------------------------
  // Array.prototype.filter

  function Filter<T>(xs: seq<T>, keep: T -> bool): (r: seq<T>)
    ensures |r| <= |xs|
    ensures forall i :: 0 <= i < |r| ==> keep(r[i])
    ensures forall x :: x in r ==> x in xs
    ensures forall x :: x in xs && keep(x) ==> x in r
  {
    if xs == [] then []
    else if keep(xs[0]) then [xs[0]] + Filter(xs[1..], keep)
    else Filter(xs[1..], keep)
  }

  /** `xs.map(f)`. */
  function MapSeq<A, B>(xs: seq<A>, f: A -> B): (r: seq<B>)
    ensures |r| == |xs|
    ensures forall i :: 0 <= i < |xs| ==> r[i] == f(xs[i])
  {
    seq(|xs|, i requires 0 <= i < |xs| => f(xs[i]))
  }

  /** Mapping distributes over concatenation. */
  lemma MapConcat<A, B>(xs: seq<A>, ys: seq<A>, f: A -> B)
    ensures MapSeq(xs + ys, f) == MapSeq(xs, f) + MapSeq(ys, f)
  {
    var l, r := MapSeq(xs, f), MapSeq(ys, f);
    forall i | 0 <= i < |xs| + |ys|
      ensures MapSeq(xs + ys, f)[i] == (l + r)[i]
    {
      if i < |xs| {
        assert (xs + ys)[i] == xs[i];
      } else {
        assert (xs + ys)[i] == ys[i - |xs|];
      }
    }
  }

  /** Filtering keeps the survivors in their original order. */
  lemma {:induction false} FilterConcat<T>(a: seq<T>, b: seq<T>, keep: T -> bool)
    ensures Filter(a + b, keep) == Filter(a, keep) + Filter(b, keep)
  {
    if a == [] {
      assert a + b == b;
    } else {
      assert (a + b)[0] == a[0];
      assert (a + b)[1..] == a[1..] + b;
      FilterConcat(a[1..], b, keep);
    }
  }

  /** Two tests that agree on every element select the same survivors. */
  lemma {:induction false} FilterAgree<T>(xs: seq<T>, p: T -> bool, q: T -> bool)
    requires forall i :: 0 <= i < |xs| ==> p(xs[i]) == q(xs[i])
    ensures Filter(xs, p) == Filter(xs, q)
  {
    if xs != [] {
      assert p(xs[0]) == q(xs[0]);
      FilterAgree(xs[1..], p, q);
    }
  }
}
