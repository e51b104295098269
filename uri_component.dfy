/**
 * `encodeURIComponent` (section 19.2.6.5 of ECMA-262) and, as its partner,
 * `decodeURIComponent` (section 19.2.6.2): a character outside the unreserved set is
 * written as the UTF-8 bytes of its code point, each as `%` and two upper-case hex digits.
 * A Dafny `char` is a Unicode scalar value, so the lone surrogates on which
 * `encodeURIComponent` throws a URIError cannot occur here.
 */
module UriComponent {
  import opened JsValues

  /** The characters `encodeURIComponent` leaves alone. */
  predicate Unreserved(c: char)
  {
    ('A' <= c <= 'Z') || ('a' <= c <= 'z') || ('0' <= c <= '9')
    || c == '-' || c == '_' || c == '.' || c == '!' || c == '~' || c == '*'
    || c == '\'' || c == '(' || c == ')'
  }

  /** An upper-case hexadecimal digit. */
  function HexDigit(d: int): (c: char)
    requires 0 <= d < 16
    ensures Unreserved(c)
  {
    if d < 10 then ('0' as int + d) as char else ('A' as int + d - 10) as char
  }

  /** The value of a hexadecimal digit in either case. */
  function HexValue(c: char): (v: Option<int>)
    ensures v.Some? ==> 0 <= v.value < 16
  {
    if '0' <= c <= '9' then Some(c as int - '0' as int)
    else if 'A' <= c <= 'F' then Some(c as int - 'A' as int + 10)
    else if 'a' <= c <= 'f' then Some(c as int - 'a' as int + 10)
    else None
  }

  /** One byte as `%XY`. */
  function EscapeByte(b: int): string
    requires 0 <= b < 256
  {
    ['%', HexDigit(b / 16), HexDigit(b % 16)]
  }

  predicate IsByte(b: int)
  {
    0 <= b < 256
  }

  function EscapeBytes(bs: seq<int>): (s: string)
    requires forall i :: 0 <= i < |bs| ==> IsByte(bs[i])
    ensures |s| == 3 * |bs|
    ensures forall i :: 0 <= i < |s| ==> Unreserved(s[i]) || s[i] == '%'
  {
    if bs == [] then []
    else
      assert IsByte(bs[0]);
      EscapeByte(bs[0]) + EscapeBytes(bs[1..])
  }

  /** A UTF-8 continuation byte, `10xxxxxx`. */
  predicate IsContinuation(b: int)
  {
    0x80 <= b < 0xC0
  }

  /** The UTF-8 encoding of a code point. */
  function Utf8(c: char): (bs: seq<int>)
    ensures 1 <= |bs| <= 4
    ensures forall i :: 0 <= i < |bs| ==> IsByte(bs[i])
    ensures forall i :: 1 <= i < |bs| ==> IsContinuation(bs[i])
  {
    var n := c as int;
    if n < 0x80 then [n]
    else if n < 0x800 then [0xC0 + n / 64, 0x80 + n % 64]
    else if n < 0x10000 then [0xE0 + n / 4096, 0x80 + (n / 64) % 64, 0x80 + n % 64]
    else [0xF0 + n / 262144, 0x80 + (n / 4096) % 64, 0x80 + (n / 64) % 64, 0x80 + n % 64]
  }

  function EncodeChar(c: char): (s: string)
    ensures forall i :: 0 <= i < |s| ==> Unreserved(s[i]) || s[i] == '%'
  {
    if Unreserved(c) then [c] else EscapeBytes(Utf8(c))
  }

  /** `encodeURIComponent(s)`. */
  function EncodeURIComponent(s: string): (r: string)
    ensures forall i :: 0 <= i < |r| ==> Unreserved(r[i]) || r[i] == '%'
    ensures (forall i :: 0 <= i < |s| ==> Unreserved(s[i])) ==> r == s
  {
    if s == [] then [] else EncodeChar(s[0]) + EncodeURIComponent(s[1..])
  }

  // ---------------------------------------------------------------------------
  // decodeURIComponent

  /** The byte written by a leading `%XY`, if `s` starts with one. */
  function ReadEscape(s: string): (b: Option<int>)
    ensures b.Some? ==> |s| >= 3 && s[0] == '%' && IsByte(b.value)
  {
    if |s| >= 3 && s[0] == '%' && HexValue(s[1]).Some? && HexValue(s[2]).Some? then
      Some(HexValue(s[1]).value * 16 + HexValue(s[2]).value)
    else None
  }

  /** The length of the UTF-8 sequence a lead byte announces; 0 when it is no lead byte. */
  function Utf8Length(b: int): nat
  {
    if 0xC0 <= b < 0xE0 then 2
    else if 0xE0 <= b < 0xF0 then 3
    else if 0xF0 <= b < 0xF8 then 4
    else 0
  }

  /** Reads `k` escaped continuation bytes from the front of `s`. */
  function ReadContinuations(s: string, k: nat): (r: Option<seq<int>>)
    ensures r.Some? ==> |r.value| == k && |s| >= 3 * k
    ensures r.Some? ==> forall i :: 0 <= i < k ==> IsContinuation(r.value[i])
  {
    if k == 0 then Some([])
    else match ReadEscape(s)
      case None => None
      case Some(b) =>
        if !IsContinuation(b) then None
        else match ReadContinuations(s[3..], k - 1)
          case None => None
          case Some(rest) => Some([b] + rest)
  }

  /** Appends the payload bits of continuation bytes to `acc`. */
  function Accumulate(acc: int, conts: seq<int>): int
    decreases conts
  {
    if conts == [] then acc else Accumulate(acc * 64 + conts[0] - 0x80, conts[1..])
  }

  /** The payload bits of a lead byte of an `n`-byte sequence. */
  function LeadBits(b: int, n: nat): int
  {
    if n == 2 then b - 0xC0 else if n == 3 then b - 0xE0 else b - 0xF0
  }

  /** The smallest code point that needs an `n`-byte sequence (shorter forms are overlong). */
  function MinCodePoint(n: nat): int
  {
    if n == 2 then 0x80 else if n == 3 then 0x800 else 0x10000
  }

  predicate IsScalar(cp: int)
  {
    0 <= cp < 0xD800 || 0xE000 <= cp <= 0x10FFFF
  }

  function Prepend(c: char, r: Option<string>): Option<string>
  {
    match r
    case None => None
    case Some(t) => Some([c] + t)
  }

  /** `decodeURIComponent(s)`; `None` stands for the URIError it throws. */
  function DecodeURIComponent(s: string): Option<string>
    decreases |s|
  {
    if s == [] then Some([])
    else if s[0] != '%' then Prepend(s[0], DecodeURIComponent(s[1..]))
    else match ReadEscape(s)
      case None => None
      case Some(b) =>
        if b < 0x80 then Prepend(b as char, DecodeURIComponent(s[3..]))
        else
          var n := Utf8Length(b);
          if n == 0 then None
          else match ReadContinuations(s[3..], n - 1)
            case None => None
            case Some(conts) =>
              var cp := Accumulate(LeadBits(b, n), conts);
              if cp < MinCodePoint(n) || !IsScalar(cp) then None
              else Prepend(cp as char, DecodeURIComponent(s[3 * n..]))
  }

  // ---------------------------------------------------------------------------
  // The round trip

  lemma HexRoundTrip(d: int)
    requires 0 <= d < 16
    ensures HexValue(HexDigit(d)) == Some(d)
  {
  }

  lemma ReadEscapeByte(b: int, rest: string)
    requires IsByte(b)
    ensures ReadEscape(EscapeByte(b) + rest) == Some(b)
  {
    HexRoundTrip(b / 16);
    HexRoundTrip(b % 16);
  }

  lemma {:induction false} ReadContinuationsOfEscapes(bs: seq<int>, rest: string)
    requires forall i :: 0 <= i < |bs| ==> IsByte(bs[i]) && IsContinuation(bs[i])
    ensures ReadContinuations(EscapeBytes(bs) + rest, |bs|) == Some(bs)
  {
    if bs != [] {
      var s := EscapeBytes(bs) + rest;
      assert s == EscapeByte(bs[0]) + (EscapeBytes(bs[1..]) + rest);
      ReadEscapeByte(bs[0], EscapeBytes(bs[1..]) + rest);
      assert s[3..] == EscapeBytes(bs[1..]) + rest;
      ReadContinuationsOfEscapes(bs[1..], rest);
      assert [bs[0]] + bs[1..] == bs;
    }
  }

  /** The bytes of `Utf8(c)` carry exactly the bits of `c`. */
  lemma Utf8Bits(c: char)
    requires c as int >= 0x80
    ensures Utf8Length(Utf8(c)[0]) == |Utf8(c)|
    ensures Accumulate(LeadBits(Utf8(c)[0], |Utf8(c)|), Utf8(c)[1..]) == c as int
    ensures MinCodePoint(|Utf8(c)|) <= c as int
  {
    var n := c as int;
    var bs := Utf8(c);
    if n < 0x800 {
      assert bs[1..] == [0x80 + n % 64];
      TwoByteBits(n);
    } else if n < 0x10000 {
      assert bs[1..] == [0x80 + (n / 64) % 64, 0x80 + n % 64];
      ThreeByteTail(n);
    } else {
      assert bs[1..] == [0x80 + (n / 4096) % 64, 0x80 + (n / 64) % 64, 0x80 + n % 64];
      FourByteBits(n);
    }
  }

  lemma TwoByteBits(n: int)
    requires 0x80 <= n < 0x800
    ensures Accumulate(n / 64, [0x80 + n % 64]) == n
  {
    assert [0x80 + n % 64][1..] == [];
  }

  lemma FourByteBits(n: int)
    requires 0x10000 <= n <= 0x10FFFF
    ensures Accumulate(n / 262144, [0x80 + (n / 4096) % 64, 0x80 + (n / 64) % 64, 0x80 + n % 64]) == n
  {
    var q := n / 4096;
    var tail := [0x80 + q % 64, 0x80 + (n / 64) % 64, 0x80 + n % 64];
    assert n / 262144 == q / 64 by { QuotientOfQuotient(n); }
    assert (q / 64) * 64 + q % 64 == q;
    assert tail[1..] == [0x80 + (n / 64) % 64, 0x80 + n % 64];
    assert Accumulate(q / 64, tail) == Accumulate(q, tail[1..]);
    ThreeByteTail(n);
  }

  /** Dividing by 4096 and then by 64 is dividing by 262144. */
  lemma QuotientOfQuotient(n: int)
    requires n >= 0
    ensures n / 262144 == (n / 4096) / 64
  {
    var q, s := n / 4096, n % 4096;
    var r, t := q / 64, q % 64;
    assert n == 262144 * r + (4096 * t + s);
    assert 0 <= 4096 * t + s < 262144;
  }

  lemma ThreeByteTail(n: int)
    requires n >= 0
    ensures Accumulate(n / 4096, [0x80 + (n / 64) % 64, 0x80 + n % 64]) == n
  {
    var tail := [0x80 + (n / 64) % 64, 0x80 + n % 64];
    assert (n / 4096) * 64 + (n / 64) % 64 == n / 64;
    assert tail[1..] == [0x80 + n % 64];
    assert Accumulate(n / 4096, tail) == Accumulate(n / 64, tail[1..]);
    assert [0x80 + n % 64][1..] == [];
  }

  /** Decoding undoes the encoding of one character, whatever follows it. */
  lemma DecodeEncodeChar(c: char, rest: string)
    ensures DecodeURIComponent(EncodeChar(c) + rest) == Prepend(c, DecodeURIComponent(rest))
  {
    var s := EncodeChar(c) + rest;
    if Unreserved(c) {
      assert s[0] == c && s[1..] == rest;
    } else if c as int < 0x80 {
      DecodeEscapedAscii(c, rest);
    } else {
      DecodeEscapedMultiByte(c, rest);
    }
  }

  lemma DecodeEscapedAscii(c: char, rest: string)
    requires c as int < 0x80
    ensures DecodeURIComponent(EscapeBytes(Utf8(c)) + rest) == Prepend(c, DecodeURIComponent(rest))
  {
    var s := EscapeBytes(Utf8(c)) + rest;
    assert s == EscapeByte(c as int) + rest;
    ReadEscapeByte(c as int, rest);
    assert s[3..] == rest;
  }

  lemma DecodeEscapedMultiByte(c: char, rest: string)
    requires c as int >= 0x80
    ensures DecodeURIComponent(EscapeBytes(Utf8(c)) + rest) == Prepend(c, DecodeURIComponent(rest))
  {
    var bs := Utf8(c);
    Utf8Bits(c);
    assert bs[0] >= 0x80 && IsScalar(c as int);
    DecodeEscapedSequence(bs, rest, c as int);
  }

  /** The escapes of a well-formed multi-byte sequence for `cp` decode to `cp`. */
  lemma DecodeEscapedSequence(bs: seq<int>, rest: string, cp: int)
    requires 2 <= |bs| && IsByte(bs[0]) && bs[0] >= 0x80 && Utf8Length(bs[0]) == |bs|
    requires forall i :: 1 <= i < |bs| ==> IsByte(bs[i]) && IsContinuation(bs[i])
    requires Accumulate(LeadBits(bs[0], |bs|), bs[1..]) == cp && MinCodePoint(|bs|) <= cp && IsScalar(cp)
    ensures DecodeURIComponent(EscapeBytes(bs) + rest) == Prepend(cp as char, DecodeURIComponent(rest))
  {
    var n := |bs|;
    var tail := EscapeBytes(bs[1..]) + rest;
    var s := EscapeBytes(bs) + rest;
    assert s == EscapeByte(bs[0]) + tail && s[3..] == tail && s[3 * n..] == rest;
    assert ReadEscape(s) == Some(bs[0]) by {
      ReadEscapeByte(bs[0], tail);
    }
    assert ReadContinuations(tail, n - 1) == Some(bs[1..]) by {
      ReadContinuationsOfEscapes(bs[1..], rest);
    }
    MultiByteStep(s, bs[0], n, bs[1..], cp);
  }

  /** One escaped multi-byte sequence that encodes the scalar `cp` decodes to it. */
  lemma MultiByteStep(s: string, b: int, n: nat, conts: seq<int>, cp: int)
    requires s != [] && s[0] == '%' && ReadEscape(s) == Some(b) && b >= 0x80
    requires Utf8Length(b) == n && n != 0 && ReadContinuations(s[3..], n - 1) == Some(conts)
    requires Accumulate(LeadBits(b, n), conts) == cp && MinCodePoint(n) <= cp && IsScalar(cp)
    ensures DecodeURIComponent(s) == Prepend(cp as char, DecodeURIComponent(s[3 * n..]))
  {
  }


  /** `decodeURIComponent(encodeURIComponent(s)) === s`. */
  lemma {:induction false} DecodeEncode(s: string)
    ensures DecodeURIComponent(EncodeURIComponent(s)) == Some(s)
  {
    if s != [] {
      DecodeEncodeChar(s[0], EncodeURIComponent(s[1..]));
      DecodeEncode(s[1..]);
      assert [s[0]] + s[1..] == s;
    }
  }
}
