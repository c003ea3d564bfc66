/** The parts of JavaScript's string and number semantics the client relies
    on: `String.prototype.trim`, string length and `charCodeAt` in UTF-16
    code units, the `ToInt32` conversion behind the shift operators, and the
    decimal text a template literal gives a non-negative integer. */
module Js {
  import opened Types

  /** The characters `trim` removes: WhiteSpace and LineTerminator of the
      ECMAScript Language Specification (sections 12.2 and 12.3), where
      WhiteSpace takes in every character of Unicode category Zs. */
  predicate IsWhitespace(c: char) {
    || c == '\t' || c == '\U{000B}' || c == '\U{000C}' || c == ' '
    || c == '\U{00A0}' || c == '\U{FEFF}' || c == '\U{1680}'
    || ('\U{2000}' <= c <= '\U{200A}')
    || c == '\U{202F}' || c == '\U{205F}' || c == '\U{3000}'
    || c == '\n' || c == '\r' || c == '\U{2028}' || c == '\U{2029}'
  }

  predicate AllWhitespace(s: string) {
    forall i :: 0 <= i < |s| ==> IsWhitespace(s[i])
  }

  /** The number of whitespace characters `s` starts with. */
  function LeadingWhitespace(s: string): (n: nat)
    ensures n <= |s|
    ensures forall i :: 0 <= i < n ==> IsWhitespace(s[i])
    ensures n < |s| ==> !IsWhitespace(s[n])
  {
    if s != [] && IsWhitespace(s[0]) then 1 + LeadingWhitespace(s[1..]) else 0
  }

  /** The index where the whitespace `s` ends with begins. */
  function TrailingWhitespaceStart(s: string): (m: nat)
    ensures m <= |s|
    ensures forall i :: m <= i < |s| ==> IsWhitespace(s[i])
    ensures 0 < m ==> !IsWhitespace(s[m - 1])
  {
    if s != [] && IsWhitespace(s[|s| - 1]) then TrailingWhitespaceStart(s[..|s| - 1]) else |s|
  }

  /** `s.trimStart()` */
  function TrimStart(s: string): string {
    s[LeadingWhitespace(s)..]
  }

  /** `s.trimEnd()` */
  function TrimEnd(s: string): string {
    s[..TrailingWhitespaceStart(s)]
  }

  /** `s.trim()`: the infix of `s` that neither starts nor ends with
      whitespace, everything before and after it being whitespace. It is
      empty exactly when `s` is all whitespace (the empty string included). */
  function Trim(s: string): (r: string)
    ensures var k := LeadingWhitespace(s);
            && k + |r| <= |s| && r == s[k..k + |r|]
            && forall i :: 0 <= i < k || k + |r| <= i < |s| ==> IsWhitespace(s[i])
    ensures r != [] ==> !IsWhitespace(r[0]) && !IsWhitespace(r[|r| - 1])
    ensures r == [] <==> AllWhitespace(s)
  {
    var k := LeadingWhitespace(s);
    var t := s[k..];
    var m := TrailingWhitespaceStart(t);
    assert forall i :: k + m <= i < |s| ==> s[i] == t[i - k];
    assert m > 0 ==> s[k + m - 1] == t[m - 1];
    TrimEnd(TrimStart(s))
  }

  /** Trimming twice is trimming once. */
  lemma TrimIdempotent(s: string)
    ensures Trim(Trim(s)) == Trim(s)
  {
  }

  // ---------------------------------------------------------------------
  // UTF-16

  /** The UTF-16 code units of one character: itself below U+10000,
      otherwise a high and a low surrogate. */
  function CharUnits(c: char): (u: seq<int>)
    ensures 1 <= |u| <= 2
    ensures forall i :: 0 <= i < |u| ==> 0 <= u[i] < 0x1_0000
    ensures |u| == 1 <==> (c as int) < 0x1_0000
  {
    var n := c as int;
    if n < 0x1_0000 then [n]
    else [0xD800 + (n - 0x1_0000) / 0x400, 0xDC00 + (n - 0x1_0000) % 0x400]
  }

  /** The code units of a string, which `length` counts and `charCodeAt`
      indexes. */
  function CodeUnits(s: string): (u: seq<int>)
    ensures |s| <= |u| <= 2 * |s|
    ensures forall i :: 0 <= i < |u| ==> 0 <= u[i] < 0x1_0000
  {
    if s == [] then [] else CharUnits(s[0]) + CodeUnits(s[1..])
  }

  /** `s.length` */
  function Length(s: string): nat {
    |CodeUnits(s)|
  }

  predicate IsHighSurrogate(u: int) { 0xD800 <= u < 0xDC00 }
  predicate IsLowSurrogate(u: int) { 0xDC00 <= u < 0xE000 }

  /** The character a surrogate pair stands for. */
  function CombineSurrogates(hi: int, lo: int): (c: char)
    requires IsHighSurrogate(hi) && IsLowSurrogate(lo)
    ensures 0x1_0000 <= c as int
  {
    SurrogateRange(hi - 0xD800, lo - 0xDC00);
    (0x1_0000 + (hi - 0xD800) * 0x400 + (lo - 0xDC00)) as char
  }

  lemma SurrogateRange(a: int, b: int)
    requires 0 <= a < 0x400 && 0 <= b < 0x400
    ensures 0 <= a * 0x400 + b < 0x10_0000
  {
  }

  /** Decoding UTF-16: None when the units hold a lone surrogate or a value
      outside 0..0xFFFF. */
  function DecodeUnits(u: seq<int>): (r: Option<string>)
    decreases |u|
  {
    if u == [] then Some([])
    else if IsHighSurrogate(u[0]) then
      if |u| >= 2 && IsLowSurrogate(u[1]) then
        match DecodeUnits(u[2..])
        case Some(rest) => Some([CombineSurrogates(u[0], u[1])] + rest)
        case None => None
      else None
    else if IsLowSurrogate(u[0]) || u[0] < 0 || 0x1_0000 <= u[0] then None
    else
      match DecodeUnits(u[1..])
      case Some(rest) => Some([u[0] as char] + rest)
      case None => None
  }

  lemma CharUnitsDecode(c: char, rest: seq<int>)
    ensures CharUnits(c) + rest != []
    ensures DecodeUnits(CharUnits(c) + rest) ==
              match DecodeUnits(rest)
              case Some(t) => Some([c] + t)
              case None => None
  {
  }

  /** Encoding to UTF-16 loses nothing: decoding the units gives the string
      back. */
  lemma {:induction false} CodeUnitsRoundTrip(s: string)
    ensures DecodeUnits(CodeUnits(s)) == Some(s)
  {
    if s != [] {
      CodeUnitsRoundTrip(s[1..]);
      CharUnitsDecode(s[0], CodeUnits(s[1..]));
      assert [s[0]] + s[1..] == s;
    }
  }

  /** The length in code units is the number of characters exactly when
      every character lies below U+10000. */
  lemma {:induction false} LengthOfBasicPlane(s: string)
    ensures Length(s) == |s| <==> forall i :: 0 <= i < |s| ==> (s[i] as int) < 0x1_0000
  {
    if s != [] {
      LengthOfBasicPlane(s[1..]);
      assert forall i :: 1 <= i < |s| ==> s[i] == s[1..][i - 1];
    }
  }

  // ---------------------------------------------------------------------
  // Numbers

  const TwoTo31: int := 0x8000_0000
  const TwoTo32: int := 0x1_0000_0000

  /** The ECMAScript ToInt32 conversion on an integral number: the value in
      [-2^31, 2^31) congruent to `x` modulo 2^32. */
  function ToInt32(x: int): (r: int)
    ensures -TwoTo31 <= r < TwoTo31
    ensures (x - r) % TwoTo32 == 0
  {
    var m := x % TwoTo32;
    if m >= TwoTo31 then m - TwoTo32 else m
  }

  /** ToInt32 is the only value in the 32-bit range congruent to its input,
      so it leaves 32-bit values alone. */
  lemma ToInt32Unique(x: int, r: int)
    requires -TwoTo31 <= r < TwoTo31
    requires (x - r) % TwoTo32 == 0
    ensures ToInt32(x) == r
  {
  }

  /** `hash << 5` in JavaScript: ToInt32 of the operand, shifted within 32
      bits and read back as a signed 32-bit value. */
  function ShiftLeft5(x: int): (r: int)
    ensures -TwoTo31 <= r < TwoTo31
  {
    ToInt32(ToInt32(x) * 32)
  }

  /** The decimal digit character for 0..9. */
  function Digit(d: nat): char
    requires d < 10
  {
    ('0' as int + d) as char
  }

  predicate IsDigit(c: char) { '0' <= c <= '9' }

  /** The text a template literal gives a non-negative integer: its decimal
      digits, with no leading zero unless the number is zero. */
  function DecimalString(n: nat): (s: string)
    ensures s != []
    ensures forall i :: 0 <= i < |s| ==> IsDigit(s[i])
    ensures s[0] == '0' ==> n == 0
    ensures n < 10 <==> |s| == 1
  {
    if n < 10 then [Digit(n)] else DecimalString(n / 10) + [Digit(n % 10)]
  }

  /** The number a string of decimal digits denotes. */
  function DecimalValue(s: string): nat
    requires forall i :: 0 <= i < |s| ==> IsDigit(s[i])
  {
    if s == [] then 0
    else
      assert IsDigit(s[|s| - 1]);
      10 * DecimalValue(s[..|s| - 1]) + (s[|s| - 1] as int - '0' as int)
  }

  /** Reading the decimal text back gives the number. */
  lemma {:induction false} DecimalRoundTrip(n: nat)
    ensures DecimalValue(DecimalString(n)) == n
  {
    if n >= 10 {
      var s := DecimalString(n);
      DecimalRoundTrip(n / 10);
      assert s[..|s| - 1] == DecimalString(n / 10);
    }
  }

  /** Numbers below 10^k have at most k digits. */
  lemma {:induction false} DecimalLength(n: nat, k: nat)
    requires n < Pow10(k)
    ensures |DecimalString(n)| <= if k == 0 then 1 else k
  {
    if n >= 10 {
      assert k >= 2;
      DecimalLength(n / 10, k - 1);
    }
  }

  function Pow10(k: nat): (p: nat)
    ensures p >= 1
  {
    if k == 0 then 1 else 10 * Pow10(k - 1)
  }
}
