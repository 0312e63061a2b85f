/**
 * Decimal formatting (fmt's %d) and parsing (strconv.ParseInt(s, 10, 64),
 * strconv.Atoi on a 64-bit platform) of Go int64 values, and the
 * "<a>:<b>" keys the bot builds with fmt.Sprintf("%d:%d", a, b).
 */
module Decimal {
  import opened Wrappers
  import Text

  const Int64Min: int := -0x8000_0000_0000_0000
  const Int64Max: int := 0x7FFF_FFFF_FFFF_FFFF
  const Uint64Max: int := 0xFFFF_FFFF_FFFF_FFFF

  predicate IsInt64(n: int) { Int64Min <= n <= Int64Max }

  predicate IsDigit(c: char) { '0' <= c <= '9' }

  predicate AllDigits(s: string) { forall i :: 0 <= i < |s| ==> IsDigit(s[i]) }

  function DigitChar(d: nat): (c: char)
    requires d < 10
    ensures IsDigit(c) && c as int - '0' as int == d
  {
    ('0' as int + d) as char
  }

  /** The decimal digits of `n`, without leading zeros. */
  function FormatNat(n: nat): (s: string)
    ensures |s| >= 1 && AllDigits(s)
    decreases n
  {
    if n < 10 then [DigitChar(n)] else FormatNat(n / 10) + [DigitChar(n % 10)]
  }

  /** fmt's %d: an optional minus sign and the digits of the magnitude. */
  function FormatInt(n: int): (s: string)
    ensures |s| >= 1 && ':' !in s
    ensures n >= 0 <==> IsDigit(s[0])
  {
    if n < 0 then "-" + FormatNat(-n) else FormatNat(n)
  }

  /** The value of a string of decimal digits. */
  function DigitsValue(s: string): nat
    requires AllDigits(s)
    decreases |s|
  {
    if |s| == 0 then 0 else DigitsValue(s[..|s| - 1]) * 10 + (s[|s| - 1] as int - '0' as int)
  }

  /** The length of the run of digits at the front of `s`. */
  function DigitRun(s: string): (k: nat)
    ensures k <= |s| && AllDigits(s[..k])
    ensures k < |s| ==> !IsDigit(s[k])
    decreases |s|
  {
    if |s| == 0 || !IsDigit(s[0]) then 0
    else
      var k := 1 + DigitRun(s[1..]);
      assert s[..k] == [s[0]] + s[1..][..k - 1];
      k
  }

  datatype NumError = ErrSyntax | ErrRange

  /** What strconv returns: a value and possibly an error. */
  datatype Parsed = Parsed(value: int, err: Option<NumError>)

  /**
   * strconv.ParseUint(s, 10, 64). The digits are scanned left to right and
   * the first problem met wins: a non-digit is a syntax error (value 0), a
   * digit that takes the value past 2^64-1 is a range error (value 2^64-1).
   */
  function ParseUint(s: string): (r: Parsed)
    ensures r.err.None? ==> AllDigits(s) && |s| > 0 && r.value == DigitsValue(s) <= Uint64Max
    ensures r.err == Some(ErrSyntax) ==> r.value == 0
    ensures r.err == Some(ErrRange) ==> r.value == Uint64Max
  {
    if |s| == 0 then Parsed(0, Some(ErrSyntax))
    else
      var k := DigitRun(s);
      if DigitsValue(s[..k]) > Uint64Max then Parsed(Uint64Max, Some(ErrRange))
      else if k < |s| then Parsed(0, Some(ErrSyntax))
      else assert s[..k] == s; Parsed(DigitsValue(s), None)
  }

  /**
   * strconv.ParseInt(s, 10, 64): an optional '+' or '-', then digits.
   * A syntax error gives 0; a value outside int64 is clamped to the nearest
   * bound and reported as a range error.
   */
  function ParseInt(s: string): (r: Parsed)
    ensures IsInt64(r.value)
    ensures r.err == Some(ErrSyntax) ==> r.value == 0
    ensures r.err.None? ==> |s| > 0
  {
    if |s| == 0 then Parsed(0, Some(ErrSyntax))
    else
      var neg := s[0] == '-';
      var body := if s[0] == '+' || s[0] == '-' then s[1..] else s;
      var u := ParseUint(body);
      if u.err == Some(ErrSyntax) then Parsed(0, Some(ErrSyntax))
      else if !neg && u.value > Int64Max then Parsed(Int64Max, Some(ErrRange))
      else if neg && u.value > -Int64Min then Parsed(Int64Min, Some(ErrRange))
      else Parsed(if neg then -u.value else u.value, None)
  }

  lemma {:induction false} DigitsValueFormat(n: nat)
    ensures DigitsValue(FormatNat(n)) == n
    decreases n
  {
    var s := FormatNat(n);
    if n >= 10 {
      DigitsValueFormat(n / 10);
      assert s[..|s| - 1] == FormatNat(n / 10);
    }
  }

  lemma DigitRunAll(s: string)
    requires AllDigits(s)
    ensures DigitRun(s) == |s|
  {
  }

  /** Parsing what %d printed recovers every int64 value without error. */
  lemma ParseFormat(n: int)
    requires IsInt64(n)
    ensures ParseInt(FormatInt(n)) == Parsed(n, None)
  {
    var m: nat := if n < 0 then -n else n;
    var digits := FormatNat(m);
    DigitsValueFormat(m);
    DigitRunAll(digits);
    assert digits[..|digits|] == digits;
    if n < 0 {
      assert FormatInt(n)[1..] == digits;
    }
  }

  /** The key fmt.Sprintf("%d:%d", a, b) used for per-pair tables. */
  function PairKey(a: int, b: int): (k: string)
    ensures Text.Split(k, ':') == [FormatInt(a), FormatInt(b)]
  {
    var k := FormatInt(a) + ":" + FormatInt(b);
    Text.SplitJoin([FormatInt(a), FormatInt(b)], ':');
    assert Text.Join([FormatInt(a), FormatInt(b)], ':') == k;
    k
  }

  /** Distinct int64 pairs never share a key. */
  lemma PairKeyInjective(a: int, b: int, c: int, d: int)
    requires IsInt64(a) && IsInt64(b) && IsInt64(c) && IsInt64(d)
    requires PairKey(a, b) == PairKey(c, d)
    ensures a == c && b == d
  {
    ParseFormat(a);
    ParseFormat(b);
    ParseFormat(c);
    ParseFormat(d);
    assert Text.Split(PairKey(a, b), ':') == Text.Split(PairKey(c, d), ':');
  }
}
