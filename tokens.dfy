/**
 * The one-time secrets embedded in confirmation buttons: randString in
 * internal/bot/bot.go and randomHex in main.go. The random source is an input.
 */
module Tokens {
  import opened Wrappers

  /** `n` consecutive characters starting at `first`. */
  function CharRange(first: char, n: nat): (s: string)
    requires first as int + n <= 0xD800
    ensures |s| == n && forall i :: 0 <= i < n ==> s[i] as int == first as int + i
  {
    seq(n, i requires 0 <= i < n => (first as int + i) as char)
  }

  predicate IsAlphanumeric(c: char) { 'a' <= c <= 'z' || 'A' <= c <= 'Z' || '0' <= c <= '9' }

  /** The alphabet randString draws from: a-z, A-Z, 0-9 (62 letters). */
  const Letters: string := CharRange('a', 26) + CharRange('A', 26) + CharRange('0', 10)

  lemma LettersAlphanumeric()
    ensures |Letters| == 62
    ensures forall i :: 0 <= i < |Letters| ==> IsAlphanumeric(Letters[i])
  {
  }

  /**
   * One draw of randString's loop: rand.Int's value in [0, 62), or a failed
   * draw, where the current time in nanoseconds picks the letter instead.
   */
  datatype Draw = Drawn(num: int) | DrawFailed(unixNano: int)

  /** What the environment guarantees of a draw: rand.Int stays below its bound, and the clock is past 1970. */
  predicate DrawInRange(d: Draw) {
    match d
    case Drawn(num) => 0 <= num < |Letters|
    case DrawFailed(nanos) => nanos >= 0
  }

  function LetterIndex(d: Draw): (k: nat)
    requires DrawInRange(d)
    ensures k < |Letters|
  {
    match d
    case Drawn(num) => num
    case DrawFailed(nanos) => nanos % |Letters|
  }

  /**
   * randString(n): `n` letters, the i-th chosen by the i-th draw.
   * `draw(i)` is what the random source yields at step i.
   */
  method RandString(n: nat, draw: nat -> Draw) returns (s: string)
    requires forall i :: 0 <= i < n ==> DrawInRange(draw(i))
    ensures |s| == n
    ensures forall i :: 0 <= i < n ==> s[i] == Letters[LetterIndex(draw(i))]
    ensures forall i :: 0 <= i < n ==> s[i] in Letters
    ensures ':' !in s
  {
    var res: seq<char> := [];
    for i := 0 to n
      invariant |res| == i
      invariant forall k :: 0 <= k < i ==> res[k] == Letters[LetterIndex(draw(k))]
    {
      match draw(i)
      case DrawFailed(nanos) =>
        res := res + [Letters[nanos % |Letters|]];
      case Drawn(num) =>
        res := res + [Letters[num]];
    }
    s := res;
    LettersAlphanumeric();
  }

  newtype Byte = x: int | 0 <= x < 256

  predicate IsLowerHex(c: char) { '0' <= c <= '9' || 'a' <= c <= 'f' }

  /** The lower-case hex digit for a nibble. */
  function HexDigit(v: nat): (c: char)
    requires v < 16
    ensures IsLowerHex(c)
  {
    if v < 10 then ('0' as int + v) as char else ('a' as int + v - 10) as char
  }

  /** hex.EncodeToString: two lower-case hex digits per byte, high nibble first. */
  function HexEncode(b: seq<Byte>): (s: string)
    ensures |s| == 2 * |b|
    ensures forall i :: 0 <= i < |s| ==> IsLowerHex(s[i])
    decreases |b|
  {
    if |b| == 0 then ""
    else [HexDigit(b[0] as int / 16), HexDigit(b[0] as int % 16)] + HexEncode(b[1..])
  }

  function HexValue(c: char): (v: Option<int>)
    ensures v.Some? <==> IsLowerHex(c)
    ensures v.Some? ==> 0 <= v.value < 16 && HexDigit(v.value) == c
  {
    if '0' <= c <= '9' then Some(c as int - '0' as int)
    else if 'a' <= c <= 'f' then Some(c as int - 'a' as int + 10)
    else None
  }

  /** hex.DecodeString restricted to lower-case digits: the inverse of HexEncode. */
  function HexDecode(s: string): (r: Option<seq<Byte>>)
    ensures r.Some? ==> 2 * |r.value| == |s|
    decreases |s|
  {
    if |s| == 0 then Some([])
    else if |s| == 1 then None
    else
      match (HexValue(s[0]), HexValue(s[1]), HexDecode(s[2..]))
      case (Some(hi), Some(lo), Some(rest)) => Some([(hi * 16 + lo) as Byte] + rest)
      case _ => None
  }

  lemma {:induction false} HexRoundTrip(b: seq<Byte>)
    ensures HexDecode(HexEncode(b)) == Some(b)
    decreases |b|
  {
    if |b| > 0 {
      var s := HexEncode(b);
      HexRoundTrip(b[1..]);
      assert s[2..] == HexEncode(b[1..]);
      var hi, lo := b[0] as int / 16, b[0] as int % 16;
      assert HexValue(HexDigit(hi)) == Some(hi);
      assert HexValue(HexDigit(lo)) == Some(lo);
      assert [b[0]] + b[1..] == b;
    }
  }

  /** randomHex(n): n random bytes, hex-encoded into 2n lower-case characters. */
  function RandomHex(n: nat, entropy: seq<Byte>): (token: string)
    requires |entropy| == n
    ensures |token| == 2 * n
    ensures forall i :: 0 <= i < |token| ==> IsLowerHex(token[i])
    ensures ':' !in token
    ensures HexDecode(token) == Some(entropy)
  {
    HexRoundTrip(entropy);
    HexEncode(entropy)
  }
}
