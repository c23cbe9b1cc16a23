/**
 * The JavaScript string operations the renderers use, with their edge
 * cases written out: `slice` with a negative end counts from the end,
 * `repeat` takes a count that is never negative here, `padStart` pads on
 * the left, and `String(n)` gives decimal digits. Lengths are counted in
 * characters.
 */
module JsText {

  function Max(a: int, b: int): int { if a >= b then a else b }
  function Min(a: int, b: int): int { if a <= b then a else b }

  /** Where `s.slice(0, end)` stops: a negative end counts back from the end. */
  function SliceEnd(len: nat, end: int): (r: nat)
    ensures r <= len
    ensures 0 <= end <= len ==> r == end
    ensures end > len ==> r == len
    ensures end < 0 ==> r == Max(0, len + end)
  {
    if end < 0 then Max(0, len + end) else Min(end, len)
  }

  /** `s.slice(0, end)`. */
  function SliceTo(s: string, end: int): (r: string)
    ensures |r| == SliceEnd(|s|, end)
    ensures r <= s
  {
    s[..SliceEnd(|s|, end)]
  }

  /** `s.slice(start)` for a start that is not negative. */
  function SliceFrom(s: string, start: nat): (r: string)
    ensures |r| == Max(0, |s| - start)
    ensures forall k :: 0 <= k < |r| ==> r[k] == s[start + k]
  {
    if start >= |s| then [] else s[start..]
  }

  /** `c.repeat(n)`. */
  function RepeatChar(c: char, n: nat): (r: string)
    ensures |r| == n
    ensures forall k :: 0 <= k < |r| ==> r[k] == c
  {
    if n == 0 then [] else [c] + RepeatChar(c, n - 1)
  }

  function Spaces(n: nat): (r: string)
    ensures |r| == n
    ensures forall k :: 0 <= k < |r| ==> r[k] == ' '
  {
    RepeatChar(' ', n)
  }

  /** `s.padStart(n, c)` with a one-character pad. */
  function PadStart(s: string, n: nat, c: char): (r: string)
    ensures |r| == Max(|s|, n)
    ensures forall k :: 0 <= k < |r| - |s| ==> r[k] == c
    ensures r[|r| - |s|..] == s
  {
    if |s| >= n then s else RepeatChar(c, n - |s|) + s
  }

  function DigitChar(d: nat): (r: char)
    requires d < 10
    ensures '0' <= r <= '9'
  {
    "0123456789"[d]
  }

  function DigitValue(c: char): nat
  {
    if '0' <= c <= '9' then (c as int - '0' as int) else 0
  }

  /** The decimal digits of `n`, most significant first, without leading zeros. */
  function NatToString(n: nat): (r: string)
    ensures 1 <= |r|
    ensures forall k :: 0 <= k < |r| ==> '0' <= r[k] <= '9'
    ensures |r| > 1 ==> r[0] != '0'
    decreases n
  {
    if n < 10 then [DigitChar(n)] else NatToString(n / 10) + [DigitChar(n % 10)]
  }

  /** The number a string of decimal digits denotes. */
  function ValueOf(s: string): nat
  {
    if s == [] then 0 else 10 * ValueOf(s[..|s| - 1]) + DigitValue(s[|s| - 1])
  }

  lemma DigitRoundTrip(d: nat)
    requires d < 10
    ensures DigitValue(DigitChar(d)) == d
  {
  }

  /** Reading the digits back gives the number. */
  lemma {:induction false} NatToStringRoundTrip(n: nat)
    ensures ValueOf(NatToString(n)) == n
    decreases n
  {
    var r := NatToString(n);
    if n < 10 {
      DigitRoundTrip(n);
      assert r[..0] == [];
    } else {
      NatToStringRoundTrip(n / 10);
      DigitRoundTrip(n % 10);
      assert r[..|r| - 1] == NatToString(n / 10);
    }
  }

  function Pow10(k: nat): (r: nat)
    ensures r >= 1
  {
    if k == 0 then 1 else 10 * Pow10(k - 1)
  }

  /** A number below 10^k has at most k digits. */
  lemma {:induction false} FewDigits(n: nat, k: nat)
    requires 1 <= k && n < Pow10(k)
    ensures |NatToString(n)| <= k
    decreases k
  {
    if n >= 10 {
      assert k > 1;
      assert n / 10 < Pow10(k - 1);
      FewDigits(n / 10, k - 1);
    }
  }

  /** A number of at least 10^k has more than k digits. */
  lemma {:induction false} ManyDigits(n: nat, k: nat)
    requires Pow10(k) <= n
    ensures |NatToString(n)| > k
    decreases k
  {
    if k > 0 {
      assert n >= 10;
      assert Pow10(k - 1) <= n / 10;
      ManyDigits(n / 10, k - 1);
    }
  }

  /**
   * `String(n)` for an integer: the decimal digits of its magnitude without
   * leading zeros, after a minus sign when it is negative.
   */
  function IntToString(n: int): (r: string)
    ensures 1 <= |r|
    ensures n >= 0 ==> ValueOf(r) == n && forall k :: 0 <= k < |r| ==> '0' <= r[k] <= '9'
    ensures n >= 0 && |r| > 1 ==> r[0] != '0'
    ensures n < 0 ==> |r| >= 2 && r[0] == '-' && ValueOf(r[1..]) == -n && forall k :: 1 <= k < |r| ==> '0' <= r[k] <= '9'
    ensures n < 0 && |r| > 2 ==> r[1] != '0'
  {
    if n >= 0 then
      NatToStringRoundTrip(n);
      NatToString(n)
    else
      NatToStringRoundTrip(-n);
      assert ("-" + NatToString(-n))[1..] == NatToString(-n);
      "-" + NatToString(-n)
  }

  /** Line numbers from -999 to 9999 take at most four characters. */
  lemma ShortNumber(n: int)
    requires -999 <= n < 10000
    ensures |IntToString(n)| <= 4
  {
    if n >= 0 {
      FewDigits(n, 4);
    } else {
      FewDigits(-n, 3);
    }
  }

  /** Line numbers from 10000 on, or from -1000 down, take five characters or more. */
  lemma LongNumber(n: int)
    requires n >= 10000 || n <= -1000
    ensures |IntToString(n)| >= 5
  {
    if n >= 0 {
      ManyDigits(n, 4);
    } else {
      ManyDigits(-n, 3);
    }
  }
}
