/** Decimal text: `%d` and `int(...)`, zero padding, and the string order of Python. */
module Numerals {
  import opened Outcomes

  predicate IsDigit(c: char) { '0' <= c <= '9' }

  function DigitChar(d: nat): (c: char)
    requires d < 10
    ensures IsDigit(c) && DigitValue(c) == d
  {
    (d + 48) as char
  }

  function DigitValue(c: char): (d: nat)
    requires IsDigit(c)
    ensures d < 10
  {
    c as int - 48
  }

  function PrintNat(n: nat): (s: string)
    ensures s != [] && forall i :: 0 <= i < |s| ==> IsDigit(s[i])
  {
    if n < 10 then [DigitChar(n)] else PrintNat(n / 10) + [DigitChar(n % 10)]
  }

  /** `%d` of a Go integer. */
  function PrintInt(n: int): string {
    if n < 0 then ['-'] + PrintNat(-n) else PrintNat(n)
  }

  function ParseNat(s: string): Option<nat> {
    if s == [] || !IsDigit(s[|s| - 1]) then None
    else
      var last := DigitValue(s[|s| - 1]);
      if |s| == 1 then Some(last)
      else
        var high :- ParseNat(s[..|s| - 1]);
        Some(10 * high + last)
  }

  /** `int(...)` of a plain decimal numeral with an optional sign. */
  function ParseInt(s: string): Option<int> {
    if s != [] && s[0] == '-' then
      var n :- ParseNat(s[1..]);
      Some(0 - n as int)
    else
      var n :- ParseNat(s);
      Some(n)
  }

  lemma {:induction false} ParsePrintedNat(n: nat)
    ensures ParseNat(PrintNat(n)) == Some(n)
  {
    if n >= 10 {
      ParsePrintedNat(n / 10);
      var s := PrintNat(n);
      assert s[..|s| - 1] == PrintNat(n / 10) && s[|s| - 1] == DigitChar(n % 10);
    }
  }

  /** A number written with `%d` into an environment variable is read back unchanged. */
  lemma ParsePrintedInt(n: int)
    ensures ParseInt(PrintInt(n)) == Some(n)
  {
    if n < 0 {
      ParsePrintedNat(-n);
      assert PrintInt(n)[1..] == PrintNat(-n);
    } else {
      ParsePrintedNat(n);
      assert PrintNat(n)[0] != '-';
    }
  }

  /** The last `width` decimal digits of `n`, zero padded. */
  function Pad(n: nat, width: nat): (s: string)
    ensures |s| == width && forall i :: 0 <= i < width ==> IsDigit(s[i])
  {
    if width == 0 then [] else Pad(n / 10, width - 1) + [DigitChar(n % 10)]
  }

  /** Python's order on strings. */
  predicate LexLess(s: string, t: string) {
    t != [] && (s == [] || s[0] < t[0] || (s[0] == t[0] && LexLess(s[1..], t[1..])))
  }

  /** Equally wide padded numbers decide the order; if they are equal the rest decides. */
  lemma {:induction false} PaddedOrder(a: nat, b: nat, width: nat, x: string, y: string)
    requires Fits(a, width) && Fits(b, width)
    ensures LexLess(Pad(a, width) + x, Pad(b, width) + y) <==> a < b || (a == b && LexLess(x, y))
  {
    if width == 0 {
      assert Pad(a, 0) + x == x && Pad(b, 0) + y == y;
    } else {
      var da, db := DigitChar(a % 10), DigitChar(b % 10);
      assert Pad(a, width) + x == Pad(a / 10, width - 1) + ([da] + x);
      assert Pad(b, width) + y == Pad(b / 10, width - 1) + ([db] + y);
      PaddedOrder(a / 10, b / 10, width - 1, [da] + x, [db] + y);
      assert ([da] + x)[1..] == x && ([db] + y)[1..] == y;
    }
  }

  predicate Fits(n: nat, width: nat) {
    if width == 0 then n == 0 else Fits(n / 10, width - 1)
  }
}
