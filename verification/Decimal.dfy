/** Decimal text of natural numbers: plain, padded with zeros, and read back. */
module Decimal {
  function DigitChar(d: int): char
    requires 0 <= d < 10
  {
    ('0' as int + d) as char
  }

  predicate IsDigit(c: char) { '0' <= c <= '9' }

  predicate AllDigits(s: string) { forall i :: 0 <= i < |s| ==> IsDigit(s[i]) }

  /** Shortest decimal text. */
  function Digits(n: nat): string {
    if n < 10 then [DigitChar(n)] else Digits(n / 10) + [DigitChar(n % 10)]
  }

  function Value(s: string): nat
    requires AllDigits(s)
  {
    if s == [] then 0 else 10 * Value(s[..|s| - 1]) + (s[|s| - 1] as int - '0' as int)
  }

  function Zeros(n: nat): (r: string)
    ensures |r| == n
  {
    seq(n, _ => '0')
  }

  /** `{n:0w}` of a formatter. */
  function Pad(n: nat, w: nat): string {
    var d := Digits(n);
    if |d| < w then Zeros(w - |d|) + d else d
  }

  /** Exactly the low `w` decimal digits. */
  function Fixed(n: nat, w: nat): (r: string)
    ensures |r| == w
  {
    if w == 0 then [] else Fixed(n / 10, w - 1) + [DigitChar(n % 10)]
  }

  function Pow10(w: nat): nat { if w == 0 then 1 else 10 * Pow10(w - 1) }

  /** Units come last. */
  lemma DigitsEndInUnits(n: nat)
    ensures var d := Digits(n);
      d != [] && d[|d| - 1] as int == 48 + n % 10 && (n >= 10 ==> d[..|d| - 1] == Digits(n / 10))
        && (n < 10 ==> |d| == 1)
  {
  }

  lemma {:induction false} ValueOfDigits(n: nat)
    ensures AllDigits(Digits(n)) && |Digits(n)| > 0 && Value(Digits(n)) == n
  {
    if n >= 10 {
      ValueOfDigits(n / 10);
      assert Digits(n)[..|Digits(n)| - 1] == Digits(n / 10);
    }
  }

  lemma {:induction false} ValueOfFixed(n: nat, w: nat)
    requires n < Pow10(w)
    ensures AllDigits(Fixed(n, w)) && Value(Fixed(n, w)) == n
  {
    if w > 0 {
      ValueOfFixed(n / 10, w - 1);
      assert Fixed(n, w)[..w - 1] == Fixed(n / 10, w - 1);
    }
  }

  lemma {:induction false} FixedZero(w: nat)
    ensures Fixed(0, w) == Zeros(w)
  {
    if w > 0 {
      FixedZero(w - 1);
    }
  }

  /** A number that fits its width is padded to exactly that width. */
  lemma {:induction false} PadIsFixed(n: nat, w: nat)
    requires w > 0 && n < Pow10(w)
    ensures Pad(n, w) == Fixed(n, w)
  {
    if n < 10 {
      FixedZero(w - 1);
    } else {
      assert w > 1;
      PadIsFixed(n / 10, w - 1);
      assert Pad(n, w) == Pad(n / 10, w - 1) + [DigitChar(n % 10)];
    }
  }

  /** A number that does not fit its width is longer than it. */
  lemma {:induction false} DigitsOverflow(n: nat, w: nat)
    requires n >= Pow10(w)
    ensures |Digits(n)| > w
  {
    if w > 0 {
      assert n >= 10 by {
        Pow10Positive(w - 1);
      }
      DigitsOverflow(n / 10, w - 1);
    }
  }

  /** A number below a power of ten has no more digits than it. */
  lemma {:induction false} DigitsWithin(n: nat, w: nat)
    requires w > 0 && n < Pow10(w)
    ensures |Digits(n)| <= w
  {
    if n >= 10 {
      assert w > 1;
      DigitsWithin(n / 10, w - 1);
    }
  }

  lemma PadWithin(n: nat, w: nat, k: nat)
    requires 0 < k && n < Pow10(k) && w <= k
    ensures |Pad(n, w)| <= k
  {
    hide Pow10, Digits;
    DigitsWithin(n, k);
  }

  lemma {:induction false} Pow10Positive(w: nat)
    ensures Pow10(w) >= 1
  {
    if w > 0 {
      Pow10Positive(w - 1);
    }
  }

  // Text order

  predicate LexLess(a: string, b: string) {
    if b == [] then false
    else if a == [] then true
    else a[0] < b[0] || (a[0] == b[0] && LexLess(a[1..], b[1..]))
  }

  /** Texts that begin with equally long parts are ordered by those parts first. */
  lemma {:induction false} LexAppend(a: string, b: string, c: string, d: string)
    requires |a| == |b|
    ensures LexLess(a + c, b + d) <==> LexLess(a, b) || (a == b && LexLess(c, d))
  {
    if a == [] {
      assert a + c == c && b + d == d;
    } else {
      LexAppend(a[1..], b[1..], c, d);
      assert (a + c)[1..] == a[1..] + c && (b + d)[1..] == b[1..] + d;
      assert a == b <==> a[0] == b[0] && a[1..] == b[1..];
    }
  }

  /** Equally wide numbers are ordered as texts exactly as they are ordered as numbers. */
  lemma {:induction false} FixedOrder(m: nat, n: nat, w: nat)
    requires m < Pow10(w) && n < Pow10(w)
    ensures LexLess(Fixed(m, w), Fixed(n, w)) <==> m < n
    ensures Fixed(m, w) == Fixed(n, w) <==> m == n
  {
    ValueOfFixed(m, w);
    ValueOfFixed(n, w);
    if w > 0 {
      FixedOrder(m / 10, n / 10, w - 1);
      LexAppend(Fixed(m / 10, w - 1), Fixed(n / 10, w - 1), [DigitChar(m % 10)], [DigitChar(n % 10)]);
    }
  }
}
