/** Zero-padded identifiers, as Python's `f'ACC{n:05d}'` writes them: a prefix, then the
    decimal digits of n padded on the left with '0' up to the width (never cut). */
module Ids {

  function DigitChar(d: int): char
    requires 0 <= d <= 9
  {
    "0123456789"[d]
  }

  function DigitValue(c: char): int {
    if '0' <= c <= '9' then c as int - '0' as int else 0
  }

  /** The shortest decimal numeral of n ("0" for zero). */
  function Digits(n: nat): (s: string)
    decreases n
  {
    if n < 10 then [DigitChar(n)] else Digits(n / 10) + [DigitChar(n % 10)]
  }

  /** Left-pad s with '0' up to the given width, one zero at a time; a longer s is kept whole. */
  function ZeroPad(s: string, width: nat): string
    decreases width - |s|
  {
    if |s| >= width then s else ZeroPad(['0'] + s, width)
  }

  /** `f'{prefix}{n:0{width}d}'` */
  function FormatId(prefix: string, width: nat, n: nat): string {
    prefix + ZeroPad(Digits(n), width)
  }

  function Pow10(k: nat): (r: nat)
    ensures 1 <= r
  {
    if k == 0 then 1 else 10 * Pow10(k - 1)
  }

  /** The number a string of decimal digits denotes, leading zeros included. */
  function Decimal(s: string): nat {
    if s == [] then 0 else 10 * Decimal(s[..|s| - 1]) + DigitValue(s[|s| - 1])
  }

  lemma {:induction false} DecimalOfDigits(n: nat)
    ensures Decimal(Digits(n)) == n
    decreases n
  {
    if n >= 10 {
      DecimalOfDigits(n / 10);
      var s := Digits(n);
      assert s[..|s| - 1] == Digits(n / 10);
    }
  }

  /** A leading zero does not change the number a numeral denotes. */
  lemma {:induction false} DecimalIgnoresLeadingZero(s: string)
    ensures Decimal(['0'] + s) == Decimal(s)
    decreases |s|
  {
    var t := ['0'] + s;
    if s != [] {
      assert t[..|t| - 1] == ['0'] + s[..|s| - 1];
      DecimalIgnoresLeadingZero(s[..|s| - 1]);
    }
  }

  /** Padding keeps the number and makes the numeral exactly as long as the width, or
      leaves it as it was when it is longer already. */
  lemma {:induction false} ZeroPadSpec(s: string, width: nat)
    ensures Decimal(ZeroPad(s, width)) == Decimal(s)
    ensures |ZeroPad(s, width)| == if |s| >= width then |s| else width
    decreases width - |s|
  {
    if |s| < width {
      DecimalIgnoresLeadingZero(s);
      ZeroPadSpec(['0'] + s, width);
    }
  }

  /** The numeral of n fits in w digits exactly when n < 10^w. */
  lemma {:induction false} DigitsFit(n: nat, w: nat)
    requires 1 <= w
    ensures |Digits(n)| <= w <==> n < Pow10(w)
    decreases n
  {
    if n >= 10 {
      if w == 1 {
        assert Pow10(1) == 10;
      } else {
        DigitsFit(n / 10, w - 1);
        assert n / 10 < Pow10(w - 1) <==> n < Pow10(w);
      }
    } else {
      assert 10 <= Pow10(w) by { PowAtLeastTen(w); }
    }
  }

  lemma {:induction false} PowAtLeastTen(w: nat)
    requires 1 <= w
    ensures 10 <= Pow10(w)
  {
    if w > 1 {
      PowAtLeastTen(w - 1);
    }
  }

  /** Below 10^width, every identifier has the same length. */
  lemma FormatIdLength(prefix: string, width: nat, n: nat)
    requires 1 <= width && n < Pow10(width)
    ensures |FormatId(prefix, width, n)| == |prefix| + width
  {
    DigitsFit(n, width);
    ZeroPadSpec(Digits(n), width);
  }

  /** The numeric part of an identifier reads back as its number. */
  lemma FormatIdDecimal(prefix: string, width: nat, n: nat)
    ensures FormatId(prefix, width, n)[..|prefix|] == prefix
    ensures Decimal(FormatId(prefix, width, n)[|prefix|..]) == n
  {
    var s := Digits(n);
    var id := FormatId(prefix, width, n);
    assert id[|prefix|..] == ZeroPad(s, width);
    DecimalOfDigits(n);
    ZeroPadSpec(s, width);
  }

  /** Distinct numbers give distinct identifiers (at any width). */
  lemma FormatIdInjective(prefix: string, width: nat, m: nat, n: nat)
    requires m != n
    ensures FormatId(prefix, width, m) != FormatId(prefix, width, n)
  {
    FormatIdDecimal(prefix, width, m);
    FormatIdDecimal(prefix, width, n);
  }
}
