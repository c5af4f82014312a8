/**
 * Decimal bitcoin amounts: the printer of amount.rs, and the plain reading of decimal numerals it is
 * proved against.
 */
module BtcDecimal {
  import opened Wrappers
  import opened Amounts
  import opened Digits
  import opened Text

  function Pow10(k: nat): (p: nat)
    ensures p > 0
  {
    if k == 0 then 1 else 10 * Pow10(k - 1)
  }

  /** `v` followed by `k` zeros: `v * 10^k`. */
  function Shifted(v: nat, k: nat): (r: nat)
    ensures v > 0 ==> r >= v
    ensures v == 0 ==> r == 0
  {
    if k == 0 then v else 10 * Shifted(v, k - 1)
  }

  predicate AllDigits(s: string) {
    forall i :: 0 <= i < |s| ==> IsDigit(s[i])
  }

  function Value(s: string): (v: nat)
    requires AllDigits(s)
  {
    if s == [] then 0 else 10 * Value(s[..|s| - 1]) + DigitValue(s[|s| - 1])
  }

  /** How Rust prints an unsigned integer. */
  function Decimal(n: nat): (s: string)
    ensures |s| > 0 && AllDigits(s)
  {
    if n < 10 then [Digit(n)] else Decimal(n / 10) + [Digit(n % 10)]
  }

  function Zeros(k: nat): (s: string)
    ensures |s| == k && AllDigits(s)
  {
    seq(k, _ => '0')
  }

  /** `{:0width$}`: padded with leading zeros up to `width`. */
  function ZeroPadded(n: nat, width: nat): (s: string)
    ensures AllDigits(s)
  {
    var s := Decimal(n);
    if |s| < width then Zeros(width - |s|) + s else s
  }

  /** The fraction digits: trailing zeros go, and the width with them. */
  function Trimmed(n: nat, width: nat): (s: string)
    requires n > 0
    ensures AllDigits(s)
    decreases n
  {
    if n % 10 == 0 && width > 0 then Trimmed(n / 10, width - 1) else ZeroPadded(n, width)
  }

  /** What `FormattedAmount` displays for a whole number of satoshis. */
  function Format(sats: nat): string {
    var fraction := sats % SATS_PER_BTC;
    Decimal(sats / SATS_PER_BTC) + (if fraction == 0 then [] else ['.'] + Trimmed(fraction, 8))
  }

  /**
   * The satoshis that a decimal numeral of bitcoin denotes: digits, optionally a point and one to
   * eight more digits.
   */
  function ReadDecimal(s: string): Option<nat> {
    var (whole, fraction) := SplitOnce(s, '.');
    if whole == [] || !AllDigits(whole) then None
    else match fraction
      case None => Some(Value(whole) * SATS_PER_BTC)
      case Some(f) =>
        if f == [] || |f| > 8 || !AllDigits(f) then None
        else Some(Value(whole) * SATS_PER_BTC + Shifted(Value(f), 8 - |f|))
  }

  /** No superfluous leading zero, and no fraction that ends in zero. */
  predicate Canonical(s: string) {
    var (whole, fraction) := SplitOnce(s, '.');
    (|whole| > 1 ==> whole[0] != '0') &&
    (fraction.Some? ==> fraction.value != [] && fraction.value[|fraction.value| - 1] != '0')
  }

  // ----- Digit strings and numbers

  lemma {:induction false} DecimalValue(n: nat)
    ensures Value(Decimal(n)) == n
  {
    var s := Decimal(n);
    if n < 10 {
      assert s[..0] == [];
    } else {
      DecimalValue(n / 10);
      assert s[..|s| - 1] == Decimal(n / 10);
    }
  }

  lemma {:induction false} ValueBound(s: string)
    requires AllDigits(s)
    ensures Value(s) < Pow10(|s|)
  {
    if s == [] {
    } else {
      ValueBound(s[..|s| - 1]);
    }
  }

  lemma {:induction false} LeadingZeros(k: nat, s: string)
    requires AllDigits(s)
    ensures AllDigits(Zeros(k) + s) && Value(Zeros(k) + s) == Value(s)
  {
    var z := Zeros(k) + s;
    if s != [] {
      LeadingZeros(k, s[..|s| - 1]);
      assert z[..|z| - 1] == Zeros(k) + s[..|s| - 1];
    } else if k > 0 {
      LeadingZeros(k - 1, []);
      assert z[..|z| - 1] == Zeros(k - 1) + [];
    }
  }

  /** `Decimal` is the shortest digit string of its value. */
  lemma {:induction false} DecimalShortest(s: string)
    requires AllDigits(s) && s != []
    ensures |Decimal(Value(s))| <= |s|
    ensures |s| == 1 || s[0] != '0' ==> Decimal(Value(s)) == s
  {
    var front := s[..|s| - 1];
    if |s| == 1 {
      assert front == [];
    } else {
      DecimalShortest(front);
      assert s == front + [s[|s| - 1]];
      if s[0] != '0' {
        LeadingDigitPositive(front);
      }
    }
  }

  lemma {:induction false} LeadingDigitPositive(s: string)
    requires AllDigits(s) && s != [] && s[0] != '0'
    ensures Value(s) > 0
  {
    if |s| > 1 {
      LeadingDigitPositive(s[..|s| - 1]);
    }
  }

  lemma {:induction false} DecimalWidth(n: nat, width: nat)
    requires n < Pow10(width) && width > 0
    ensures |Decimal(n)| <= width
  {
    if n >= 10 {
      assert width > 1 by {
        assert Pow10(1) == 10 * Pow10(0);
      }
      DecimalWidth(n / 10, width - 1);
    }
  }

  /** Padding to a width that is large enough gives exactly that width and keeps the value. */
  lemma ZeroPaddedValue(n: nat, width: nat)
    requires n < Pow10(width) && width > 0
    ensures |ZeroPadded(n, width)| == width && Value(ZeroPadded(n, width)) == n
  {
    DecimalWidth(n, width);
    DecimalValue(n);
    LeadingZeros(width - |Decimal(n)|, Decimal(n));
  }

  /** Equal-width digit strings with equal values are equal. */
  lemma {:induction false} FixedWidthInjective(a: string, b: string)
    requires AllDigits(a) && AllDigits(b) && |a| == |b| && Value(a) == Value(b)
    ensures a == b
  {
    if a == [] {
    } else {
      var n := |a| - 1;
      assert a[n] == Digit(DigitValue(a[n])) && b[n] == Digit(DigitValue(b[n]));
      FixedWidthInjective(a[..n], b[..n]);
      assert a == a[..n] + [a[n]] && b == b[..n] + [b[n]];
    }
  }

  // ----- The fraction

  lemma {:induction false} TrimmedReads(n: nat, width: nat)
    requires 0 < n < Pow10(width) && width > 0
    ensures var t := Trimmed(n, width);
      1 <= |t| <= width && Shifted(Value(t), width - |t|) == n && t[|t| - 1] != '0'
    decreases width
  {
    if n % 10 == 0 {
      assert width > 1 by {
        assert Pow10(1) == 10 * Pow10(0);
      }
      TrimmedReads(n / 10, width - 1);
    } else {
      ZeroPaddedValue(n, width);
      var t := ZeroPadded(n, width);
      assert Value(t) == 10 * Value(t[..|t| - 1]) + DigitValue(t[|t| - 1]);
    }
  }

  /** A fraction is never shorter than its trimmed form, and equal to it unless it ends in zero. */
  lemma {:induction false} TrimmedShortest(f: string, width: nat)
    requires f != [] && AllDigits(f) && |f| <= width
    requires Value(f) > 0
    ensures |Trimmed(Shifted(Value(f), width - |f|), width)| <= |f|
    ensures f[|f| - 1] != '0' ==> Trimmed(Shifted(Value(f), width - |f|), width) == f
    decreases width
  {
    var v := Value(f);
    if |f| == width {
      ValueBound(f);
      TrimmedReads(v, width);
      if f[|f| - 1] != '0' {
        assert v == 10 * Value(f[..|f| - 1]) + DigitValue(f[|f| - 1]);
        ZeroPaddedValue(v, width);
        FixedWidthInjective(f, ZeroPadded(v, width));
      }
    } else {
      TrimmedShortest(f, width - 1);
    }
  }

  lemma Pow10Of8()
    ensures Pow10(8) == SATS_PER_BTC
  {
    assert Pow10(2) == 100;
    assert Pow10(4) == 100 * Pow10(2);
    assert Pow10(6) == 100 * Pow10(4);
    assert Pow10(8) == 100 * Pow10(6);
  }

  // ----- Main results

  lemma FormatSplits(sats: nat)
    ensures SplitOnce(Format(sats), '.') ==
            (Decimal(sats / SATS_PER_BTC),
             if sats % SATS_PER_BTC == 0 then None else Some(Trimmed(sats % SATS_PER_BTC, 8)))
  {
    var whole := Decimal(sats / SATS_PER_BTC);
    if sats % SATS_PER_BTC == 0 {
      assert Format(sats) == whole;
      SplitOnceAbsent(whole, '.');
    } else {
      var fraction := Trimmed(sats % SATS_PER_BTC, 8);
      assert Format(sats) == whole + ['.'] + fraction;
      SplitOnceAt(whole, '.', fraction);
    }
  }

  /** Printing is exact and canonical. */
  lemma FormatExact(sats: nat)
    ensures ReadDecimal(Format(sats)) == Some(sats)
    ensures Canonical(Format(sats))
  {
    FormatSplits(sats);
    Pow10Of8();
    DecimalValue(sats / SATS_PER_BTC);
    DecimalLeadingDigit(sats / SATS_PER_BTC);
    var fraction := sats % SATS_PER_BTC;
    if fraction != 0 {
      TrimmedReads(fraction, 8);
    }
  }

  lemma {:induction false} DecimalLeadingDigit(n: nat)
    ensures |Decimal(n)| > 1 ==> Decimal(n)[0] != '0'
    ensures n > 0 ==> Decimal(n)[0] != '0'
  {
    if n >= 10 {
      DecimalLeadingDigit(n / 10);
    } else if n > 0 {
      assert DigitValue(Decimal(n)[0]) == n;
    }
  }

  lemma {:induction false} ShiftedBound(v: nat, k: nat, width: nat)
    requires v < Pow10(width)
    ensures Shifted(v, k) < Pow10(width + k)
  {
    if k == 0 {
    } else {
      ShiftedBound(v, k - 1, width);
    }
  }

  /** What a numeral denotes, taken apart into whole bitcoin and the fraction. */
  lemma ReadParts(s: string)
    requires ReadDecimal(s).Some?
    ensures var (whole, fraction) := SplitOnce(s, '.');
      var sats := ReadDecimal(s).value;
      sats / SATS_PER_BTC == Value(whole) &&
      sats % SATS_PER_BTC == match fraction case None => 0 case Some(f) => Shifted(Value(f), 8 - |f|)
  {
    var (_, fraction) := SplitOnce(s, '.');
    if fraction.Some? {
      Pow10Of8();
      ValueBound(fraction.value);
      ShiftedBound(Value(fraction.value), 8 - |fraction.value|, |fraction.value|);
    }
  }

  /** The fraction of a numeral is no shorter than the printed one, and equal to it if it does not end in zero. */
  lemma FractionShortest(f: string)
    requires f != [] && AllDigits(f) && |f| <= 8
    ensures Value(f) > 0 ==> |Trimmed(Shifted(Value(f), 8 - |f|), 8)| <= |f|
    ensures f[|f| - 1] != '0' ==> Value(f) > 0 && Trimmed(Shifted(Value(f), 8 - |f|), 8) == f
  {
    assert Value(f) == 10 * Value(f[..|f| - 1]) + DigitValue(f[|f| - 1]);
    if Value(f) > 0 {
      TrimmedShortest(f, 8);
    }
  }

  lemma CanonicalIsFormat(s: string)
    requires ReadDecimal(s).Some? && Canonical(s)
    ensures s == Format(ReadDecimal(s).value)
  {
    var (whole, fraction) := SplitOnce(s, '.');
    ReadParts(s);
    DecimalShortest(whole);
    if fraction.Some? {
      FractionShortest(fraction.value);
    }
  }

  /** Every numeral of the same amount is at least as long, and the canonical one is the printed one. */
  lemma FormatShortest(s: string)
    requires ReadDecimal(s).Some?
    ensures |Format(ReadDecimal(s).value)| <= |s|
    ensures Canonical(s) <==> s == Format(ReadDecimal(s).value)
  {
    var (whole, fraction) := SplitOnce(s, '.');
    ReadParts(s);
    DecimalShortest(whole);
    if fraction.Some? {
      FractionShortest(fraction.value);
    }
    if Canonical(s) {
      CanonicalIsFormat(s);
    } else {
      FormatExact(ReadDecimal(s).value);
    }
  }

  /** Only digits and at most one point: nothing that the URI grammar treats specially. */
  lemma FormatAlphabet(sats: nat)
    ensures forall c :: c in Format(sats) ==> IsDigit(c) || c == '.'
    ensures ToUpper(Format(sats)) == Format(sats)
  {
    FormatSplits(sats);
    assert forall i :: 0 <= i < |Format(sats)| ==> IsDigit(Format(sats)[i]) || Format(sats)[i] == '.';
  }

  /** `FormattedAmount::fmt`: writes the whole bitcoin, then trims the fraction in a loop. */
  method FormatAmount(amount: Amount) returns (f: string)
    requires amount.msats + 999 <= U64_MAX
    ensures f == Format(amount.SatsRoundingUp())
    ensures ReadDecimal(f) == Some((amount.msats + 999) / 1000)
    ensures ('.' in f) <==> amount.SatsRoundingUp() % SATS_PER_BTC != 0
    ensures Canonical(f)
  {
    var totalSats := amount.SatsRoundingUp();
    var btc := totalSats / SATS_PER_BTC;
    var sats := totalSats % SATS_PER_BTC;
    f := Decimal(btc);
    if sats != 0 {
      var digits := 8;
      Pow10Of8();
      while sats % 10 == 0
        invariant 1 <= digits <= 8 && 0 < sats < Pow10(digits)
        invariant Trimmed(sats, digits) == Trimmed(totalSats % SATS_PER_BTC, 8)
        decreases digits
      {
        if digits == 1 {
          assert Pow10(1) == 10 * Pow10(0);
        }
        digits := digits - 1;
        sats := sats / 10;
      }
      f := f + "." + ZeroPadded(sats, digits);
      assert f == Format(totalSats);
    }
    FormatExact(totalSats);
    FormatSplits(totalSats);
  }
}
