// The display formatters of POS/src/composables/useFormatters.js:
// `formatCurrency`, `formatQuantity` and `formatPercentage`, built on
// `Number.prototype.toFixed` and the trailing-zero strip
// `replace(/\.?0+$/, '')`.

module FormattersModel {
  import opened Common
  import Db = OfflineDbModel

  /** The argument of a formatter: `null`/`undefined`, a value
      `Number.parseFloat` turns into NaN, or a finite number. */
  datatype Amount = Absent | NotANumber | Number(x: real)

  predicate AllDigits(s: string)
  {
    forall i :: 0 <= i < |s| ==> Db.IsDigit(s[i])
  }

  predicate AllZeros(s: string)
  {
    forall i :: 0 <= i < |s| ==> s[i] == '0'
  }

  function ZeroString(k: nat): (z: string)
    ensures |z| == k && AllZeros(z)
  {
    seq(k, _ => '0')
  }

  // ----- Number.prototype.toFixed -----

  /** The integer `toFixed(d)` renders for a magnitude `m`: the one closest
      to `m * 10^d`, the larger on a tie. */
  function RoundScaled(m: real, d: nat): nat
    requires m >= 0.0
  {
    var n := (m * Pow10(d) as real + 0.5).Floor;
    if n < 0 then 0 else n
  }

  lemma RoundScaledNearest(m: real, d: nat)
    requires m >= 0.0
    ensures var n := RoundScaled(m, d);
      n as real - 0.5 <= m * Pow10(d) as real < n as real + 0.5
  {
  }

  /** The digits of `n`, left-padded with zeros to at least `d + 1`. */
  function Padded(n: nat, d: nat): (p: string)
    ensures |p| >= d + 1 && AllDigits(p)
  {
    var t := NatToString(n);
    if |t| < d + 1 then ZeroString(d + 1 - |t|) + t else t
  }

  function FixedDigits(x: real, d: nat): (p: string)
    ensures |p| >= d + 1 && AllDigits(p)
  {
    Padded(RoundScaled(AbsReal(x), d), d)
  }

  /** The digits before the point in `x.toFixed(d)`. */
  function FixedInt(x: real, d: nat): string
  {
    var p := FixedDigits(x, d);
    p[..|p| - d]
  }

  /** The `d` digits after the point in `x.toFixed(d)`. */
  function FixedFrac(x: real, d: nat): string
  {
    var p := FixedDigits(x, d);
    p[|p| - d..]
  }

  function Sign(x: real): string
  {
    if x < 0.0 then "-" else ""
  }

  /** `x.toFixed(d)` for a finite `x` below 10^21 in magnitude. */
  function ToFixed(x: real, d: nat): string
  {
    Sign(x) + FixedInt(x, d) + (if d == 0 then "" else "." + FixedFrac(x, d))
  }

  // ----- The strip /\.?0+$/ -----

  /** The number of '0' characters ending `s`. */
  function TrailingZeros(s: string): (z: nat)
    ensures z <= |s|
    ensures forall i :: |s| - z <= i < |s| ==> s[i] == '0'
    ensures z < |s| ==> s[|s| - z - 1] != '0'
  {
    if s == [] || s[|s| - 1] != '0' then 0 else 1 + TrailingZeros(s[..|s| - 1])
  }

  /** `s.replace(/\.?0+$/, '')`. */
  function StripZeros(s: string): (r: string)
  {
    var z := TrailingZeros(s);
    if z == 0 then s
    else if z < |s| && s[|s| - z - 1] == '.' then s[..|s| - z - 1]
    else s[..|s| - z]
  }

  /** The pattern `\.?0+$` matches the suffix of `s` starting at `i`. */
  predicate MatchesAt(s: string, i: int)
  {
    0 <= i < |s| &&
    (AllZeros(s[i..]) || (s[i] == '.' && i + 1 < |s| && AllZeros(s[i + 1..])))
  }

  /** The strip removes the leftmost match of the pattern and nothing when
      there is none, as `String.prototype.replace` with a non-global
      pattern does. */
  lemma StripIsLeftmostMatch(s: string)
    ensures |StripZeros(s)| <= |s| && StripZeros(s) == s[..|StripZeros(s)|]
    ensures forall i :: 0 <= i < |StripZeros(s)| ==> !MatchesAt(s, i)
    ensures |StripZeros(s)| < |s| ==> MatchesAt(s, |StripZeros(s)|)
  {
    var z := TrailingZeros(s);
    var r := StripZeros(s);
    if z > 0 {
      var j := |s| - z - 1;
      forall i | 0 <= i < |r|
        ensures !MatchesAt(s, i)
      {
        if i < j {
          assert s[i..][j - i] == s[j];
          assert s[i + 1..][j - i - 1] == s[j];
        } else {
          assert i == j && s[i] != '.';
          assert s[i..][0] == s[j];
        }
      }
      assert AllZeros(s[|s| - z..]);
    } else {
      forall i | 0 <= i < |r|
        ensures !MatchesAt(s, i)
      {
        assert s[i..][|s| - 1 - i] == s[|s| - 1];
      }
    }
  }

  lemma {:induction false} TrailingZerosAllZeros(f: string)
    requires AllZeros(f)
    ensures TrailingZeros(f) == |f|
    decreases |f|
  {
    if f != [] {
      TrailingZerosAllZeros(f[..|f| - 1]);
    }
  }

  lemma {:induction false} TrailingZerosAppend(a: string, f: string)
    requires a != [] && a[|a| - 1] != '0'
    ensures TrailingZeros(a + f) == TrailingZeros(f)
    decreases |f|
  {
    if f == [] {
      assert a + f == a;
    } else {
      assert (a + f)[..|a + f| - 1] == a + f[..|f| - 1];
      TrailingZerosAppend(a, f[..|f| - 1]);
    }
  }

  // ----- The formatters -----

  const NaNText := "NaN"

  /** `formatCurrency(amount)`. */
  function FormatCurrency(a: Amount): string
  {
    match a
    case Absent => "0.00"
    case NotANumber => NaNText
    case Number(x) => ToFixed(x, 2)
  }

  /** `formatQuantity(quantity)`. */
  function FormatQuantity(a: Amount): string
  {
    match a
    case Absent => "0"
    case NotANumber => StripZeros(NaNText)
    case Number(x) => StripZeros(ToFixed(x, 2))
  }

  /** `formatPercentage(value, decimals)` as written: the strip also runs on
      a `toFixed(0)` string, which has no point. */
  function FormatPercentage(a: Amount, decimals: nat): string
  {
    match a
    case Absent => "0%"
    case NotANumber => StripZeros(NaNText) + "%"
    case Number(x) => StripZeros(ToFixed(x, decimals)) + "%"
  }

  /** `formatPercentage` with the strip confined to the digits after a
      point. */
  function FormatPercentageCorrected(a: Amount, decimals: nat): string
  {
    match a
    case Absent => "0%"
    case NotANumber => NaNText + "%"
    case Number(x) => (if decimals == 0 then ToFixed(x, 0) else StripZeros(ToFixed(x, decimals))) + "%"
  }

  // ----- Properties of toFixed -----

  lemma {:induction false} ZerosValue(k: nat)
    ensures Db.DigitsValue(ZeroString(k)) == 0
    decreases k
  {
    if k > 0 {
      assert ZeroString(k)[..k - 1] == ZeroString(k - 1);
      ZerosValue(k - 1);
    }
  }

  lemma {:induction false} LeadingZerosValue(k: nat, t: string)
    requires AllDigits(t)
    ensures AllDigits(ZeroString(k) + t)
    ensures Db.DigitsValue(ZeroString(k) + t) == Db.DigitsValue(t)
    decreases |t|
  {
    var u := ZeroString(k) + t;
    assert forall j :: 0 <= j < |u| ==> Db.IsDigit(u[j]) by {
      forall j | 0 <= j < |u| ensures Db.IsDigit(u[j]) {
        if j >= k { assert u[j] == t[j - k]; }
      }
    }
    if t == [] {
      assert u == ZeroString(k);
      ZerosValue(k);
    } else {
      assert u[..|u| - 1] == ZeroString(k) + t[..|t| - 1];
      assert u[|u| - 1] == t[|t| - 1];
      LeadingZerosValue(k, t[..|t| - 1]);
    }
  }

  lemma PaddedValue(n: nat, d: nat)
    ensures Db.DigitsValue(Padded(n, d)) == n
    ensures |Padded(n, d)| > d + 1 ==> Padded(n, d)[0] != '0'
  {
    var t := NatToString(n);
    Db.DigitsOfNat(n);
    if |t| < d + 1 {
      LeadingZerosValue(d + 1 - |t|, t);
    }
  }

  /** `x.toFixed(d)`: an optional '-', at least one integer digit with no
      superfluous leading zero, then for `d > 0` a point and exactly `d`
      digits, which together spell `RoundScaled(|x|, d)`, the integer
      nearest `|x| * 10^d`. */
  lemma ToFixedFacts(x: real, d: nat)
    ensures FixedInt(x, d) != [] && AllDigits(FixedInt(x, d))
    ensures |FixedInt(x, d)| > 1 ==> FixedInt(x, d)[0] != '0'
    ensures |FixedFrac(x, d)| == d && AllDigits(FixedFrac(x, d))
    ensures Db.DigitsValue(FixedInt(x, d) + FixedFrac(x, d)) == RoundScaled(AbsReal(x), d)
  {
    var p := FixedDigits(x, d);
    assert FixedInt(x, d) + FixedFrac(x, d) == p;
    PaddedValue(RoundScaled(AbsReal(x), d), d);
  }

  lemma TimesTenDigits(m: nat)
    requires m > 0
    ensures NatToString(m * 10) == NatToString(m) + "0"
  {
    assert (m * 10) / 10 == m && (m * 10) % 10 == 0;
  }

  lemma MulTen(n: nat, p: nat)
    ensures n * (10 * p) == (n * p) * 10
    ensures n > 0 && p > 0 ==> n * p > 0
  {
  }

  /** Scaling a positive number by `10^d` appends `d` zeros to its digits. */
  lemma {:induction false} ScaledDigits(n: nat, d: nat)
    requires n > 0
    ensures n * Pow10(d) > 0
    ensures NatToString(n * Pow10(d)) == NatToString(n) + ZeroString(d)
    decreases d
  {
    if d > 0 {
      ScaledDigits(n, d - 1);
      MulTen(n, Pow10(d - 1));
      TimesTenDigits(n * Pow10(d - 1));
      assert ZeroString(d) == ZeroString(d - 1) + "0";
    }
  }

  lemma RoundWhole(n: nat, d: nat)
    ensures RoundScaled(n as real, d) == n * Pow10(d)
  {
    var m := n * Pow10(d);
    assert (n as real) * (Pow10(d) as real) == m as real;
  }

  lemma WholeDigits(n: nat, d: nat)
    ensures FixedDigits(n as real, d) == NatToString(n) + ZeroString(d)
  {
    RoundWhole(n, d);
    if n > 0 {
      ScaledDigits(n, d);
    } else {
      assert n * Pow10(d) == 0;
      assert NatToString(0) == "0";
      var u := ZeroString(d) + "0";
      var v := "0" + ZeroString(d);
      assert forall i :: 0 <= i < d + 1 ==> u[i] == v[i];
      assert u == v;
    }
  }

  /** A whole number renders as its digits followed by `d` zeros. */
  lemma IntegerToFixed(n: nat, d: nat)
    ensures FixedInt(n as real, d) == NatToString(n)
    ensures FixedFrac(n as real, d) == ZeroString(d)
    ensures ToFixed(n as real, d) == NatToString(n) + (if d == 0 then "" else "." + ZeroString(d))
  {
    var p := FixedDigits(n as real, d);
    WholeDigits(n, d);
    assert p[..|p| - d] == NatToString(n);
    assert p[|p| - d..] == ZeroString(d);
  }

  // ----- Properties of the formatters -----

  /** `formatCurrency` yields "0.00" for a missing amount and otherwise
      two digits after the point, which with the integer digits spell the
      amount rounded to cents (`RoundScaledNearest` with `d = 2`). */
  lemma FormatCurrencyFacts(a: Amount)
    ensures a.Absent? ==> FormatCurrency(a) == "0.00"
    ensures a.Number? ==>
      FormatCurrency(a) == Sign(a.x) + FixedInt(a.x, 2) + "." + FixedFrac(a.x, 2) &&
      |FixedFrac(a.x, 2)| == 2 && AllDigits(FixedFrac(a.x, 2)) &&
      FixedInt(a.x, 2) != [] && AllDigits(FixedInt(a.x, 2))
    ensures a.Number? ==>
      Db.DigitsValue(FixedInt(a.x, 2) + FixedFrac(a.x, 2)) == RoundScaled(AbsReal(a.x), 2)
  {
    if a.Number? {
      ToFixedFacts(a.x, 2);
    }
  }

  /** `formatQuantity` keeps every integer digit and drops only the
      fraction's trailing zeros, with the point when the fraction is
      zero. */
  lemma FormatQuantityFacts(x: real)
    ensures AllZeros(FixedFrac(x, 2)) ==>
      FormatQuantity(Number(x)) == Sign(x) + FixedInt(x, 2)
    ensures !AllZeros(FixedFrac(x, 2)) ==>
      FormatQuantity(Number(x)) == Sign(x) + FixedInt(x, 2) + "." + FixedFrac(x, 2)[..2 - TrailingZeros(FixedFrac(x, 2))]
  {
    StripFixed(x, 2);
  }

  /** The strip on a `toFixed(d)` string with at least one decimal. */
  lemma StripFixed(x: real, d: nat)
    requires d > 0
    ensures AllZeros(FixedFrac(x, d)) ==> StripZeros(ToFixed(x, d)) == Sign(x) + FixedInt(x, d)
    ensures !AllZeros(FixedFrac(x, d)) ==>
      StripZeros(ToFixed(x, d)) == Sign(x) + FixedInt(x, d) + "." + FixedFrac(x, d)[..d - TrailingZeros(FixedFrac(x, d))]
  {
    ToFixedFacts(x, d);
    assert ToFixed(x, d) == (Sign(x) + FixedInt(x, d)) + "." + FixedFrac(x, d);
    StripFraction(Sign(x) + FixedInt(x, d), FixedFrac(x, d));
  }

  /** On a number with a point the strip removes the fraction's trailing
      zeros, and the point too when nothing else is left after it; what
      comes before the point is never touched. */
  lemma StripFraction(head: string, f: string)
    requires f != [] && AllDigits(f)
    ensures AllZeros(f) ==> StripZeros(head + "." + f) == head
    ensures !AllZeros(f) ==> StripZeros(head + "." + f) == head + "." + f[..|f| - TrailingZeros(f)]
  {
    var a := head + ".";
    assert head + "." + f == a + f;
    TrailingZerosAppend(a, f);
    if AllZeros(f) {
      StripWholeFraction(a, f);
    } else {
      StripPartFraction(a, f);
    }
  }

  lemma StripWholeFraction(a: string, f: string)
    requires a != [] && a[|a| - 1] == '.' && AllZeros(f) && f != []
    requires TrailingZeros(a + f) == TrailingZeros(f)
    ensures StripZeros(a + f) == a[..|a| - 1]
  {
    TrailingZerosAllZeros(f);
    var s := a + f;
    assert s[|s| - |f| - 1] == '.';
    assert s[..|s| - |f| - 1] == a[..|a| - 1];
  }

  lemma StripPartFraction(a: string, f: string)
    requires !AllZeros(f) && AllDigits(f)
    requires TrailingZeros(a + f) == TrailingZeros(f)
    ensures StripZeros(a + f) == a + f[..|f| - TrailingZeros(f)]
  {
    var s := a + f;
    var z := TrailingZeros(f);
    assert z < |f|;
    assert Db.IsDigit(f[|f| - z - 1]);
    assert s[|s| - z - 1] == f[|f| - z - 1];
    assert s[..|s| - z] == a + f[..|f| - z];
  }

  /** Whole quantities print without a point: 100 gives "100" and 0
      gives "0". */
  lemma FormatWholeQuantity(n: nat)
    ensures FormatQuantity(Number(n as real)) == NatToString(n)
  {
    IntegerToFixed(n, 2);
    StripFraction(NatToString(n), ZeroString(2));
    assert NatToString(n) + "." + ZeroString(2) == ToFixed(n as real, 2);
  }

  /** Negative whole quantities keep their sign: -3 gives "-3". */
  lemma FormatNegativeWholeQuantity(n: nat, x: real)
    requires n > 0 && x == -(n as real)
    ensures FormatQuantity(Number(x)) == "-" + NatToString(n)
  {
    assert FixedDigits(x, 2) == FixedDigits(n as real, 2) by {
      assert AbsReal(x) == AbsReal(n as real);
    }
    IntegerToFixed(n, 2);
    FormatQuantityFacts(x);
    assert Sign(x) == "-";
  }

  lemma FormatQuantityExamples()
    ensures FormatQuantity(Absent) == "0"
    ensures FormatQuantity(NotANumber) == "NaN"
    ensures FormatQuantity(Number(2.0)) == "2"
  {
    FormatWholeQuantity(2);
    assert NatToString(2) == "2";
    assert TrailingZeros(NaNText) == 0;
  }

  /** 1.5 gives "1.5": one trailing zero of the fraction goes. */
  lemma FormatQuantityHalf(x: real)
    requires x == 1.5
    ensures FormatQuantity(Number(x)) == "1.5"
  {
    HalfDigits(x);
    HalfFraction();
    FormatQuantityFacts(x);
    assert "" + "1" + "." + "5" == "1.5";
  }

  /** The pieces `toFixed(2)` renders for 1.5. */
  lemma HalfDigits(x: real)
    requires x == 1.5
    ensures Sign(x) == "" && FixedInt(x, 2) == "1" && FixedFrac(x, 2) == "50"
  {
    assert RoundScaled(x, 2) == 150 by {
      assert Pow10(2) == 100;
    }
    assert NatToString(150) == "150" by {
      assert NatToString(15) == NatToString(1) + [DigitChar(5)];
    }
    assert FixedDigits(x, 2) == "150";
  }

  /** The strip keeps "5" of the fraction "50". */
  lemma HalfFraction()
    ensures !AllZeros("50") && "50"[..2 - TrailingZeros("50")] == "5"
  {
    assert "50"[0] != '0';
    assert "50"[..1] == "5";
  }

  /** As written, with no decimals the strip runs on a string without a
      point and removes the integer's own trailing zeros. */
  lemma PercentageZeroDecimalsAsWritten(n: nat)
    ensures var t := NatToString(n);
      FormatPercentage(Number(n as real), 0) == t[..|t| - TrailingZeros(t)] + "%"
  {
    var t := NatToString(n);
    assert ToFixed(n as real, 0) == t by {
      IntegerToFixed(n, 0);
      assert t + "" == t;
    }
    assert StripZeros(t) == t[..|t| - TrailingZeros(t)] by {
      StripDigits(t);
    }
  }

  /** On digits alone the strip removes every trailing zero. */
  lemma StripDigits(t: string)
    requires AllDigits(t)
    ensures StripZeros(t) == t[..|t| - TrailingZeros(t)]
  {
    var z := TrailingZeros(t);
    if z > 0 && z < |t| {
      assert Db.IsDigit(t[|t| - z - 1]);
    }
  }

  lemma LastDigitNotZero(m: nat)
    requires m % 10 != 0
    ensures var t := NatToString(m); t[|t| - 1] != '0'
  {
    var d := m % 10;
    assert NatToString(m)[|NatToString(m)| - 1] == DigitChar(d);
    assert d in {1, 2, 3, 4, 5, 6, 7, 8, 9};
  }

  /** Removing the trailing zeros of `m * 10^k` leaves `m`. */
  lemma DroppedZeros(m: nat, k: nat, n: nat)
    requires m % 10 != 0 && n == m * Pow10(k)
    ensures var t := NatToString(n); t[..|t| - TrailingZeros(t)] == NatToString(m)
  {
    var t := NatToString(n);
    assert t == NatToString(m) + ZeroString(k) by {
      ScaledDigits(m, k);
    }
    assert TrailingZeros(t) == k by {
      LastDigitNotZero(m);
      TrailingZerosAppend(NatToString(m), ZeroString(k));
      TrailingZerosAllZeros(ZeroString(k));
    }
    assert t[..|t| - k] == NatToString(m);
  }

  /** As written, a whole percentage with trailing zeros loses them when
      there are no decimals: `m * 10^k` prints as `m`. */
  lemma PercentageDropsZerosAsWritten(m: nat, k: nat, n: nat)
    requires m % 10 != 0 && n == m * Pow10(k)
    ensures FormatPercentage(Number(n as real), 0) == NatToString(m) + "%"
  {
    DroppedZeros(m, k, n);
    PercentageZeroDecimalsAsWritten(n);
  }

  /** The input that shows it: `formatPercentage(100, 0)` gives "1%". */
  lemma PercentageHundredAsWritten(n: nat)
    requires n == 100
    ensures FormatPercentage(Number(n as real), 0) == "1%"
  {
    assert 1 * Pow10(2) == n;
    PercentageDropsZerosAsWritten(1, 2, n);
    assert NatToString(1) == "1";
  }

  /** The corrected formatter renders a whole percentage as its digits for
      every number of decimals, and agrees with the original whenever
      there are decimals or nothing to format. */
  lemma PercentageCorrectedFacts(a: Amount, n: nat, d: nat)
    ensures FormatPercentageCorrected(Number(n as real), d) == NatToString(n) + "%"
    ensures d > 0 || !a.Number? ==> FormatPercentageCorrected(a, d) == FormatPercentage(a, d)
    ensures a.Absent? ==> FormatPercentageCorrected(a, d) == "0%"
  {
    IntegerToFixed(n, d);
    if d > 0 {
      StripFraction(NatToString(n), ZeroString(d));
      assert NatToString(n) + "." + ZeroString(d) == ToFixed(n as real, d);
    }
    assert TrailingZeros(NaNText) == 0;
  }
}
