/** FIR filters of DigitalFilter.cxx: the tap generators of BoxFilter,
    DifferenceFilter and the Savitzky-Golay window shape, and the FIR
    transfer function. */
module FirFilters {
  import opened ComplexNumbers
  import opened RealSums

  // ---- the transfer function ----

  /** Exponent of z for tap i of an n-tap filter with the given delay:
      int(n/2) - i - delay. */
  function FirExponent(n: nat, i: int, delay: int): int
  {
    n / 2 - i - delay
  }

  /** Sum over the first m taps of z^FirExponent * coeffs[i]. */
  function FirSum(c: seq<real>, delay: int, z: Complex, m: nat): Complex
    requires m <= |c| && z != Zero
  {
    if m == 0 then Zero
    else Add(FirSum(c, delay, z, m - 1), Mul(Pow(z, FirExponent(|c|, m - 1, delay)), FromReal(c[m - 1])))
  }

  /** One more sample of delay multiplies the response by z^-1. */
  lemma {:induction false} FirSumDelayShift(c: seq<real>, delay: int, z: Complex, m: nat)
    requires m <= |c| && z != Zero
    ensures FirSum(c, delay + 1, z, m) == Mul(FirSum(c, delay, z, m), Inv(z))
  {
    var w := Inv(z);
    if m == 0 {
      MulZero(w);
    } else {
      var e := FirExponent(|c|, m - 1, delay);
      var p := Pow(z, e);
      var t := FromReal(c[m - 1]);
      FirSumDelayShift(c, delay, z, m - 1);
      PowPred(z, e);
      assert FirExponent(|c|, m - 1, delay + 1) == e - 1;
      MulSwapRight(p, w, t);
      AddMulRight(FirSum(c, delay, z, m - 1), Mul(p, t), w);
    }
  }

  lemma MulSwapRight(p: Complex, w: Complex, t: Complex)
    ensures Mul(Mul(p, w), t) == Mul(Mul(p, t), w)
  {
    MulAssoc(p, w, t);
    MulComm(w, t);
    MulAssoc(p, t, w);
  }

  lemma AddMulRight(a: Complex, b: Complex, w: Complex)
    ensures Add(Mul(a, w), Mul(b, w)) == Mul(Add(a, b), w)
  {
    MulComm(a, w);
    MulComm(b, w);
    MulComm(Add(a, b), w);
    MulAddDistrib(w, a, b);
  }

  // ---- tap generators ----

  /** Taps of a moving average of the given width, each 1/width. */
  function BoxTaps(width: nat): (t: seq<real>)
    ensures |t| == width
  {
    seq(width, i requires 0 <= i < width => 1.0 / (width as real))
  }

  /** The box taps sum to one. */
  lemma BoxTapsSumToOne(width: nat)
    requires width > 0
    ensures Sum(BoxTaps(width)) == 1.0
  {
    var w := width as real;
    ConstantSum(BoxTaps(width), 1.0 / w);
    assert (width as real) * (1.0 / w) == 1.0;
  }

  lemma {:induction false} ConstantSum(s: seq<real>, v: real)
    requires forall i :: 0 <= i < |s| ==> s[i] == v
    ensures Sum(s) == (|s| as real) * v
  {
    if |s| > 0 {
      ConstantSum(s[..|s| - 1], v);
    }
  }

  /** C(n, k), by Pascal's rule; zero when k > n. */
  function Binomial(n: nat, k: nat): nat
  {
    if k > n then 0
    else if k == 0 || k == n then 1
    else Binomial(n - 1, k - 1) + Binomial(n - 1, k)
  }

  /** C(n, i) (-1)^i, the sign written as the source writes it. */
  function Signed(n: nat, i: nat): int
  {
    if i % 2 == 0 then Binomial(n, i) else -(Binomial(n, i) as int)
  }

  /** sum_{k < m} C(n, k). */
  function BinomialSum(n: nat, m: nat): nat
  {
    if m == 0 then 0 else BinomialSum(n, m - 1) + Binomial(n, m - 1)
  }

  /** sum_{k < m} (-1)^k C(n, k). */
  function AlternatingSum(n: nat, m: nat): int
  {
    if m == 0 then 0 else AlternatingSum(n, m - 1) + Signed(n, m - 1)
  }

  lemma Pascal(n: nat, k: nat)
    requires n >= 1 && k >= 1
    ensures Binomial(n, k) == Binomial(n - 1, k - 1) + Binomial(n - 1, k)
  {
  }

  lemma {:induction false} BinomialSumPascal(n: nat, m: nat)
    requires n >= 1 && m >= 1
    ensures BinomialSum(n, m) == BinomialSum(n - 1, m - 1) + BinomialSum(n - 1, m)
  {
    if m == 1 {
      assert BinomialSum(n, 1) == BinomialSum(n, 0) + Binomial(n, 0) == 1;
      assert BinomialSum(n - 1, 1) == BinomialSum(n - 1, 0) + Binomial(n - 1, 0) == 1;
    } else {
      BinomialSumPascal(n, m - 1);
      Pascal(n, m - 1);
    }
  }

  /** The row of Pascal's triangle sums to 2^n. */
  lemma {:induction false} BinomialRowSum(n: nat)
    ensures BinomialSum(n, n + 1) == Pow2(n)
  {
    if n > 0 {
      BinomialRowSum(n - 1);
      BinomialSumPascal(n, n + 1);
      assert BinomialSum(n - 1, n + 1) == BinomialSum(n - 1, n) + Binomial(n - 1, n);
    }
  }

  lemma {:induction false} AlternatingSumPascal(n: nat, m: nat)
    requires n >= 1 && m >= 1
    ensures AlternatingSum(n, m) == AlternatingSum(n - 1, m) - AlternatingSum(n - 1, m - 1)
  {
    if m == 1 {
      assert AlternatingSum(n, 1) == 1 && AlternatingSum(n - 1, 1) == 1;
    } else {
      AlternatingSumPascal(n, m - 1);
      Pascal(n, m - 1);
    }
  }

  /** For n > 0 the signed row sums to zero. */
  lemma AlternatingRowSum(n: nat)
    requires n > 0
    ensures AlternatingSum(n, n + 1) == 0
  {
    AlternatingSumPascal(n, n + 1);
    assert AlternatingSum(n - 1, n + 1) == AlternatingSum(n - 1, n) + Signed(n - 1, n);
  }

  /** Every C(n, k) with k <= n is positive. */
  lemma {:induction false} BinomialPositive(n: nat, k: nat)
    requires k <= n
    ensures Binomial(n, k) >= 1
  {
    if k != 0 && k != n {
      BinomialPositive(n - 1, k);
    }
  }

  /** Taps of the order-n difference filter: C(n, i) (-1)^i divided by the
      sum of their absolute values, which the source accumulates and which is
      2^n. */
  function DifferenceTaps(order: nat): (t: seq<real>)
    ensures |t| == order + 1
  {
    seq(order + 1, i requires 0 <= i <= order =>
      (Signed(order, i) as real) / (BinomialSum(order, order + 1) as real))
  }

  /** Their absolute values sum to one. */
  lemma DifferenceTapsAbsSum(order: nat)
    ensures Sum(AbsAll(DifferenceTaps(order))) == 1.0
  {
    var s := (BinomialSum(order, order + 1)) as real;
    BinomialRowSum(order);
    assert s >= 1.0;
    var taps := DifferenceTaps(order);
    var mags := seq(order + 1, i requires 0 <= i <= order => Binomial(order, i) as real);
    forall i | 0 <= i <= order
      ensures AbsAll(taps)[i] == mags[i] / s
    {
      TapMagnitude(Binomial(order, i) as real, Signed(order, i) as real, s, taps[i]);
    }
    SumOfBinomials(order, order + 1, mags);
    assert mags[..order + 1] == mags;
    SumDiv(mags, AbsAll(taps), s);
    DivSelf(Sum(mags));
  }

  lemma DivSelf(s: real)
    requires s != 0.0
    ensures s / s == 1.0
  {
  }

  lemma TapMagnitude(b: real, v: real, s: real, t: real)
    requires b >= 0.0 && s > 0.0 && (v == b || v == -b)
    requires t == v / s
    ensures (if t < 0.0 then -t else t) == b / s
  {
    if v == b {
      assert t == b / s;
    } else {
      assert t == -(b / s);
    }
  }

  /** The taps sum to zero: the filter removes a constant offset. */
  lemma DifferenceTapsSumToZero(order: nat)
    requires order > 0
    ensures Sum(DifferenceTaps(order)) == 0.0
  {
    var s := (BinomialSum(order, order + 1)) as real;
    BinomialRowSum(order);
    assert s >= 1.0;
    var signed := seq(order + 1, i requires 0 <= i <= order => Signed(order, i) as real);
    var taps := DifferenceTaps(order);
    assert forall i :: 0 <= i < |signed| ==> taps[i] == signed[i] / s;
    SumDiv(signed, taps, s);
    SumOfSignedBinomials(order, order + 1, signed);
    AlternatingRowSum(order);
    assert Sum(signed) == 0.0;
    ZeroOver(s);
  }

  lemma ZeroOver(d: real)
    requires d != 0.0
    ensures 0.0 / d == 0.0
  {
  }

  /** Signs alternate, starting positive. */
  lemma DifferenceTapsAlternate(order: nat, i: nat)
    requires i <= order
    ensures i % 2 == 0 ==> DifferenceTaps(order)[i] > 0.0
    ensures i % 2 == 1 ==> DifferenceTaps(order)[i] < 0.0
  {
    BinomialPositive(order, i);
    BinomialRowSum(order);
  }

  function AbsAll(s: seq<real>): (r: seq<real>)
    ensures |r| == |s|
  {
    seq(|s|, i requires 0 <= i < |s| => if s[i] < 0.0 then -s[i] else s[i])
  }

  lemma {:induction false} SumOfBinomials(n: nat, m: nat, mags: seq<real>)
    requires m <= |mags| && forall i :: 0 <= i < |mags| ==> mags[i] == Binomial(n, i) as real
    ensures Sum(mags[..m]) == BinomialSum(n, m) as real
  {
    if m > 0 {
      SumOfBinomials(n, m - 1, mags);
      assert mags[..m][..m - 1] == mags[..m - 1];
    }
    if m == |mags| {
      assert mags[..m] == mags;
    }
  }

  lemma {:induction false} SumOfSignedBinomials(n: nat, m: nat, signed: seq<real>)
    requires m <= |signed| && forall i :: 0 <= i < |signed| ==> signed[i] == Signed(n, i) as real
    ensures Sum(signed[..m]) == AlternatingSum(n, m) as real
    ensures m == |signed| ==> Sum(signed) == AlternatingSum(n, m) as real
  {
    if m > 0 {
      SumOfSignedBinomials(n, m - 1, signed);
      assert signed[..m][..m - 1] == signed[..m - 1];
    }
    if m == |signed| {
      assert signed[..m] == signed;
    }
  }

  // ---- Savitzky-Golay window shape ----

  /** The (tap count, delay) the SavitzkyGolayFilter constructor passes to
      FIRFilter: a negative right width means a symmetric window. */
  function SavitzkyGolayShape(wleft: int, wright: int): (int, int)
  {
    (if wright < 0 then 2 * wleft + 1 else wleft + wright + 1,
     if wright < 0 then 0 else wright - wleft)
  }

  /** The tap buffer is exactly as long as the window nl + nr + 1 that the
      coefficient routine fills (nr = wleft when wright < 0), and the delay
      is nr - nl, zero for a symmetric window. */
  lemma SavitzkyGolayShapeMatchesWindow(wleft: int, wright: int)
    ensures var nr := if wright < 0 then wleft else wright;
      SavitzkyGolayShape(wleft, wright).0 == wleft + nr + 1
      && SavitzkyGolayShape(wleft, wright).1 == nr - wleft
  {
  }

  // ---- the filter object ----

  /** An FIR filter: taps, a delay in samples, and whether the convolution
      repeats edge samples (true) or pads with zeros. */
  class FirFilter {
    var coeffs: array<real>
    var delay: int
    var extend: bool

    /** BoxFilter(width): width taps of 1/width. */
    constructor Box(width: nat)
      ensures fresh(coeffs) && coeffs[..] == BoxTaps(width)
      ensures delay == 0 && !extend
    {
      delay := 0;
      extend := false;
      var c := new real[width];
      var i := 0;
      while i < width
        invariant 0 <= i <= width
        invariant c[..i] == BoxTaps(width)[..i]
      {
        c[i] := 1.0 / (width as real);
        i := i + 1;
      }
      coeffs := c;
    }

    /** DifferenceFilter(order): order + 1 signed binomial taps, normalised
        by the sum of their absolute values. */
    constructor Difference(order: nat)
      requires order > 0
      ensures fresh(coeffs) && coeffs[..] == DifferenceTaps(order)
      ensures delay == 0 && !extend
    {
      delay := 0;
      extend := false;
      var c := new real[order + 1];
      var sum := 0.0;
      var i := 0;
      while i <= order
        invariant 0 <= i <= order + 1
        invariant sum == BinomialSum(order, i) as real
        invariant forall k :: 0 <= k < i ==> c[k] == Signed(order, k) as real
      {
        c[i] := Signed(order, i) as real;
        sum := sum + (if c[i] < 0.0 then -c[i] else c[i]);
        i := i + 1;
      }
      BinomialRowSum(order);
      i := 0;
      while i <= order
        invariant 0 <= i <= order + 1
        invariant forall k :: 0 <= k < i ==> c[k] == DifferenceTaps(order)[k]
        invariant forall k :: i <= k <= order ==> c[k] == Signed(order, k) as real
      {
        c[i] := c[i] / sum;
        i := i + 1;
      }
      coeffs := c;
    }

    /** FIRFilter::transfer at z != 0. */
    method Transfer(z: Complex) returns (ans: Complex)
      requires z != Zero
      ensures ans == FirSum(coeffs[..], delay, z, coeffs.Length)
    {
      ans := Zero;
      var i := 0;
      while i < coeffs.Length
        invariant 0 <= i <= coeffs.Length
        invariant ans == FirSum(coeffs[..], delay, z, i)
      {
        var e := coeffs.Length / 2 - i - delay;
        ans := Add(ans, Mul(Pow(z, e), FromReal(coeffs[i])));
        i := i + 1;
      }
    }
  }
}
