/** The direct-form recursive filter `doIIRFilter` and the IIR transfer
    function of DigitalFilter.cxx. Samples are `real`; the coefficient arrays
    A (feedback) and B (feed-forward) are read-only sequences. */
module IirFilter {
  import opened ComplexNumbers
  import opened Polynomial

  /** Number of taps the inner loop visits for output j: it runs k over
      [0, max(na, nb)) and stops as soon as j - k would be negative. */
  function Span(a: seq<real>, b: seq<real>, j: nat): (s: nat)
    ensures s <= j + 1
    ensures s == j + 1 || s == |a| || s == |b|
    ensures |a| <= s || j + 1 <= s
    ensures |b| <= s || j + 1 <= s
  {
    var nc := if |a| > |b| then |a| else |b|;
    if nc < j + 1 then nc else j + 1
  }

  /** One product sample * coefficient of the filter sums. */
  function Tap(sample: real, coeff: real): real { sample * coeff }

  /** The value of y[j] after the first k inner iterations, in the order the
      source accumulates it: B term first, then the A term. ys holds the
      outputs already written, y[0..j). */
  function Acc(xs: seq<real>, ys: seq<real>, a: seq<real>, b: seq<real>, j: nat, k: nat): real
    requires j < |xs| && j <= |ys| && k <= j + 1
  {
    if k == 0 then 0.0
    else
      var t := k - 1;
      (Acc(xs, ys, a, b, j, t) + (if t < |b| then Tap(xs[j - t], b[t]) else 0.0))
        - (if 0 < t < |a| then Tap(ys[j - t], a[t]) else 0.0)
  }

  /** The first m outputs of the filter on input xs. */
  function IirOutput(xs: seq<real>, a: seq<real>, b: seq<real>, m: nat): (ys: seq<real>)
    requires |a| >= 1 && a[0] != 0.0 && m <= |xs|
    ensures |ys| == m
  {
    if m == 0 then []
    else
      var prev := IirOutput(xs, a, b, m - 1);
      prev + [Acc(xs, prev, a, b, m - 1, Span(a, b, m - 1)) / a[0]]
  }

  /** Filters x[..n] into y[..n]; the rest of y is left alone. */
  method DoIirFilter(n: nat, x: array<real>, y: array<real>, a: seq<real>, b: seq<real>)
    requires x.Length >= n && y.Length >= n && x != y
    requires |a| >= 1 && a[0] != 0.0
    modifies y
    ensures y[..n] == IirOutput(x[..n], a, b, n)
    ensures y[n..] == old(y[n..])
  {
    var j := 0;
    while j < n
      invariant 0 <= j <= n
      invariant y[..j] == IirOutput(x[..n], a, b, j)
      invariant y[n..] == old(y[n..])
    {
      FilterSample(n, j, x, y, a, b);
      j := j + 1;
    }
  }

  /** One pass of the outer loop: writes y[j] from x[..j+1] and y[..j]. */
  method FilterSample(n: nat, j: nat, x: array<real>, y: array<real>, a: seq<real>, b: seq<real>)
    requires j < n <= x.Length && n <= y.Length && x != y
    requires |a| >= 1 && a[0] != 0.0
    requires y[..j] == IirOutput(x[..n], a, b, j)
    modifies y
    ensures y[..j + 1] == IirOutput(x[..n], a, b, j + 1)
    ensures forall i :: j < i < y.Length ==> y[i] == old(y[i])
  {
    var nc := if |a| > |b| then |a| else |b|;
    var a0 := a[0];
    ghost var prev := y[..j];
    ghost var xs := x[..n];
    y[j] := 0.0;
    var k := 0;
    while k < nc
      invariant 0 <= k <= nc && k <= j + 1
      invariant y[..j] == prev
      invariant y[j] == Acc(xs, prev, a, b, j, k)
      invariant forall i :: j < i < y.Length ==> y[i] == old(y[i])
    {
      if j - k < 0 {
        break;
      }
      if k < |b| {
        y[j] := y[j] + Tap(x[j - k], b[k]);
      }
      if k > 0 && k < |a| {
        y[j] := y[j] - Tap(y[j - k], a[k]);
      }
      k := k + 1;
    }
    assert k == Span(a, b, j);
    y[j] := y[j] / a0;
    assert y[..j + 1] == prev + [y[j]];
  }

  // ---- the difference equation, as two separate sums ----

  /** Sum of b[k] * xs[j-k] over k < m (terms with k >= |b| are zero). */
  function FeedForward(xs: seq<real>, b: seq<real>, j: nat, m: nat): real
    requires j < |xs| && m <= j + 1
  {
    if m == 0 then 0.0
    else FeedForward(xs, b, j, m - 1) + (if m - 1 < |b| then Tap(xs[j - (m - 1)], b[m - 1]) else 0.0)
  }

  /** Sum of a[k] * ys[j-k] over 0 < k < m (terms with k >= |a| are zero). */
  function FeedBack(ys: seq<real>, a: seq<real>, j: nat, m: nat): real
    requires j <= |ys| && m <= j + 1
  {
    if m <= 1 then 0.0
    else FeedBack(ys, a, j, m - 1) + (if m - 1 < |a| then Tap(ys[j - (m - 1)], a[m - 1]) else 0.0)
  }

  /** The interleaved accumulation is feed-forward minus feedback. */
  lemma {:induction false} AccSplits(xs: seq<real>, ys: seq<real>, a: seq<real>, b: seq<real>, j: nat, k: nat)
    requires j < |xs| && j <= |ys| && k <= j + 1
    ensures Acc(xs, ys, a, b, j, k) == FeedForward(xs, b, j, k) - FeedBack(ys, a, j, k)
  {
    if k > 0 {
      AccSplits(xs, ys, a, b, j, k - 1);
    }
  }

  /** Every output sample satisfies the filter's difference equation
      a[0]*y[j] + sum_{0<k} a[k]*y[j-k] == sum_k b[k]*x[j-k]. */
  lemma IirSatisfiesDifferenceEquation(xs: seq<real>, a: seq<real>, b: seq<real>, n: nat, j: nat)
    requires |a| >= 1 && a[0] != 0.0 && n <= |xs| && j < n
    ensures var ys := IirOutput(xs, a, b, n);
      Tap(ys[j], a[0]) + FeedBack(ys, a, j, Span(a, b, j)) == FeedForward(xs, b, j, Span(a, b, j))
  {
    var ys := IirOutput(xs, a, b, n);
    var pre := IirOutput(xs, a, b, j);
    var m := Span(a, b, j);
    IirOutputAt(xs, a, b, n, j);
    AccSplits(xs, pre, a, b, j, m);
    FeedBackPrefix(ys, pre, a, j, m);
    Rearrange(ys[j], a[0], Acc(xs, pre, a, b, j, m), FeedForward(xs, b, j, m), FeedBack(pre, a, j, m));
  }

  /** Output j is the accumulated sum over the earlier outputs, divided by a[0]. */
  lemma IirOutputAt(xs: seq<real>, a: seq<real>, b: seq<real>, n: nat, j: nat)
    requires |a| >= 1 && a[0] != 0.0 && n <= |xs| && j < n
    ensures IirOutput(xs, a, b, j) == IirOutput(xs, a, b, n)[..j]
    ensures IirOutput(xs, a, b, n)[j]
         == Acc(xs, IirOutput(xs, a, b, j), a, b, j, Span(a, b, j)) / a[0]
  {
    IirOutputPrefix(xs, a, b, n, j + 1);
    IirOutputPrefix(xs, a, b, n, j);
    assert IirOutput(xs, a, b, n)[j] == IirOutput(xs, a, b, n)[..j + 1][j];
  }

  lemma Rearrange(y: real, a0: real, acc: real, ff: real, fb: real)
    requires a0 != 0.0 && y == acc / a0 && acc == ff - fb
    ensures Tap(y, a0) + fb == ff
  {
    DivMulCancel(acc, a0);
  }

  lemma DivMulCancel(v: real, d: real)
    requires d != 0.0
    ensures (v / d) * d == v
  {
  }

  lemma {:induction false} FeedBackPrefix(ys: seq<real>, pre: seq<real>, a: seq<real>, j: nat, m: nat)
    requires j <= |pre| <= |ys| && pre == ys[..|pre|] && m <= j + 1
    ensures FeedBack(ys, a, j, m) == FeedBack(pre, a, j, m)
  {
    if m > 1 {
      FeedBackPrefix(ys, pre, a, j, m - 1);
    }
  }

  /** Earlier outputs are not revised by later ones. */
  lemma {:induction false} IirOutputPrefix(xs: seq<real>, a: seq<real>, b: seq<real>, n: nat, m: nat)
    requires |a| >= 1 && a[0] != 0.0 && m <= n <= |xs|
    ensures IirOutput(xs, a, b, n)[..m] == IirOutput(xs, a, b, m)
  {
    if n > m {
      IirOutputPrefix(xs, a, b, n - 1, m);
      assert IirOutput(xs, a, b, n)[..n - 1] == IirOutput(xs, a, b, n - 1);
    }
  }

  /** Causality: the first m outputs depend on the first m inputs only. */
  lemma IirCausal(xs1: seq<real>, xs2: seq<real>, a: seq<real>, b: seq<real>, n: nat, m: nat)
    requires |a| >= 1 && a[0] != 0.0 && m <= n && n <= |xs1| && n <= |xs2|
    requires xs1[..m] == xs2[..m]
    ensures IirOutput(xs1, a, b, n)[..m] == IirOutput(xs2, a, b, n)[..m]
  {
    IirOutputPrefix(xs1, a, b, n, m);
    IirOutputPrefix(xs2, a, b, n, m);
    IirSameInputs(xs1, xs2, a, b, m);
  }

  lemma {:induction false} IirSameInputs(xs1: seq<real>, xs2: seq<real>, a: seq<real>, b: seq<real>, m: nat)
    requires |a| >= 1 && a[0] != 0.0 && m <= |xs1| && m <= |xs2| && xs1[..m] == xs2[..m]
    ensures IirOutput(xs1, a, b, m) == IirOutput(xs2, a, b, m)
  {
    if m > 0 {
      assert xs1[..m - 1] == xs2[..m - 1];
      IirSameInputs(xs1, xs2, a, b, m - 1);
      var prev := IirOutput(xs1, a, b, m - 1);
      AccSameInputs(xs1, xs2, prev, a, b, m - 1, Span(a, b, m - 1));
    }
  }

  lemma {:induction false} AccSameInputs(xs1: seq<real>, xs2: seq<real>, ys: seq<real>, a: seq<real>, b: seq<real>, j: nat, k: nat)
    requires j < |xs1| && j < |xs2| && xs1[..j + 1] == xs2[..j + 1] && j <= |ys| && k <= j + 1
    ensures Acc(xs1, ys, a, b, j, k) == Acc(xs2, ys, a, b, j, k)
  {
    if k > 0 {
      AccSameInputs(xs1, xs2, ys, a, b, j, k - 1);
      assert xs1[j - (k - 1)] == xs1[..j + 1][j - (k - 1)];
    }
  }

  /** An all-zero input gives an all-zero output. */
  lemma {:induction false} IirZeroInZeroOut(xs: seq<real>, a: seq<real>, b: seq<real>, m: nat)
    requires |a| >= 1 && a[0] != 0.0 && m <= |xs|
    requires forall i :: 0 <= i < |xs| ==> xs[i] == 0.0
    ensures forall i :: 0 <= i < m ==> IirOutput(xs, a, b, m)[i] == 0.0
  {
    if m > 0 {
      IirZeroInZeroOut(xs, a, b, m - 1);
      var prev := IirOutput(xs, a, b, m - 1);
      AccOfZeros(xs, prev, a, b, m - 1, Span(a, b, m - 1));
    }
  }

  lemma {:induction false} AccOfZeros(xs: seq<real>, ys: seq<real>, a: seq<real>, b: seq<real>, j: nat, k: nat)
    requires j < |xs| && j <= |ys| && k <= j + 1
    requires forall i :: 0 <= i < |xs| ==> xs[i] == 0.0
    requires forall i :: 0 <= i < |ys| ==> ys[i] == 0.0
    ensures Acc(xs, ys, a, b, j, k) == 0.0
  {
    if k > 0 {
      AccOfZeros(xs, ys, a, b, j, k - 1);
    }
  }

  // ---- transfer function H(z) = B(1/z) / A(1/z) ----

  /** The real coefficients as complex numbers. */
  function Lift(c: seq<real>): (l: seq<Complex>)
    ensures |l| == |c| && forall i :: 0 <= i < |c| ==> l[i] == FromReal(c[i])
  {
    seq(|c|, i requires 0 <= i < |c| => FromReal(c[i]))
  }

  /** c[0] + c[1]*z^-1 + ... + c[m-1]*z^-(m-1), summed in the source's order. */
  function NegPowSum(c: seq<real>, z: Complex, m: nat): Complex
    requires 1 <= m <= |c| && z != Zero
  {
    if m == 1 then FromReal(c[0])
    else Add(NegPowSum(c, z, m - 1), Mul(Pow(z, -(m - 1)), FromReal(c[m - 1])))
  }

  /** The sum is the polynomial with coefficients c evaluated at 1/z. */
  lemma {:induction false} NegPowSumIsEval(c: seq<real>, z: Complex, m: nat)
    requires 1 <= m <= |c| && z != Zero
    ensures NegPowSum(c, z, m) == Eval(Lift(c)[..m], Inv(z))
  {
    var w := Inv(z);
    if m == 1 {
      assert Lift(c)[..1] == [] + [FromReal(c[0])];
      EvalAppend([], FromReal(c[0]), w);
      MulOne(FromReal(c[0]));
    } else {
      NegPowSumIsEval(c, z, m - 1);
      assert Lift(c)[..m] == Lift(c)[..m - 1] + [FromReal(c[m - 1])];
      EvalAppend(Lift(c)[..m - 1], FromReal(c[m - 1]), w);
      PowNegIsPowInv(z, m - 1);
    }
  }

  /** IIRFilter::transfer: the response at z != 0, where the denominator does
      not vanish. */
  method IirTransfer(a: seq<real>, b: seq<real>, z: Complex) returns (h: Complex)
    requires |a| >= 1 && |b| >= 1 && z != Zero
    requires Eval(Lift(a), Inv(z)) != Zero
    ensures h == Div(Eval(Lift(b), Inv(z)), Eval(Lift(a), Inv(z)))
  {
    var num := FromReal(b[0]);
    var i := 1;
    while i < |b|
      invariant 1 <= i <= |b|
      invariant num == NegPowSum(b, z, i)
    {
      num := Add(num, Mul(Pow(z, -i), FromReal(b[i])));
      i := i + 1;
    }
    var denom := FromReal(a[0]);
    i := 1;
    while i < |a|
      invariant 1 <= i <= |a|
      invariant denom == NegPowSum(a, z, i)
    {
      denom := Add(denom, Mul(Pow(z, -i), FromReal(a[i])));
      i := i + 1;
    }
    NegPowSumIsEval(b, z, |b|);
    NegPowSumIsEval(a, z, |a|);
    assert Lift(b)[..|b|] == Lift(b);
    assert Lift(a)[..|a|] == Lift(a);
    h := Div(num, denom);
  }

  // ---- the exponent as the source writes it ----

  /** 2^64: size_t arithmetic is modulo this. */
  const SizeModulus: int := 0x1_0000_0000_0000_0000

  /** `-i` for an unsigned 64-bit i: the negation wraps around. */
  function UnsignedNegation(i: nat): (r: nat)
    requires i < SizeModulus
    ensures r < SizeModulus
  {
    (SizeModulus - i) % SizeModulus
  }

  /** The source's sum with the wrapped exponent: it is passed to pow as the
      value 2^64 - i, not -i. */
  function NegPowSumAsWritten(c: seq<real>, z: Complex, m: nat): Complex
    requires 1 <= m <= |c| && |c| < SizeModulus
  {
    if m == 1 then FromReal(c[0])
    else Add(NegPowSumAsWritten(c, z, m - 1), Mul(Pow(z, UnsignedNegation(m - 1)), FromReal(c[m - 1])))
  }

  /** With b = [0, 1] (a one-sample delay) and a real z > 1 the intended
      numerator is 1/z, below 1, while the as-written one has real part at
      least 1: the two differ, e.g. at z = 2. */
  lemma AsWrittenNumeratorDiffers(x: real)
    requires x > 1.0
    ensures NegPowSum([0.0, 1.0], FromReal(x), 2) == FromReal(1.0 / x)
    ensures (1.0 / x) < 1.0
    ensures NegPowSumAsWritten([0.0, 1.0], FromReal(x), 2).re >= 1.0
  {
    IntendedDelayNumerator([0.0, 1.0], FromReal(x));
    InvOfReal(x);
    ReciprocalBelowOne(x);
    AsWrittenDelayNumerator(x);
  }

  lemma ReciprocalBelowOne(x: real)
    requires x > 1.0
    ensures 1.0 / x < 1.0
  {
    assert (1.0 / x) * x == 1.0;
  }

  /** The intended numerator of b = [0, 1] is z^-1. */
  lemma IntendedDelayNumerator(c: seq<real>, z: Complex)
    requires |c| == 2 && c[0] == 0.0 && c[1] == 1.0 && z != Zero
    ensures NegPowSum(c, z, 2) == Inv(z)
  {
    var p := Pow(z, -1);
    PowMinusOne(z);
    calc {
      NegPowSum(c, z, 2);
      Add(NegPowSum(c, z, 1), Mul(p, FromReal(c[1])));
      Add(Zero, Mul(p, One));
      { MulOne(p); }
      Add(Zero, p);
      p;
    }
  }

  lemma PowMinusOne(z: Complex)
    requires z != Zero
    ensures Pow(z, -1) == Inv(z)
  {
    var w := Inv(z);
    calc {
      Pow(z, -1);
      { PowNegIsPowInv(z, 1); }
      Pow(w, 1);
      Mul(Pow(w, 0), w);
      Mul(One, w);
      { MulOne(w); }
      w;
    }
  }

  lemma AsWrittenDelayNumerator(x: real)
    requires x >= 1.0
    ensures NegPowSumAsWritten([0.0, 1.0], FromReal(x), 2).re >= 1.0
  {
    var e := UnsignedNegation(1);
    PowOfRealAtLeastOne(x, e);
    var p := Pow(FromReal(x), e);
    MulOne(p);
  }
}
