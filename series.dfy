/** DigitalFilterSeries: a chain of filters applied one after the other,
    with two scratch buffers swapped between stages. */
module FilterSeries {
  import opened ComplexNumbers
  import opened Polynomial
  import opened IirFilter
  import opened FirFilters

  /** One member of a series: an IIR filter given by its a (feedback) and b
      (feed-forward) coefficients, or an FIR filter given by its taps, delay
      and edge mode. */
  datatype Stage =
    | IirStage(a: seq<real>, b: seq<real>)
    | FirStage(taps: seq<real>, delay: int, extend: bool)

  /** directConvolve, whose code is not part of this model: the FIR output
      for an input, taps, a delay and an edge mode. */
  type Convolver = (seq<real>, seq<real>, int, bool) -> seq<real>

  ghost predicate ConvolverKeepsLength(conv: Convolver)
  {
    forall xs, taps, d, e :: |conv(xs, taps, d, e)| == |xs|
  }

  /** An IIR stage needs a nonzero a[0], the divisor of every output. */
  predicate WellFormed(s: Stage)
  {
    s.IirStage? ==> |s.a| >= 1 && s.a[0] != 0.0
  }

  /** What one stage's filterOut writes for input xs. */
  function Apply(s: Stage, xs: seq<real>, conv: Convolver): (ys: seq<real>)
    requires WellFormed(s) && ConvolverKeepsLength(conv)
    ensures |ys| == |xs|
  {
    match s
    case IirStage(a, b) => IirOutput(xs, a, b, |xs|)
    case FirStage(taps, delay, extend) => conv(xs, taps, delay, extend)
  }

  /** stages[m-1](... stages[0](xs)); the empty series is the identity. */
  function Compose(stages: seq<Stage>, xs: seq<real>, conv: Convolver): (ys: seq<real>)
    requires forall i :: 0 <= i < |stages| ==> WellFormed(stages[i])
    requires ConvolverKeepsLength(conv)
    ensures |ys| == |xs|
  {
    if |stages| == 0 then xs
    else Apply(stages[|stages| - 1], Compose(stages[..|stages| - 1], xs, conv), conv)
  }

  /** Running a series and then another is running their concatenation. */
  lemma {:induction false} ComposeConcat(s: seq<Stage>, t: seq<Stage>, xs: seq<real>, conv: Convolver)
    requires forall i :: 0 <= i < |s| ==> WellFormed(s[i])
    requires forall i :: 0 <= i < |t| ==> WellFormed(t[i])
    requires ConvolverKeepsLength(conv)
    ensures forall i :: 0 <= i < |s + t| ==> WellFormed((s + t)[i])
    ensures Compose(s + t, xs, conv) == Compose(t, Compose(s, xs, conv), conv)
  {
    if |t| == 0 {
      assert s + t == s;
    } else {
      var u := t[..|t| - 1];
      assert (s + t)[..|s + t| - 1] == s + u;
      ComposeConcat(s, u, xs, conv);
    }
  }

  /** DigitalFilterSeries::filterOut: filters w[..n] through every stage into
      out[..n]. Each stage reads the previous stage's buffer and writes the
      other one; an empty series copies w. */
  method FilterOut(stages: seq<Stage>, conv: Convolver, n: nat, w: array<real>, out: array<real>)
    requires forall i :: 0 <= i < |stages| ==> WellFormed(stages[i])
    requires ConvolverKeepsLength(conv)
    requires w.Length >= n && out.Length >= n
    modifies out
    ensures out[..n] == Compose(stages, old(w[..n]), conv)
    ensures out[n..] == old(out[n..])
  {
    ghost var input := w[..n];
    if |stages| == 0 {
      CopyPrefix(n, w, out);
      return;
    }
    var y := new real[n](_ => 0.0);
    var newx := new real[if |stages| > 1 then n else 0](_ => 0.0);
    var xin := w;
    var i := 0;
    while i < |stages|
      invariant 0 <= i <= |stages|
      invariant y.Length == n && (|stages| > 1 ==> newx.Length == n)
      invariant fresh(y) && fresh(newx) && y != newx
      invariant xin == w || (i > 0 && xin == newx)
      invariant w[..n] == input && out[..] == old(out[..])
      invariant i > 0 ==> y[..n] == Compose(stages[..i], input, conv)
      invariant i == 0 ==> xin == w
    {
      if i > 0 {
        var temp := newx;
        newx := y;
        y := temp;
        if i > 1 {
          forall k | 0 <= k < n {
            y[k] := 0.0;
          }
        }
        xin := newx;
      }
      ghost var src := xin[..n];
      assert src == (if i == 0 then input else Compose(stages[..i], input, conv));
      StageFilterOut(stages[i], conv, n, xin, y);
      assert stages[..i + 1][..i] == stages[..i];
      i := i + 1;
    }
    assert stages[..i] == stages;
    CopyPrefix(n, y, out);
  }

  /** One stage's filterOut from x[..n] into y[..n]. */
  method StageFilterOut(s: Stage, conv: Convolver, n: nat, x: array<real>, y: array<real>)
    requires WellFormed(s) && ConvolverKeepsLength(conv)
    requires x.Length >= n && y.Length >= n && x != y
    modifies y
    ensures y[..n] == Apply(s, old(x[..n]), conv)
    ensures y[n..] == old(y[n..])
  {
    match s
    case IirStage(a, b) =>
      DoIirFilter(n, x, y, a, b);
    case FirStage(taps, delay, extend) =>
      var r := conv(x[..n], taps, delay, extend);
      forall k | 0 <= k < n {
        y[k] := r[k];
      }
  }

  /** memcpy(dst, src, n). */
  method CopyPrefix(n: nat, src: array<real>, dst: array<real>)
    requires src.Length >= n && dst.Length >= n
    modifies dst
    ensures dst[..n] == old(src[..n])
    ensures dst[n..] == old(dst[n..])
  {
    ghost var s := src[..n];
    forall k | 0 <= k < n {
      dst[k] := src[k];
    }
    assert dst[..n] == s;
  }

  // ---- the series transfer function ----

  /** A stage's response at z, where its IIR denominator does not vanish. */
  predicate Responds(s: Stage, z: Complex)
  {
    z != Zero && (s.IirStage? ==> Eval(Lift(s.a), Inv(z)) != Zero)
  }

  function StageResponse(s: Stage, z: Complex): Complex
    requires Responds(s, z)
  {
    match s
    case IirStage(a, b) => Div(Eval(Lift(b), Inv(z)), Eval(Lift(a), Inv(z)))
    case FirStage(taps, delay, _) => FirSum(taps, delay, z, |taps|)
  }

  /** The product of the stage responses, the empty product being 1. */
  function SeriesResponse(stages: seq<Stage>, z: Complex): Complex
    requires forall i :: 0 <= i < |stages| ==> Responds(stages[i], z)
  {
    if |stages| == 0 then One
    else Mul(SeriesResponse(stages[..|stages| - 1], z), StageResponse(stages[|stages| - 1], z))
  }

  /** The response of a concatenated series is the product of the two. */
  lemma {:induction false} SeriesResponseConcat(s: seq<Stage>, t: seq<Stage>, z: Complex)
    requires forall i :: 0 <= i < |s| ==> Responds(s[i], z)
    requires forall i :: 0 <= i < |t| ==> Responds(t[i], z)
    ensures forall i :: 0 <= i < |s + t| ==> Responds((s + t)[i], z)
    ensures SeriesResponse(s + t, z) == Mul(SeriesResponse(s, z), SeriesResponse(t, z))
  {
    if |t| == 0 {
      assert s + t == s;
      MulOne(SeriesResponse(s, z));
    } else {
      var u := t[..|t| - 1];
      var st := s + t;
      assert st[..|st| - 1] == s + u;
      assert st[|st| - 1] == t[|t| - 1];
      SeriesResponseConcat(s, u, z);
      var a, b, last := SeriesResponse(s, z), SeriesResponse(u, z), StageResponse(t[|t| - 1], z);
      SeriesResponseLast(st, z);
      SeriesResponseLast(t, z);
      MulAssoc(a, b, last);
    }
  }

  lemma SeriesResponseLast(st: seq<Stage>, z: Complex)
    requires |st| > 0
    requires forall i :: 0 <= i < |st| ==> Responds(st[i], z)
    ensures SeriesResponse(st, z) == Mul(SeriesResponse(st[..|st| - 1], z), StageResponse(st[|st| - 1], z))
  {
  }

  /** DigitalFilterSeries::transfer. */
  method Transfer(stages: seq<Stage>, z: Complex) returns (answer: Complex)
    requires forall i :: 0 <= i < |stages| ==> Responds(stages[i], z)
    ensures answer == SeriesResponse(stages, z)
  {
    answer := One;
    var i := 0;
    while i < |stages|
      invariant 0 <= i <= |stages|
      invariant answer == SeriesResponse(stages[..i], z)
    {
      assert stages[..i + 1][..i] == stages[..i];
      answer := Mul(answer, StageResponse(stages[i], z));
      i := i + 1;
    }
    assert stages[..|stages|] == stages;
  }
}
