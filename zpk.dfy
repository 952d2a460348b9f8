/** The zero-pole-gain IIR designs of DigitalFilter.cxx. An analog prototype
    (zeroes, poles, gain) is moved to the requested band by `transform`, mapped
    into the z-plane by `bilinearTransform`, and expanded into the b/a
    coefficient vectors by `computeCoeffsFromDigiPoles`. The prewarped band
    edges come from `tan`, and the complex square root is `sqrt`; both are
    supplied by the caller. */
module ZpkFilters {
  import opened ComplexNumbers
  import opened Polynomial

  datatype FilterTopology = Lowpass | Highpass | Bandpass | Notch

  /** The prewarped centre W and edges Wh, Wl of the band. */
  datatype Band = Band(W: real, Wh: real, Wl: real)

  function Prewarped(w: real, dw: real, tan: real -> real): Band
  {
    Band(tan(Pi * w / 2.0), tan(Pi * (w + dw) / 2.0), tan(Pi * (w - dw) / 2.0))
  }

  /** dW, the prewarped half-width. */
  function HalfWidth(b: Band): real
  {
    (b.Wh - b.Wl) / 2.0
  }

  const MinusOne: Complex := Complex(-1.0, 0.0)

  // ---- the push_back loops of transform ----

  /** Which list of the design a loop of transform walks. */
  datatype Side = Zeroes | Poles

  /** b +- sqrt(b*b - Wh*Wl): the two roots one band root splits into. */
  function Split(c: Complex, b: Band, csqrt: Complex -> Complex): seq<Complex>
  {
    var x := csqrt(Sub(Mul(c, c), FromReal(b.Wh * b.Wl)));
    [Add(c, x), Sub(c, x)]
  }

  /** What a loop of transform pushes for one root r. */
  function RootImage(t: FilterTopology, b: Band, csqrt: Complex -> Complex, r: Complex): seq<Complex>
    requires t == Highpass || t == Notch ==> r != Zero
  {
    match t
    case Lowpass => [Mul(r, FromReal(b.W))]
    case Highpass => [Div(FromReal(b.W), r)]
    case Bandpass => Split(Mul(r, FromReal(HalfWidth(b))), b, csqrt)
    case Notch => Split(Div(FromReal(HalfWidth(b)), r), b, csqrt)
  }

  /** How many entries one root becomes. */
  function Width(t: FilterTopology): nat
  {
    if t == Lowpass || t == Highpass then 1 else 2
  }

  predicate AllNonzero(rs: seq<Complex>)
  {
    forall i :: 0 <= i < |rs| ==> rs[i] != Zero
  }

  /** The entries pushed for roots rs, in order. */
  function Images(t: FilterTopology, b: Band, csqrt: Complex -> Complex, rs: seq<Complex>): seq<Complex>
    requires t == Highpass || t == Notch ==> AllNonzero(rs)
  {
    if |rs| == 0 then [] else Images(t, b, csqrt, rs[..|rs| - 1]) + RootImage(t, b, csqrt, rs[|rs| - 1])
  }

  /** What is pushed for each root the other list has in excess. */
  function PadOf(t: FilterTopology, b: Band, csqrt: Complex -> Complex): seq<Complex>
  {
    match t
    case Lowpass => []
    case Highpass => [Zero]
    case Bandpass => [Zero]
    case Notch =>
      var extra := csqrt(FromReal(-b.Wh * b.Wl));
      [extra, Neg(extra)]
  }

  /** k copies of the entries v, one after another (k <= 0 gives none). */
  function Repeat(k: int, v: seq<Complex>): seq<Complex>
    decreases k
  {
    if k <= 0 then [] else Repeat(k - 1, v) + v
  }

  /** Whether the gain step for root r is defined: the LOWPASS zero step
      divides by W, the BANDPASS one by 2 dW, and the HIGHPASS and NOTCH pole
      steps divide by the pole. */
  predicate Steppable(t: FilterTopology, b: Band, side: Side, r: Complex)
  {
    match side
    case Zeroes => (t == Lowpass ==> b.W != 0.0) && (t == Bandpass ==> HalfWidth(b) != 0.0)
    case Poles => t == Highpass || t == Notch ==> r != Zero
  }

  predicate AllSteppable(t: FilterTopology, b: Band, side: Side, rs: seq<Complex>)
  {
    forall i :: 0 <= i < |rs| ==> Steppable(t, b, side, rs[i])
  }

  /** How a loop of transform updates the running gain g for root r. */
  function GainStep(t: FilterTopology, b: Band, side: Side, g: Complex, r: Complex): Complex
    requires Steppable(t, b, side, r)
  {
    match side
    case Zeroes =>
      (match t
       case Lowpass => Div(g, FromReal(b.W))
       case Highpass => Mul(g, Neg(r))
       case Bandpass => Mul(g, FromReal(1.0 / (2.0 * HalfWidth(b))))
       case Notch => Mul(g, Neg(r)))
    case Poles =>
      (match t
       case Lowpass => Mul(g, FromReal(b.W))
       case Highpass => Mul(g, Div(FromReal(-1.0), r))
       case Bandpass => Mul(g, FromReal(2.0 * HalfWidth(b)))
       case Notch => Mul(g, Div(FromReal(-1.0), r)))
  }

  /** The gain after one step per root of rs, starting from g. */
  function GainAfter(t: FilterTopology, b: Band, side: Side, g: Complex, rs: seq<Complex>): Complex
    requires AllSteppable(t, b, side, rs)
  {
    if |rs| == 0 then g
    else GainStep(t, b, side, GainAfter(t, b, side, g, rs[..|rs| - 1]), rs[|rs| - 1])
  }

  /** One loop of transform: pushes every root's image onto acc and updates the gain. */
  method PushImages(acc: seq<Complex>, g: Complex, t: FilterTopology, b: Band, csqrt: Complex -> Complex,
                    side: Side, rs: seq<Complex>)
    returns (acc': seq<Complex>, g': Complex)
    requires t == Highpass || t == Notch ==> AllNonzero(rs)
    requires AllSteppable(t, b, side, rs)
    ensures acc' == acc + Images(t, b, csqrt, rs)
    ensures g' == GainAfter(t, b, side, g, rs)
  {
    var pushed := [];
    g' := g;
    for i := 0 to |rs|
      invariant pushed == Images(t, b, csqrt, rs[..i])
      invariant g' == GainAfter(t, b, side, g, rs[..i])
    {
      PrefixStep(t, b, csqrt, side, g, rs, i);
      pushed := pushed + RootImage(t, b, csqrt, rs[i]);
      g' := GainStep(t, b, side, g', rs[i]);
    }
    assert rs[..|rs|] == rs;
    acc' := acc + pushed;
  }

  /** One more root of the prefix adds its image and its gain step. */
  lemma PrefixStep(t: FilterTopology, b: Band, csqrt: Complex -> Complex, side: Side, g: Complex,
                   rs: seq<Complex>, i: nat)
    requires t == Highpass || t == Notch ==> AllNonzero(rs)
    requires AllSteppable(t, b, side, rs)
    requires i < |rs|
    ensures t == Highpass || t == Notch ==> AllNonzero(rs[..i]) && AllNonzero(rs[..i + 1])
    ensures AllSteppable(t, b, side, rs[..i]) && AllSteppable(t, b, side, rs[..i + 1])
    ensures (t == Highpass || t == Notch ==> rs[i] != Zero) && Steppable(t, b, side, rs[i])
    ensures Images(t, b, csqrt, rs[..i + 1]) == Images(t, b, csqrt, rs[..i]) + RootImage(t, b, csqrt, rs[i])
    ensures GainAfter(t, b, side, g, rs[..i + 1]) == GainStep(t, b, side, GainAfter(t, b, side, g, rs[..i]), rs[i])
  {
    assert rs[..i + 1][..i] == rs[..i];
  }

  /** A padding loop of transform: `for (i = own; i < other; i++)` pushes v. */
  method PushPadding(acc: seq<Complex>, own: nat, other: nat, v: seq<Complex>) returns (acc': seq<Complex>)
    ensures acc' == acc + Repeat(other - own, v)
  {
    acc' := acc;
    var i := own;
    while i < other
      invariant own <= i || other <= own
      invariant acc' == acc + Repeat(if i <= other then i - own else other - own, v)
    {
      acc' := acc' + v;
      i := i + 1;
    }
  }

  /** What transform needs of its inputs: the band topologies assert dW != 0,
      and the lowpass, highpass and notch maps divide by W or by the roots. */
  predicate Transformable(t: FilterTopology, zs: seq<Complex>, ps: seq<Complex>, b: Band)
  {
    && (t == Lowpass && |zs| > 0 ==> b.W != 0.0)
    && (t == Bandpass || t == Notch ==> HalfWidth(b) != 0.0)
    && (t == Highpass || t == Notch ==> AllNonzero(zs) && AllNonzero(ps))
  }

  /** The new root list made from `own`, padded up to the size of `other`. */
  function TransformedRoots(t: FilterTopology, own: seq<Complex>, other: seq<Complex>, b: Band,
                            csqrt: Complex -> Complex): seq<Complex>
    requires t == Highpass || t == Notch ==> AllNonzero(own)
  {
    var images := Images(t, b, csqrt, own);
    if t == Lowpass then images else images + Repeat(|other| - |own|, PadOf(t, b, csqrt))
  }

  /** The complex gain before its imaginary part is dropped. */
  function TransformedGain(t: FilterTopology, zs: seq<Complex>, ps: seq<Complex>, g: real, b: Band): Complex
    requires Transformable(t, zs, ps, b)
  {
    GainAfter(t, b, Poles, GainAfter(t, b, Zeroes, FromReal(g), zs), ps)
  }

  /** The multiplier each gain step applies to the gain. */
  function Factor(t: FilterTopology, b: Band, side: Side, r: Complex): Complex
    requires Steppable(t, b, side, r)
  {
    match side
    case Zeroes =>
      (match t
       case Lowpass => Inv(FromReal(b.W))
       case Highpass => Neg(r)
       case Bandpass => FromReal(1.0 / (2.0 * HalfWidth(b)))
       case Notch => Neg(r))
    case Poles =>
      (match t
       case Lowpass => FromReal(b.W)
       case Highpass => Div(FromReal(-1.0), r)
       case Bandpass => FromReal(2.0 * HalfWidth(b))
       case Notch => Div(FromReal(-1.0), r))
  }

  /** The product of the factors of rs. */
  function ProductOf(t: FilterTopology, b: Band, side: Side, rs: seq<Complex>): Complex
    requires AllSteppable(t, b, side, rs)
  {
    if |rs| == 0 then One else Mul(ProductOf(t, b, side, rs[..|rs| - 1]), Factor(t, b, side, rs[|rs| - 1]))
  }

  lemma StepIsFactor(t: FilterTopology, b: Band, side: Side, g: Complex, r: Complex)
    requires Steppable(t, b, side, r)
    ensures GainStep(t, b, side, g, r) == Mul(g, Factor(t, b, side, r))
  {
  }

  /** The steps of a loop multiply the gain by the product of the factors. */
  lemma {:induction false} GainAfterProduct(t: FilterTopology, b: Band, side: Side, g: Complex, rs: seq<Complex>)
    requires AllSteppable(t, b, side, rs)
    ensures GainAfter(t, b, side, g, rs) == Mul(g, ProductOf(t, b, side, rs))
  {
    if |rs| == 0 {
      MulOne(g);
    } else {
      var n := |rs| - 1;
      var p := ProductOf(t, b, side, rs[..n]);
      var last := Factor(t, b, side, rs[n]);
      calc {
        GainAfter(t, b, side, g, rs);
        GainStep(t, b, side, GainAfter(t, b, side, g, rs[..n]), rs[n]);
        { StepIsFactor(t, b, side, GainAfter(t, b, side, g, rs[..n]), rs[n]); }
        Mul(GainAfter(t, b, side, g, rs[..n]), last);
        { GainAfterProduct(t, b, side, g, rs[..n]); }
        Mul(Mul(g, p), last);
        { MulAssoc(g, p, last); }
        Mul(g, Mul(p, last));
        Mul(g, ProductOf(t, b, side, rs));
      }
    }
  }

  /** A constant factor gives a power. */
  lemma {:induction false} ProductOfConstant(t: FilterTopology, b: Band, side: Side, rs: seq<Complex>, c: Complex)
    requires AllSteppable(t, b, side, rs)
    requires forall i :: 0 <= i < |rs| ==> Factor(t, b, side, rs[i]) == c
    ensures ProductOf(t, b, side, rs) == Pow(c, |rs|)
  {
    if |rs| > 0 {
      ProductOfConstant(t, b, side, rs[..|rs| - 1], c);
    }
  }

  /** The transformed gain is the prototype gain times one factor per zero
      and one per pole: 1/W and W for LOWPASS, -z and -1/p for HIGHPASS and
      NOTCH, 1/(2 dW) and 2 dW for BANDPASS. */
  lemma TransformedGainFactors(t: FilterTopology, zs: seq<Complex>, ps: seq<Complex>, g: real, b: Band)
    requires Transformable(t, zs, ps, b)
    ensures AllSteppable(t, b, Zeroes, zs) && AllSteppable(t, b, Poles, ps)
    ensures TransformedGain(t, zs, ps, g, b)
         == Mul(Mul(FromReal(g), ProductOf(t, b, Zeroes, zs)), ProductOf(t, b, Poles, ps))
  {
    GainAfterProduct(t, b, Zeroes, FromReal(g), zs);
    GainAfterProduct(t, b, Poles, GainAfter(t, b, Zeroes, FromReal(g), zs), ps);
  }

  /** In particular LOWPASS scales the gain by W^(#poles) / W^(#zeroes). */
  lemma LowpassGain(zs: seq<Complex>, ps: seq<Complex>, g: real, b: Band)
    requires Transformable(Lowpass, zs, ps, b) && b.W != 0.0
    ensures TransformedGain(Lowpass, zs, ps, g, b)
         == Mul(Mul(FromReal(g), Pow(Inv(FromReal(b.W)), |zs|)), Pow(FromReal(b.W), |ps|))
  {
    TransformedGainFactors(Lowpass, zs, ps, g, b);
    ProductOfConstant(Lowpass, b, Zeroes, zs, Inv(FromReal(b.W)));
    ProductOfConstant(Lowpass, b, Poles, ps, FromReal(b.W));
  }

  function Max(a: int, b: int): int { if a < b then b else a }

  // ---- counts ----

  lemma {:induction false} ImagesLength(t: FilterTopology, b: Band, csqrt: Complex -> Complex, rs: seq<Complex>)
    requires t == Highpass || t == Notch ==> AllNonzero(rs)
    ensures |Images(t, b, csqrt, rs)| == Width(t) * |rs|
  {
    if |rs| > 0 {
      var n := |rs| - 1;
      ImagesLength(t, b, csqrt, rs[..n]);
      assert Width(t) * n + Width(t) == Width(t) * |rs|;
    }
  }

  lemma {:induction false} RepeatLength(k: int, v: seq<Complex>)
    ensures |Repeat(k, v)| == if k <= 0 then 0 else k * |v|
    decreases k
  {
    if k > 0 {
      RepeatLength(k - 1, v);
      assert (k - 1) * |v| + |v| == k * |v|;
    }
  }

  /** The sizes of the new root lists: LOWPASS keeps the count, HIGHPASS pads
      to the larger count, BANDPASS doubles each root and pads with zeros,
      NOTCH doubles both the roots and the padding. */
  lemma TransformedRootCount(t: FilterTopology, own: seq<Complex>, other: seq<Complex>, b: Band,
                             csqrt: Complex -> Complex)
    requires t == Highpass || t == Notch ==> AllNonzero(own)
    ensures |TransformedRoots(t, own, other, b, csqrt)| ==
      match t
      case Lowpass => |own|
      case Highpass => Max(|own|, |other|)
      case Bandpass => 2 * |own| + Max(0, |other| - |own|)
      case Notch => 2 * Max(|own|, |other|)
  {
    ImagesLength(t, b, csqrt, own);
    RepeatLength(|other| - |own|, PadOf(t, b, csqrt));
  }

  /** Each root of the prototype becomes the image the topology gives it, in
      order, and the padding follows. */
  lemma {:induction false} ImagesAt(t: FilterTopology, b: Band, csqrt: Complex -> Complex, rs: seq<Complex>,
                                    i: int, j: int)
    requires t == Highpass || t == Notch ==> AllNonzero(rs)
    requires 0 <= i < |rs| && 0 <= j < Width(t)
    ensures |Images(t, b, csqrt, rs)| == Width(t) * |rs|
    ensures Images(t, b, csqrt, rs)[Width(t) * i + j] == RootImage(t, b, csqrt, rs[i])[j]
  {
    var k := Width(t);
    ImagesLength(t, b, csqrt, rs);
    var n := |rs| - 1;
    var pre := Images(t, b, csqrt, rs[..n]);
    ImagesLength(t, b, csqrt, rs[..n]);
    assert Images(t, b, csqrt, rs) == pre + RootImage(t, b, csqrt, rs[n]);
    if i < n {
      ImagesAt(t, b, csqrt, rs[..n], i, j);
      assert rs[..n][i] == rs[i];
      SlotBelow(k, i, j, n);
    } else {
      assert k * i + j - |pre| == j;
    }
  }

  /** Slot j of block i lies before block n when i < n. */
  lemma SlotBelow(k: nat, i: nat, j: nat, n: nat)
    requires j < k && i < n
    ensures k * i + j < k * n
  {
    var m: nat := n - i - 1;
    calc {
      k * n;
      k * (i + m + 1);
      k * i + k * m + k;
    >= { NatProduct(k, m); }
      k * i + k;
    }
  }

  lemma NatProduct(k: nat, m: nat)
    ensures k * m >= 0
  {
  }

  // ---- the bilinear map ----

  /** (1 + r) / (1 - r), the z-plane image of an s-plane root. */
  function Bilinear(r: Complex): Complex
    requires r != One
  {
    Div(Add(One, r), Sub(One, r))
  }

  predicate NoneAtOne(rs: seq<Complex>)
  {
    One !in rs
  }

  /** What bilinearTransform needs of one list transform builds, root by root:
      no root's image and no padding entry is 1. */
  predicate Digitisable(t: FilterTopology, own: seq<Complex>, other: seq<Complex>, b: Band,
                        csqrt: Complex -> Complex)
  {
    && (t == Highpass || t == Notch ==> AllNonzero(own))
    && (forall i :: 0 <= i < |own| ==> One !in RootImage(t, b, csqrt, own[i]))
    && (t != Lowpass && |own| < |other| ==> One !in PadOf(t, b, csqrt))
  }

  /** x is pushed for the roots rs exactly when it is in the image of one of them. */
  lemma {:induction false} InImages(t: FilterTopology, b: Band, csqrt: Complex -> Complex, rs: seq<Complex>,
                                    x: Complex)
    requires t == Highpass || t == Notch ==> AllNonzero(rs)
    ensures x in Images(t, b, csqrt, rs) <==> exists i :: 0 <= i < |rs| && x in RootImage(t, b, csqrt, rs[i])
  {
    if |rs| > 0 {
      var n := |rs| - 1;
      InImages(t, b, csqrt, rs[..n], x);
      if x in Images(t, b, csqrt, rs[..n]) {
        var i :| 0 <= i < n && x in RootImage(t, b, csqrt, rs[..n][i]);
        assert rs[..n][i] == rs[i];
      }
      if exists i :: 0 <= i < |rs| && x in RootImage(t, b, csqrt, rs[i]) {
        var i :| 0 <= i < |rs| && x in RootImage(t, b, csqrt, rs[i]);
        if i < n {
          assert rs[..n][i] == rs[i];
        }
      }
    }
  }

  /** x is in k copies of v exactly when k > 0 and x is in v. */
  lemma {:induction false} InRepeat(k: int, v: seq<Complex>, x: Complex)
    ensures x in Repeat(k, v) <==> k > 0 && x in v
    decreases k
  {
    if k > 0 {
      InRepeat(k - 1, v, x);
    }
  }

  /** A list transform builds avoids 1 exactly when it does so root by root. */
  lemma DigitisableIff(t: FilterTopology, own: seq<Complex>, other: seq<Complex>, b: Band,
                       csqrt: Complex -> Complex)
    requires t == Highpass || t == Notch ==> AllNonzero(own)
    ensures Digitisable(t, own, other, b, csqrt) <==> NoneAtOne(TransformedRoots(t, own, other, b, csqrt))
  {
    InImages(t, b, csqrt, own, One);
    InRepeat(|other| - |own|, PadOf(t, b, csqrt), One);
  }

  /** digi_zeroes / digi_poles: n entries, the images of the roots followed by -1. */
  function DigiRoots(rs: seq<Complex>, n: nat): (d: seq<Complex>)
    requires NoneAtOne(rs)
    ensures |d| == n
  {
    seq(n, i requires 0 <= i < n => if i < |rs| then Bilinear(rs[i]) else MinusOne)
  }

  /** The bilinear map is invertible: r = (d - 1) / (d + 1), and d is never -1. */
  lemma BilinearInverse(r: Complex)
    requires r != One
    ensures Add(Bilinear(r), One) != Zero
    ensures Div(Sub(Bilinear(r), One), Add(Bilinear(r), One)) == r
  {
    var d := Bilinear(r);
    var m := Mul(d, r);
    assert Mul(d, Sub(One, r)) == Add(One, r);
    MulSubDistrib(d, One, r);
    MulOne(d);
    assert Sub(d, m) == Add(One, r);
    MulAddDistrib(r, d, One);
    MulComm(r, d);
    MulOne(r);
    assert Sub(d, One) == Mul(r, Add(d, One));
    if Add(d, One) == Zero {
      MulZero(r);
      assert false;
    }
    DivUnique(Sub(d, One), Add(d, One), r);
  }

  /** Hence a digital root is -1 exactly where it is padding. */
  lemma DigiRootIsPadding(rs: seq<Complex>, n: nat, i: int)
    requires NoneAtOne(rs) && 0 <= i < n
    ensures DigiRoots(rs, n)[i] == MinusOne <==> i >= |rs|
  {
    if i < |rs| {
      BilinearInverse(rs[i]);
    }
  }

  /** The digital gain after the first i steps of bilinearTransform's loop. */
  function BilinearGain(g: real, zs: seq<Complex>, ps: seq<Complex>, i: nat): Complex
    requires NoneAtOne(zs) && NoneAtOne(ps)
  {
    if i == 0 then FromReal(g)
    else
      var prev := BilinearGain(g, zs, ps, i - 1);
      var withZero := if i - 1 < |zs| then Mul(prev, Sub(One, zs[i - 1])) else prev;
      if i - 1 < |ps| then Div(withZero, Sub(One, ps[i - 1])) else withZero
  }

  function Min(a: int, b: int): int { if a < b then a else b }

  /** The digital gain times the product of (1 - pole) is the analog gain times
      the product of (1 - zero), over the roots visited so far. */
  lemma {:induction false} BilinearGainProducts(g: real, zs: seq<Complex>, ps: seq<Complex>, i: nat)
    requires NoneAtOne(zs) && NoneAtOne(ps)
    ensures Mul(BilinearGain(g, zs, ps, i), ProdLinear(ps[..Min(i, |ps|)], One))
         == Mul(FromReal(g), ProdLinear(zs[..Min(i, |zs|)], One))
  {
    if i == 0 {
      MulOne(FromReal(g));
    } else {
      BilinearGainProducts(g, zs, ps, i - 1);
      ProdLinearStep(zs, i);
      ProdLinearStep(ps, i);
      var prev := BilinearGain(g, zs, ps, i - 1);
      var P := ProdLinear(zs[..Min(i - 1, |zs|)], One);
      var Q := ProdLinear(ps[..Min(i - 1, |ps|)], One);
      var withZero := if i - 1 < |zs| then Mul(prev, Sub(One, zs[i - 1])) else prev;
      assert Mul(withZero, Q) == Mul(FromReal(g), ProdLinear(zs[..Min(i, |zs|)], One)) by {
        if i - 1 < |zs| {
          MulSwap(prev, Sub(One, zs[i - 1]), Q);
          MulAssoc(FromReal(g), P, Sub(One, zs[i - 1]));
        }
      }
      if i - 1 < |ps| {
        DivTimes(withZero, Sub(One, ps[i - 1]), Q);
      }
    }
  }

  /** Widening the visited prefix by one root multiplies the product by (1 - root). */
  lemma ProdLinearStep(rs: seq<Complex>, i: nat)
    requires i >= 1
    ensures ProdLinear(rs[..Min(i, |rs|)], One)
         == if i - 1 < |rs| then Mul(ProdLinear(rs[..Min(i - 1, |rs|)], One), Sub(One, rs[i - 1]))
            else ProdLinear(rs[..Min(i - 1, |rs|)], One)
  {
    if i - 1 < |rs| {
      assert rs[..Min(i, |rs|)][..Min(i - 1, |rs|)] == rs[..Min(i - 1, |rs|)];
    } else {
      assert rs[..Min(i, |rs|)] == rs[..Min(i - 1, |rs|)];
    }
  }

  /** (x * a) * q == (x * q) * a. */
  lemma MulSwap(x: Complex, a: Complex, q: Complex)
    ensures Mul(Mul(x, a), q) == Mul(Mul(x, q), a)
  {
    MulAssoc(x, a, q);
    MulComm(a, q);
    MulAssoc(x, q, a);
  }

  /** (w / c) * (q * c) == w * q. */
  lemma DivTimes(w: Complex, c: Complex, q: Complex)
    requires c != Zero
    ensures Mul(Div(w, c), Mul(q, c)) == Mul(w, q)
  {
    var d := Div(w, c);
    calc {
      Mul(d, Mul(q, c));
      { MulComm(q, c); }
      Mul(d, Mul(c, q));
      { MulAssoc(d, c, q); }
      Mul(Mul(d, c), q);
      Mul(w, q);
    }
  }

  // ---- the b/a coefficients ----

  /** The real parts of g * c, in reverse order: b[i] = re(g * c[|c|-1-i]). */
  function ReversedReal(g: Complex, c: seq<Complex>): (r: seq<real>)
    ensures |r| == |c|
  {
    seq(|c|, i requires 0 <= i < |c| => Mul(g, c[|c| - 1 - i]).re)
  }

  /** The coefficient loop of computeCoeffsFromDigiPoles. */
  method ReverseCoefficients(g: Complex, p: array<Complex>, n: nat) returns (r: seq<real>)
    requires p.Length >= n + 1
    ensures r == ReversedReal(g, p[..n + 1])
  {
    r := seq(n + 1, _ => 0.0);
    for i := 0 to n + 1
      invariant |r| == n + 1
      invariant forall k :: 0 <= k < i ==> r[k] == Mul(g, p[n - k]).re
    {
      r := r[i := Mul(g, p[n - i]).re];
    }
  }

  /** poly followed by the coefficient loop, for one of the two root lists. */
  method ExpandReversed(g: Complex, n: nat, roots: seq<Complex>) returns (r: seq<real>)
    requires 1 <= n <= |roots|
    ensures r == ReversedReal(g, PolyCoeffs(roots[..n]))
  {
    var rs := new Complex[n](i requires 0 <= i < n => roots[i]);
    var expanded := new Complex[n + 1](_ => Zero);
    assert rs[..n] == roots[..n];
    Poly(n, rs, expanded);
    r := ReverseCoefficients(g, expanded, n);
  }

  /** The expanded digital polynomials, reversed: b starts with re(g), a with 1,
      and the last entries are the (scaled) products of the negated roots. */
  lemma ReversedPolyEnds(g: Complex, roots: seq<Complex>)
    ensures var r := ReversedReal(g, PolyCoeffs(roots));
      |r| == |roots| + 1 && r[0] == g.re && r[|roots|] == Mul(g, ProdNeg(roots)).re
  {
    PolyMonic(roots);
    PolyConstantTerm(roots);
    MulOne(g);
  }

  /** The loops of transform, on the root lists and the gain. */
  method TransformRoots(t: FilterTopology, zs: seq<Complex>, ps: seq<Complex>, gain: real, b: Band,
                        csqrt: Complex -> Complex)
    returns (newZeroes: seq<Complex>, newPoles: seq<Complex>, newGain: Complex)
    requires Transformable(t, zs, ps, b)
    ensures newZeroes == TransformedRoots(t, zs, ps, b, csqrt)
    ensures newPoles == TransformedRoots(t, ps, zs, b, csqrt)
    ensures newGain == TransformedGain(t, zs, ps, gain, b)
  {
    var g;
    newZeroes, g := TransformList(t, zs, ps, b, csqrt, FromReal(gain), Zeroes);
    newPoles, newGain := TransformList(t, ps, zs, b, csqrt, g, Poles);
  }

  /** One root list's loops: its images, then its padding up to the other list's size. */
  method TransformList(t: FilterTopology, own: seq<Complex>, other: seq<Complex>, b: Band,
                       csqrt: Complex -> Complex, g: Complex, side: Side)
    returns (roots: seq<Complex>, g': Complex)
    requires t == Highpass || t == Notch ==> AllNonzero(own)
    requires AllSteppable(t, b, side, own)
    ensures roots == TransformedRoots(t, own, other, b, csqrt)
    ensures g' == GainAfter(t, b, side, g, own)
  {
    roots, g' := PushImages([], g, t, b, csqrt, side, own);
    assert roots == Images(t, b, csqrt, own);
    if t != Lowpass {
      roots := PushPadding(roots, |own|, |other|, PadOf(t, b, csqrt));
    }
  }

  /** The loop of bilinearTransform: both lists padded with -1 to the larger
      count and mapped into the z-plane, and the digital gain accumulated. */
  method DigitiseRoots(zs: seq<Complex>, ps: seq<Complex>, g: real)
    returns (dz: seq<Complex>, dp: seq<Complex>, dg: Complex)
    requires NoneAtOne(zs) && NoneAtOne(ps)
    ensures dz == DigiRoots(zs, Max(|zs|, |ps|)) && dp == DigiRoots(ps, Max(|zs|, |ps|))
    ensures dg == BilinearGain(g, zs, ps, Max(|zs|, |ps|))
  {
    var n := Max(|zs|, |ps|);
    dp := seq(n, _ => Zero);
    dz := seq(n, _ => Zero);
    dg := FromReal(g);
    for i := 0 to n
      invariant |dp| == n && |dz| == n
      invariant dg == BilinearGain(g, zs, ps, i)
      invariant forall k :: 0 <= k < i ==> dp[k] == DigiRoots(ps, n)[k]
      invariant forall k :: 0 <= k < i ==> dz[k] == DigiRoots(zs, n)[k]
    {
      if i < |zs| {
        dg := Mul(dg, Sub(One, zs[i]));
      }
      if i < |ps| {
        dg := Div(dg, Sub(One, ps[i]));
      }
      dp := dp[i := if i < |ps| then Bilinear(ps[i]) else MinusOne];
      dz := dz[i := if i < |zs| then Bilinear(zs[i]) else MinusOne];
    }
  }

  /** RCFilter: a single pole at -1 with unit gain, transformed and digitised. */
  method RC(t: FilterTopology, w: real, dw: real, tan: real -> real, csqrt: Complex -> Complex)
    returns (f: TransformedZpkFilter)
    requires Transformable(t, [], [MinusOne], Prewarped(w, dw, tan))
    requires Digitisable(t, [], [MinusOne], Prewarped(w, dw, tan), csqrt)
    requires Digitisable(t, [MinusOne], [], Prewarped(w, dw, tan), csqrt)
    ensures fresh(f)
    ensures f.order == 1
    ensures f.zeroes == TransformedRoots(t, [], [MinusOne], Prewarped(w, dw, tan), csqrt)
    ensures f.poles == TransformedRoots(t, [MinusOne], [], Prewarped(w, dw, tan), csqrt)
    ensures f.gain == TransformedGain(t, [], [MinusOne], 1.0, Prewarped(w, dw, tan)).re
    ensures f.Digitised()
    ensures |f.acoeffs| == |f.digiPoles| + 1 && f.acoeffs[0] == 1.0
    ensures |f.bcoeffs| == |f.digiZeroes| + 1 && |f.digiZeroes| == |f.digiPoles|
  {
    f := new TransformedZpkFilter.Design(t, 1, [], [MinusOne], 1.0, w, dw, tan, csqrt);
  }

  /** An IIR filter designed from zeroes, poles and a gain. */
  class TransformedZpkFilter {
    var order: nat
    var zeroes: seq<Complex>
    var poles: seq<Complex>
    var gain: real
    var digiZeroes: seq<Complex>
    var digiPoles: seq<Complex>
    var digiGain: Complex
    var acoeffs: seq<real>
    var bcoeffs: seq<real>

    /** The digital design is the bilinear image of the analog one: every
        root is mapped into the z-plane and both lists are padded with -1,
        the gain is the real part of the accumulated digital gain, and b and
        a are the reversed expansions of the digital zeroes and poles. */
    predicate Digitised()
      reads this
    {
      && NoneAtOne(zeroes) && NoneAtOne(poles)
      && digiZeroes == DigiRoots(zeroes, Max(|zeroes|, |poles|))
      && digiPoles == DigiRoots(poles, Max(|zeroes|, |poles|))
      && digiGain == FromReal(BilinearGain(gain, zeroes, poles, Max(|zeroes|, |poles|)).re)
      && bcoeffs == ReversedReal(digiGain, PolyCoeffs(digiZeroes))
      && acoeffs == ReversedReal(One, PolyCoeffs(digiPoles))
    }

    /** A filter designed from an analog prototype of order n: the prototype
        is stored, transformed and digitised. */
    constructor Design(t: FilterTopology, n: nat, zs: seq<Complex>, ps: seq<Complex>, g: real,
                       w: real, dw: real, tan: real -> real, csqrt: Complex -> Complex)
      requires |zs| >= 1 || |ps| >= 1
      requires Transformable(t, zs, ps, Prewarped(w, dw, tan))
      requires Digitisable(t, zs, ps, Prewarped(w, dw, tan), csqrt)
      requires Digitisable(t, ps, zs, Prewarped(w, dw, tan), csqrt)
      ensures order == n
      ensures zeroes == TransformedRoots(t, zs, ps, Prewarped(w, dw, tan), csqrt)
      ensures poles == TransformedRoots(t, ps, zs, Prewarped(w, dw, tan), csqrt)
      ensures gain == TransformedGain(t, zs, ps, g, Prewarped(w, dw, tan)).re
      ensures Digitised()
      ensures |acoeffs| == |digiPoles| + 1 && acoeffs[0] == 1.0
      ensures |bcoeffs| == |digiZeroes| + 1 && |digiZeroes| == |digiPoles|
    {
      order, zeroes, poles, gain := n, zs, ps, g;
      digiZeroes, digiPoles, digiGain := [], [], Zero;
      acoeffs, bcoeffs := [], [];
      new;
      TransformAndDigitise(t, w, dw, tan, csqrt);
    }

    /** The tail every designed filter shares: transform, then bilinearTransform. */
    method TransformAndDigitise(t: FilterTopology, w: real, dw: real, tan: real -> real, csqrt: Complex -> Complex)
      requires Transformable(t, zeroes, poles, Prewarped(w, dw, tan))
      requires Digitisable(t, zeroes, poles, Prewarped(w, dw, tan), csqrt)
      requires Digitisable(t, poles, zeroes, Prewarped(w, dw, tan), csqrt)
      requires |zeroes| >= 1 || |poles| >= 1
      modifies this
      ensures order == old(order)
      ensures zeroes == TransformedRoots(t, old(zeroes), old(poles), Prewarped(w, dw, tan), csqrt)
      ensures poles == TransformedRoots(t, old(poles), old(zeroes), Prewarped(w, dw, tan), csqrt)
      ensures gain == TransformedGain(t, old(zeroes), old(poles), old(gain), Prewarped(w, dw, tan)).re
      ensures Digitised()
      ensures |acoeffs| == |digiPoles| + 1 && acoeffs[0] == 1.0 && |bcoeffs| == |digiZeroes| + 1
    {
      ghost var b := Prewarped(w, dw, tan);
      ghost var zs, ps := zeroes, poles;
      Transform(t, w, dw, tan, csqrt);
      TransformedRootCount(t, zs, ps, b, csqrt);
      TransformedRootCount(t, ps, zs, b, csqrt);
      DigitisableIff(t, zs, ps, b, csqrt);
      DigitisableIff(t, ps, zs, b, csqrt);
      BilinearTransform();
    }

    /** transform: replaces zeroes, poles and gain by their images under the
        topology t; nothing else changes. */
    method Transform(t: FilterTopology, w: real, dw: real, tan: real -> real, csqrt: Complex -> Complex)
      requires Transformable(t, zeroes, poles, Prewarped(w, dw, tan))
      modifies this
      ensures var b := Prewarped(w, dw, tan);
        && zeroes == TransformedRoots(t, old(zeroes), old(poles), b, csqrt)
        && poles == TransformedRoots(t, old(poles), old(zeroes), b, csqrt)
        && gain == TransformedGain(t, old(zeroes), old(poles), old(gain), b).re
      ensures order == old(order) && digiZeroes == old(digiZeroes) && digiPoles == old(digiPoles)
      ensures digiGain == old(digiGain) && acoeffs == old(acoeffs) && bcoeffs == old(bcoeffs)
    {
      var newZeroes, newPoles, newGain := TransformRoots(t, zeroes, poles, gain, Prewarped(w, dw, tan), csqrt);
      Store(newZeroes, newPoles, newGain.re);
    }

    /** Replaces the digital roots and gain. */
    method StoreDigital(dz: seq<Complex>, dp: seq<Complex>, dg: Complex)
      modifies this
      ensures digiZeroes == dz && digiPoles == dp && digiGain == dg
      ensures order == old(order) && zeroes == old(zeroes) && poles == old(poles) && gain == old(gain)
      ensures acoeffs == old(acoeffs) && bcoeffs == old(bcoeffs)
    {
      digiZeroes, digiPoles, digiGain := dz, dp, dg;
    }

    /** Replaces the analog design. */
    method Store(zs: seq<Complex>, ps: seq<Complex>, g: real)
      modifies this
      ensures zeroes == zs && poles == ps && gain == g
      ensures order == old(order) && digiZeroes == old(digiZeroes) && digiPoles == old(digiPoles)
      ensures digiGain == old(digiGain) && acoeffs == old(acoeffs) && bcoeffs == old(bcoeffs)
    {
      zeroes, poles, gain := zs, ps, g;
    }

    /** bilinearTransform: maps every root into the z-plane, pads both lists
        with -1 up to the larger count, accumulates the digital gain, and
        expands the digital roots into the coefficients. */
    method BilinearTransform()
      requires NoneAtOne(zeroes) && NoneAtOne(poles)
      requires |zeroes| >= 1 || |poles| >= 1
      modifies this
      ensures zeroes == old(zeroes) && poles == old(poles) && gain == old(gain) && order == old(order)
      ensures digiZeroes == DigiRoots(zeroes, Max(|zeroes|, |poles|))
      ensures digiPoles == DigiRoots(poles, Max(|zeroes|, |poles|))
      ensures digiGain == FromReal(BilinearGain(gain, zeroes, poles, Max(|zeroes|, |poles|)).re)
      ensures bcoeffs == ReversedReal(digiGain, PolyCoeffs(digiZeroes))
      ensures acoeffs == ReversedReal(One, PolyCoeffs(digiPoles))
      ensures |acoeffs| == |digiPoles| + 1 && acoeffs[0] == 1.0 && |bcoeffs| == |digiZeroes| + 1
    {
      var n := Max(|zeroes|, |poles|);
      var dz, dp, dg := DigitiseRoots(zeroes, poles, gain);
      StoreDigital(dz, dp, FromReal(dg.re));
      assert digiZeroes[..n] == digiZeroes && digiPoles[..n] == digiPoles;
      ComputeCoeffsFromDigiPoles(digiGain, n, digiZeroes, n, digiPoles);
      ReversedPolyEnds(One, digiPoles);
    }

    /** computeCoeffsFromDigiPoles: b[i] = re(g * bpoly[nzeroes - i]) and
        a[i] = re(apoly[npoles - i]), where bpoly and apoly are the expansions
        of the first nzeroes digital zeroes and npoles digital poles. */
    method ComputeCoeffsFromDigiPoles(g: Complex, nzeroes: nat, dz: seq<Complex>, npoles: nat, dp: seq<Complex>)
      requires 1 <= nzeroes <= |dz| && 1 <= npoles <= |dp|
      modifies this
      ensures bcoeffs == ReversedReal(g, PolyCoeffs(dz[..nzeroes]))
      ensures acoeffs == ReversedReal(One, PolyCoeffs(dp[..npoles]))
      ensures zeroes == old(zeroes) && poles == old(poles) && gain == old(gain) && order == old(order)
      ensures digiZeroes == old(digiZeroes) && digiPoles == old(digiPoles) && digiGain == old(digiGain)
    {
      bcoeffs := ExpandReversed(g, nzeroes, dz);
      acoeffs := ExpandReversed(One, npoles, dp);
    }
  }
}
