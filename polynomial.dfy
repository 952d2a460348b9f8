/** Expansion of a list of roots into polynomial coefficients, as the static
    helper `poly` of DigitalFilter.cxx does it: coefficients are indexed by
    power, so coefficient k multiplies x^k. */
module Polynomial {
  import opened ComplexNumbers

  /** The coefficients of c(x) * (x - r), given those of c(x): entry j is
      c[j-1] - c[j]*r, where a missing c[j-1] or c[j] counts as zero. */
  function MulRoot(c: seq<Complex>, r: Complex): (m: seq<Complex>)
    ensures |m| == |c| + 1
  {
    seq(|c| + 1, j requires 0 <= j <= |c| =>
      Sub(if j > 0 then c[j - 1] else Zero, if j < |c| then Mul(c[j], r) else Zero))
  }

  /** The coefficients of (x - roots[0]) * ... * (x - roots[n-1]); the empty
      product is the constant polynomial 1. */
  function PolyCoeffs(roots: seq<Complex>): (c: seq<Complex>)
    ensures |c| == |roots| + 1
  {
    if |roots| == 0 then [One]
    else MulRoot(PolyCoeffs(roots[..|roots| - 1]), roots[|roots| - 1])
  }

  /** The product of -roots[i]. */
  function ProdNeg(roots: seq<Complex>): Complex
  {
    if |roots| == 0 then One
    else Mul(ProdNeg(roots[..|roots| - 1]), Neg(roots[|roots| - 1]))
  }

  /** The product of (x - roots[i]). */
  function ProdLinear(roots: seq<Complex>, x: Complex): Complex
  {
    if |roots| == 0 then One
    else Mul(ProdLinear(roots[..|roots| - 1], x), Sub(x, roots[|roots| - 1]))
  }

  /** The value at x of the polynomial with coefficients c (Horner's rule). */
  function Eval(c: seq<Complex>, x: Complex): Complex
  {
    if |c| == 0 then Zero else Add(c[0], Mul(x, Eval(c[1..], x)))
  }

  /** Expands roots[..n] into coeffs[..n+1] in place, one root at a time.
      With n = 0 the source reads roots[0] and writes coeffs[1] past the end
      of its one-entry buffer, hence n >= 1. */
  method Poly(n: nat, zeroes: array<Complex>, coeffs: array<Complex>)
    requires n >= 1 && zeroes.Length >= n && coeffs.Length >= n + 1 && coeffs != zeroes
    modifies coeffs
    ensures coeffs[..n + 1] == PolyCoeffs(zeroes[..n])
    ensures coeffs[n + 1..] == old(coeffs[n + 1..])
  {
    SetFirstRoot(coeffs, zeroes[0]);
    assert zeroes[..1] == [zeroes[0]];
    for i := 1 to n
      invariant coeffs[..i + 1] == PolyCoeffs(zeroes[..i])
      invariant coeffs[n + 1..] == old(coeffs[n + 1..])
    {
      MulRootInPlace(coeffs, i + 1, zeroes[i]);
      assert zeroes[..i + 1][..i] == zeroes[..i];
    }
  }

  /** The first step of poly: coeffs[..2] becomes -r + x. */
  method SetFirstRoot(coeffs: array<Complex>, r: Complex)
    requires coeffs.Length >= 2
    modifies coeffs
    ensures coeffs[..2] == PolyCoeffs([r])
    ensures coeffs[2..] == old(coeffs[2..])
  {
    coeffs[0] := Neg(r);
    coeffs[1] := One;
    PolyOfOneRoot(r);
  }

  /** Multiplies the polynomial held in coeffs[..len] by (x - r), writing
      coeffs[..len+1]. The sweep descends j = len, ..., 0, so coeffs[j-1] is
      still the old coefficient when coeffs[j] is overwritten. */
  method MulRootInPlace(coeffs: array<Complex>, len: nat, r: Complex)
    requires coeffs.Length >= len + 1
    modifies coeffs
    ensures coeffs[..len + 1] == MulRoot(old(coeffs[..len]), r)
    ensures coeffs[len + 1..] == old(coeffs[len + 1..])
  {
    ghost var prev := coeffs[..len];
    var j := len;
    while true
      invariant 0 <= j <= len
      invariant forall k :: 0 <= k <= j && k < len ==> coeffs[k] == prev[k]
      invariant forall k :: j < k <= len ==> coeffs[k] == MulRoot(prev, r)[k]
      invariant coeffs[len + 1..] == old(coeffs[len + 1..])
      decreases j
    {
      coeffs[j] := Sub(if j > 0 then coeffs[j - 1] else Zero,
                       if j < len then Mul(coeffs[j], r) else Zero);
      if j == 0 {
        break;
      }
      j := j - 1;
    }
  }

  // ---- properties of the expansion ----

  /** A single root r expands to -r + x. */
  lemma PolyOfOneRoot(r: Complex)
    ensures PolyCoeffs([r]) == [Neg(r), One]
  {
    assert [r][..0] == [];
    var m := MulRoot([One], r);
    assert m[0] == Sub(Zero, Mul(One, r));
    MulOne(r);
    assert m[1] == Sub(One, Zero);
  }

  /** The expansion is monic: its top coefficient is 1. */
  lemma {:induction false} PolyMonic(roots: seq<Complex>)
    ensures PolyCoeffs(roots)[|roots|] == One
  {
    if |roots| > 0 {
      var c := PolyCoeffs(roots[..|roots| - 1]);
      PolyMonic(roots[..|roots| - 1]);
      assert MulRoot(c, roots[|roots| - 1])[|c|] == Sub(c[|c| - 1], Zero);
    }
  }

  /** Its constant coefficient is the product of the negated roots. */
  lemma {:induction false} PolyConstantTerm(roots: seq<Complex>)
    ensures PolyCoeffs(roots)[0] == ProdNeg(roots)
  {
    if |roots| > 0 {
      var c := PolyCoeffs(roots[..|roots| - 1]);
      var r := roots[|roots| - 1];
      PolyConstantTerm(roots[..|roots| - 1]);
      SubZeroMulIsMulNeg(c[0], r);
    }
  }

  lemma SubZeroMulIsMulNeg(a: Complex, r: Complex)
    ensures Sub(Zero, Mul(a, r)) == Mul(a, Neg(r))
  {
  }

  /** The expansion is the product of the linear factors (x - root). */
  lemma {:induction false} PolyEval(roots: seq<Complex>, x: Complex)
    ensures Eval(PolyCoeffs(roots), x) == ProdLinear(roots, x)
  {
    if |roots| == 0 {
      calc {
        Eval([One], x);
        Add(One, Mul(x, Eval([], x)));
        { MulZero(x); }
        One;
      }
    } else {
      var pre := roots[..|roots| - 1];
      var r := roots[|roots| - 1];
      PolyEval(pre, x);
      EvalMulRoot(PolyCoeffs(pre), r, x);
    }
  }

  /** Hence every root is a zero of the expanded polynomial. */
  lemma PolyVanishesAtRoots(roots: seq<Complex>, i: int)
    requires 0 <= i < |roots|
    ensures Eval(PolyCoeffs(roots), roots[i]) == Zero
  {
    PolyEval(roots, roots[i]);
    ProdLinearVanishes(roots, i);
  }

  lemma {:induction false} ProdLinearVanishes(roots: seq<Complex>, i: int)
    requires 0 <= i < |roots|
    ensures ProdLinear(roots, roots[i]) == Zero
  {
    var pre := roots[..|roots| - 1];
    var x := roots[i];
    if i == |roots| - 1 {
      MulZero(ProdLinear(pre, x));
    } else {
      assert pre[i] == x;
      ProdLinearVanishes(pre, i);
      MulZero(Sub(x, roots[|roots| - 1]));
    }
  }

  // ---- evaluation is linear and respects the shift/scale decomposition ----

  /** Pointwise difference of two coefficient lists of equal length. */
  function PointSub(p: seq<Complex>, q: seq<Complex>): (d: seq<Complex>)
    requires |p| == |q|
    ensures |d| == |p|
  {
    seq(|p|, j requires 0 <= j < |p| => Sub(p[j], q[j]))
  }

  /** The coefficients of c(x) * r, with a zero appended on top. */
  function ScaleExt(c: seq<Complex>, r: Complex): (s: seq<Complex>)
    ensures |s| == |c| + 1
  {
    seq(|c| + 1, j requires 0 <= j <= |c| => if j < |c| then Mul(c[j], r) else Zero)
  }

  lemma MulRootSplit(c: seq<Complex>, r: Complex)
    ensures MulRoot(c, r) == PointSub([Zero] + c, ScaleExt(c, r))
  {
  }

  lemma {:induction false} EvalPointSub(p: seq<Complex>, q: seq<Complex>, x: Complex)
    requires |p| == |q|
    ensures Eval(PointSub(p, q), x) == Sub(Eval(p, x), Eval(q, x))
  {
    if |p| > 0 {
      assert PointSub(p, q)[1..] == PointSub(p[1..], q[1..]);
      EvalPointSub(p[1..], q[1..], x);
      MulSubDistrib(x, Eval(p[1..], x), Eval(q[1..], x));
    }
  }

  lemma EvalShift(c: seq<Complex>, x: Complex)
    ensures Eval([Zero] + c, x) == Mul(x, Eval(c, x))
  {
    assert ([Zero] + c)[1..] == c;
  }

  lemma {:induction false} EvalScaleExt(c: seq<Complex>, r: Complex, x: Complex)
    ensures Eval(ScaleExt(c, r), x) == Mul(Eval(c, x), r)
  {
    var s := ScaleExt(c, r);
    if |c| == 0 {
      assert s[1..] == [];
      MulZero(x);
      MulZero(r);
    } else {
      var e := Eval(c[1..], x);
      assert s[1..] == ScaleExt(c[1..], r);
      calc {
        Eval(s, x);
        Add(s[0], Mul(x, Eval(s[1..], x)));
        { EvalScaleExt(c[1..], r, x); }
        Add(Mul(c[0], r), Mul(x, Mul(e, r)));
        { MulAssoc(x, e, r); }
        Add(Mul(c[0], r), Mul(Mul(x, e), r));
        { MulAddDistribRight(c[0], Mul(x, e), r); }
        Mul(Add(c[0], Mul(x, e)), r);
      }
    }
  }

  lemma MulAddDistribRight(a: Complex, b: Complex, r: Complex)
    ensures Add(Mul(a, r), Mul(b, r)) == Mul(Add(a, b), r)
  {
    MulComm(a, r);
    MulComm(b, r);
    MulComm(Add(a, b), r);
    MulAddDistrib(r, a, b);
  }

  /** Appending a top coefficient v adds v * x^|p| to the value. */
  lemma {:induction false} EvalAppend(p: seq<Complex>, v: Complex, x: Complex)
    ensures Eval(p + [v], x) == Add(Eval(p, x), Mul(Pow(x, |p|), v))
  {
    if |p| == 0 {
      assert ([] + [v])[1..] == [];
      MulZero(x);
      MulOne(v);
    } else {
      var q := p[1..];
      var e := Eval(q, x);
      var pw := Pow(x, |q|);
      assert (p + [v])[1..] == q + [v];
      EvalAppend(q, v, x);
      MulAddDistrib(x, e, Mul(pw, v));
      MulAssoc(x, pw, v);
      MulComm(x, pw);
    }
  }

  /** Evaluating c(x) * (x - r) gives c's value times (x - r). */
  lemma EvalMulRoot(c: seq<Complex>, r: Complex, x: Complex)
    ensures Eval(MulRoot(c, r), x) == Mul(Eval(c, x), Sub(x, r))
  {
    var e := Eval(c, x);
    MulRootSplit(c, r);
    EvalPointSub([Zero] + c, ScaleExt(c, r), x);
    EvalShift(c, x);
    EvalScaleExt(c, r, x);
    MulComm(x, e);
    MulSubDistrib(e, x, r);
  }
}
