/** Exact complex arithmetic over `real`, standing in for std::complex<double>.
    Only the ring operations and division by a nonzero value are defined here;
    transcendental functions (sqrt, exp, arg) are supplied by callers as oracles. */
module ComplexNumbers {

  datatype Complex = Complex(re: real, im: real)

  const Zero: Complex := Complex(0.0, 0.0)
  const One: Complex := Complex(1.0, 0.0)

  /** TMath::Pi() as the double it rounds to. */
  const Pi: real := 3.141592653589793

  /** The complex number with real part `x` and no imaginary part. */
  function FromReal(x: real): Complex { Complex(x, 0.0) }

  function Add(a: Complex, b: Complex): Complex { Complex(a.re + b.re, a.im + b.im) }

  function Sub(a: Complex, b: Complex): Complex { Complex(a.re - b.re, a.im - b.im) }

  function Neg(a: Complex): Complex { Complex(-a.re, -a.im) }

  function Mul(a: Complex, b: Complex): Complex {
    Complex(a.re * b.re - a.im * b.im, a.re * b.im + a.im * b.re)
  }

  /** x*x, kept behind a name so that proofs about it stay linear. */
  function Sq(x: real): real { x * x }

  /** Squared modulus |a|^2; positive away from `Zero`. */
  function NormSq(a: Complex): (r: real)
    ensures r >= 0.0
    ensures a != Zero ==> r > 0.0
  {
    SqNonneg(a.re);
    SqNonneg(a.im);
    if a.re != 0.0 then SqPositive(a.re); Sq(a.re) + Sq(a.im)
    else if a.im != 0.0 then SqPositive(a.im); Sq(a.re) + Sq(a.im)
    else Sq(a.re) + Sq(a.im)
  }

  /** The multiplicative inverse of a nonzero complex number. */
  function Inv(a: Complex): (r: Complex)
    requires a != Zero
    ensures Mul(a, r) == One
  {
    var n := NormSq(a);
    assert a.re * (a.re / n) - a.im * (-a.im / n) == n / n == 1.0;
    assert a.re * (-a.im / n) + a.im * (a.re / n) == 0.0;
    Complex(a.re / n, -a.im / n)
  }

  /** a / b, the complex quotient. */
  function Div(a: Complex, b: Complex): (r: Complex)
    requires b != Zero
    ensures Mul(r, b) == a
  {
    InvCancels(a, b);
    Mul(a, Inv(b))
  }

  /** z^e for an integer exponent, as std::pow(complex, int); a negative exponent needs z != 0. */
  function Pow(z: Complex, e: int): Complex
    requires e < 0 ==> z != Zero
    decreases if e < 0 then -e else e, if e < 0 then 1 else 0
  {
    if e == 0 then One
    else if e > 0 then Mul(Pow(z, e - 1), z)
    else Pow(Inv(z), -e)
  }

  lemma ProductPositive(x: real, y: real)
    requires x > 0.0 && y > 0.0
    ensures x * y > 0.0
  {
  }

  lemma SqPositive(x: real)
    requires x != 0.0
    ensures Sq(x) > 0.0
  {
    if x > 0.0 {
      calc {
        Sq(x);
        x * x;
      > { ProductPositive(x, x); }
        0.0;
      }
    } else {
      calc {
        Sq(x);
        (-x) * (-x);
      > { ProductPositive(-x, -x); }
        0.0;
      }
    }
  }

  lemma SqNonneg(x: real)
    ensures Sq(x) >= 0.0
  {
    if x != 0.0 { SqPositive(x); }
  }

  // ---- ring laws, used by the polynomial and transfer-function proofs ----

  lemma MulComm(a: Complex, b: Complex)
    ensures Mul(a, b) == Mul(b, a)
  {
  }

  lemma MulAssoc(a: Complex, b: Complex, c: Complex)
    ensures Mul(Mul(a, b), c) == Mul(a, Mul(b, c))
  {
    assert (a.re * b.re - a.im * b.im) * c.re - (a.re * b.im + a.im * b.re) * c.im
        == a.re * (b.re * c.re - b.im * c.im) - a.im * (b.re * c.im + b.im * c.re);
    assert (a.re * b.re - a.im * b.im) * c.im + (a.re * b.im + a.im * b.re) * c.re
        == a.re * (b.re * c.im + b.im * c.re) + a.im * (b.re * c.re - b.im * c.im);
  }

  lemma MulAddDistrib(a: Complex, b: Complex, c: Complex)
    ensures Mul(a, Add(b, c)) == Add(Mul(a, b), Mul(a, c))
  {
  }

  lemma MulSubDistrib(a: Complex, b: Complex, c: Complex)
    ensures Mul(a, Sub(b, c)) == Sub(Mul(a, b), Mul(a, c))
  {
  }

  lemma MulOne(a: Complex)
    ensures Mul(a, One) == a && Mul(One, a) == a
  {
  }

  lemma MulZero(a: Complex)
    ensures Mul(a, Zero) == Zero && Mul(Zero, a) == Zero
  {
  }

  lemma InvCancels(a: Complex, b: Complex)
    requires b != Zero
    ensures Mul(Mul(a, Inv(b)), b) == a
  {
    MulAssoc(a, Inv(b), b);
    MulComm(Inv(b), b);
    MulOne(a);
  }

  /** The quotient is the only q with q * b == a. */
  lemma DivUnique(a: Complex, b: Complex, q: Complex)
    requires b != Zero && Mul(q, b) == a
    ensures Div(a, b) == q
  {
    calc {
      Div(a, b);
      Mul(Mul(q, b), Inv(b));
      { MulAssoc(q, b, Inv(b)); }
      Mul(q, Mul(b, Inv(b)));
      { MulOne(q); }
      q;
    }
  }

  /** A product of two complex numbers is zero only when a factor is zero. */
  lemma MulEqZero(a: Complex, b: Complex)
    ensures Mul(a, b) == Zero <==> a == Zero || b == Zero
  {
    if Mul(a, b) == Zero && a != Zero {
      calc {
        b;
        { MulOne(b); }
        Mul(One, b);
        Mul(Mul(Inv(a), a), b);
        { MulAssoc(Inv(a), a, b); }
        Mul(Inv(a), Mul(a, b));
        { MulZero(Inv(a)); }
        Zero;
      }
    }
  }

  /** On the real line, complex products and quotients are the real ones. */
  lemma RealMul(x: real, y: real)
    ensures Mul(FromReal(x), FromReal(y)) == FromReal(x * y)
  {
  }

  lemma RealDiv(x: real, y: real)
    requires y != 0.0
    ensures FromReal(y) != Zero && Div(FromReal(x), FromReal(y)) == FromReal(x / y)
  {
  }

  /** A negative power is the positive power of the inverse. */
  lemma PowNegIsPowInv(z: Complex, i: int)
    requires z != Zero && i >= 0
    ensures Pow(z, -i) == Pow(Inv(z), i)
  {
  }

  lemma ProductNonneg(x: real, y: real)
    requires x >= 0.0 && y >= 0.0
    ensures x * y >= 0.0
  {
  }

  lemma ProductAtLeastOne(u: real, v: real)
    requires u >= 1.0 && v >= 1.0
    ensures u * v >= 1.0
  {
    calc {
      u * v;
    >= { assert u * v - u == u * (v - 1.0); ProductNonneg(u, v - 1.0); }
      u;
    }
  }

  /** Powers of a real x >= 1 are real and at least 1. */
  lemma {:induction false} PowOfRealAtLeastOne(x: real, e: nat)
    requires x >= 1.0
    ensures Pow(FromReal(x), e).im == 0.0 && Pow(FromReal(x), e).re >= 1.0
  {
    if e > 0 {
      PowOfRealAtLeastOne(x, e - 1);
      var p := Pow(FromReal(x), e - 1);
      assert p == FromReal(p.re);
      RealMul(p.re, x);
      ProductAtLeastOne(p.re, x);
    }
  }

  lemma DivBySquare(x: real)
    requires x != 0.0
    ensures Sq(x) != 0.0 && x / Sq(x) == 1.0 / x
  {
    SqPositive(x);
    var s := Sq(x);
    assert s == x * x;
    calc {
      x / s;
      == { assert (x / s) * x == x * x / s; }
      1.0 / x;
    }
  }

  /** On the real line the complex inverse is the real reciprocal. */
  lemma InvOfReal(x: real)
    requires x != 0.0
    ensures Inv(FromReal(x)) == FromReal(1.0 / x)
  {
    DivBySquare(x);
    assert NormSq(FromReal(x)) == Sq(x);
  }

  /** Lowering the exponent by one multiplies by the inverse. */
  lemma PowPred(z: Complex, e: int)
    requires z != Zero
    ensures Pow(z, e - 1) == Mul(Pow(z, e), Inv(z))
  {
    var w := Inv(z);
    if e >= 1 {
      var p := Pow(z, e - 1);
      MulAssoc(p, z, w);
      MulOne(p);
    } else {
      assert Pow(z, e) == Pow(w, -e);
      assert Pow(z, e - 1) == Pow(w, 1 - e);
    }
  }
}
