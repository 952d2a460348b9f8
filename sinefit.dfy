/** SineFitter of SineSubtract.cxx: fits A_t sin(2 pi f x + phi_t) to several
    traces at once, with one shared frequency f. The parameter vector is laid
    out as p[0] = f, p[1+2t] = phi_t, p[2+2t] = A_t. sin, cos and the
    minimizer are supplied by the caller. */
module SineFit {
  import opened ComplexNumbers
  import opened RealSums

  // ---- normalize_angle ----

  /** phi - 2 pi floor((phi + pi) / 2 pi). */
  function NormalizeAngle(phi: real): real
  {
    phi - 2.0 * Pi * ((phi + Pi) / (2.0 * Pi)).Floor as real
  }

  /** k full turns, in radians. */
  function Turns(k: int): real
  {
    2.0 * Pi * k as real
  }

  /** The result lies in [-pi, pi) and differs from phi by whole turns. */
  lemma NormalizeAngleRange(phi: real)
    ensures -Pi <= NormalizeAngle(phi) < Pi
    ensures exists k: int :: phi - NormalizeAngle(phi) == Turns(k)
  {
    var q := (phi + Pi) / (2.0 * Pi);
    var k := q.Floor;
    assert k as real <= q < k as real + 1.0;
    var r := NormalizeAngle(phi);
    assert r + Pi == 2.0 * Pi * (q - k as real);
    assert phi - r == Turns(k);
  }

  /** An angle already in [-pi, pi) is left alone. */
  lemma NormalizeAngleFixed(phi: real)
    requires -Pi <= phi < Pi
    ensures NormalizeAngle(phi) == phi
  {
    var q := (phi + Pi) / (2.0 * Pi);
    assert 0.0 <= q < 1.0;
    assert q.Floor == 0;
  }

  /** Hence normalising twice is normalising once. */
  lemma NormalizeAngleIdempotent(phi: real)
    ensures NormalizeAngle(NormalizeAngle(phi)) == NormalizeAngle(phi)
  {
    NormalizeAngleRange(phi);
    NormalizeAngleFixed(NormalizeAngle(phi));
  }

  // ---- the parameter layout ----

  /** A coordinate of the parameter vector: the frequency, or the phase or
      amplitude of trace t. */
  datatype Coord = Freq | Phase(t: nat) | Amp(t: nat)

  function Index(c: Coord): nat
  {
    match c
    case Freq => 0
    case Phase(t) => 1 + 2 * t
    case Amp(t) => 2 + 2 * t
  }

  /** DoDerivative's decoding: type = coord == 0 ? 0 : 1 + (coord-1) % 2, and
      the trace is (coord-1) / 2. */
  function Decode(coord: nat): Coord
  {
    if coord == 0 then Freq
    else if (coord - 1) % 2 == 0 then Phase((coord - 1) / 2)
    else Amp((coord - 1) / 2)
  }

  /** The decoding inverts the layout, both ways round. */
  lemma DecodeIndex(c: Coord)
    ensures Decode(Index(c)) == c
  {
  }

  lemma IndexDecode(coord: nat)
    ensures Index(Decode(coord)) == coord
  {
  }

  /** The trace a coordinate belongs to (none for the frequency). */
  function TraceOf(coord: nat): int
  {
    if coord == 0 then -1 else (coord - 1) / 2
  }

  /** The vector (f, phi_0, A_0, phi_1, A_1, ...). */
  function Layout(f: real, phases: seq<real>, amps: seq<real>): (p: seq<real>)
    requires |phases| == |amps|
    ensures |p| == 1 + 2 * |phases|
  {
    seq(1 + 2 * |phases|, k requires 0 <= k < 1 + 2 * |phases| =>
      match Decode(k)
      case Freq => f
      case Phase(t) => phases[t]
      case Amp(t) => amps[t])
  }

  /** Reading the layout back gives the frequency, phases and amplitudes. */
  lemma LayoutRoundTrip(f: real, phases: seq<real>, amps: seq<real>, t: nat)
    requires |phases| == |amps| && t < |phases|
    ensures Layout(f, phases, amps)[Index(Freq)] == f
    ensures Layout(f, phases, amps)[Index(Phase(t))] == phases[t]
    ensures Layout(f, phases, amps)[Index(Amp(t))] == amps[t]
  {
    DecodeIndex(Phase(t));
    DecodeIndex(Amp(t));
  }

  // ---- DoEval ----

  /** The argument of trace t's sine at time xv: 2 pi f xv plus the
      normalised phase. */
  function AngleOf(p: seq<real>, t: nat, xv: real): real
    requires 2 + 2 * t < |p|
  {
    2.0 * Pi * p[0] * xv + NormalizeAngle(p[1 + 2 * t])
  }

  /** The fitted sine minus the data at one sample of trace t. */
  function Residual(p: seq<real>, t: nat, xv: real, yv: real, sin: real -> real): real
    requires 2 + 2 * t < |p|
  {
    p[2 + 2 * t] * sin(AngleOf(p, t, xv)) - yv
  }

  /** The data the fit sees: nt traces of ns samples each. */
  predicate Shaped(x: seq<seq<real>>, y: seq<seq<real>>, nt: nat, ns: nat)
  {
    |x| >= nt && |y| >= nt && (forall t :: 0 <= t < nt ==> |x[t]| >= ns && |y[t]| >= ns)
  }

  /** The squared residuals of trace t over samples [0, m), each divided by ns. */
  function TraceCost(p: seq<real>, x: seq<seq<real>>, y: seq<seq<real>>, nt: nat, ns: nat,
                     sin: real -> real, t: nat, m: nat): real
    requires Shaped(x, y, nt, ns) && |p| == 1 + 2 * nt && t < nt && m <= ns && ns > 0
  {
    if m == 0 then 0.0
    else TraceCost(p, x, y, nt, ns, sin, t, m - 1) + Sq(Residual(p, t, x[t][m - 1], y[t][m - 1], sin)) / ns as real
  }

  /** The accumulated power over traces [0, k). */
  function PowerSum(p: seq<real>, x: seq<seq<real>>, y: seq<seq<real>>, nt: nat, ns: nat,
                    sin: real -> real, k: nat): real
    requires Shaped(x, y, nt, ns) && |p| == 1 + 2 * nt && k <= nt && ns > 0
  {
    if k == 0 then 0.0
    else PowerSum(p, x, y, nt, ns, sin, k - 1) + TraceCost(p, x, y, nt, ns, sin, k - 1, ns)
  }

  /** The cost DoEval computes: the mean squared residual over all samples of all traces. */
  function Cost(p: seq<real>, x: seq<seq<real>>, y: seq<seq<real>>, nt: nat, ns: nat, sin: real -> real): real
    requires Shaped(x, y, nt, ns) && |p| == 1 + 2 * nt && nt > 0 && ns > 0
  {
    PowerSum(p, x, y, nt, ns, sin, nt) / nt as real
  }

  /** SineFitFn::DoEval. */
  method DoEval(p: seq<real>, x: seq<seq<real>>, y: seq<seq<real>>, nt: nat, ns: nat, sin: real -> real)
    returns (power: real)
    requires Shaped(x, y, nt, ns) && |p| == 1 + 2 * nt && nt > 0 && ns > 0
    ensures power == Cost(p, x, y, nt, ns, sin)
  {
    var w := 2.0 * Pi * p[0];
    power := 0.0;
    for ti := 0 to nt
      invariant power == PowerSum(p, x, y, nt, ns, sin, ti)
    {
      var ph := NormalizeAngle(p[1 + 2 * ti]);
      var A := p[2 + 2 * ti];
      for i := 0 to ns
        invariant power == PowerSum(p, x, y, nt, ns, sin, ti) + TraceCost(p, x, y, nt, ns, sin, ti, i)
      {
        assert w * x[ti][i] + ph == AngleOf(p, ti, x[ti][i]);
        var Y := A * sin(w * x[ti][i] + ph) - y[ti][i];
        assert Y == Residual(p, ti, x[ti][i], y[ti][i], sin);
        power := power + Sq(Y) / ns as real;
      }
    }
    power := power / nt as real;
  }

  /** Every sample of every trace fits exactly. */
  predicate ExactFit(p: seq<real>, x: seq<seq<real>>, y: seq<seq<real>>, nt: nat, ns: nat, sin: real -> real)
    requires Shaped(x, y, nt, ns) && |p| == 1 + 2 * nt
  {
    forall t, i :: 0 <= t < nt && 0 <= i < ns ==> Residual(p, t, x[t][i], y[t][i], sin) == 0.0
  }

  lemma SqOverPositive(v: real, d: real)
    requires d > 0.0
    ensures Sq(v) / d >= 0.0
    ensures Sq(v) / d == 0.0 <==> v == 0.0
  {
    SqNonneg(v);
    if v != 0.0 {
      SqPositive(v);
    }
  }

  lemma {:induction false} TraceCostNonneg(p: seq<real>, x: seq<seq<real>>, y: seq<seq<real>>, nt: nat, ns: nat,
                                           sin: real -> real, t: nat, m: nat)
    requires Shaped(x, y, nt, ns) && |p| == 1 + 2 * nt && t < nt && m <= ns && ns > 0
    ensures TraceCost(p, x, y, nt, ns, sin, t, m) >= 0.0
    ensures TraceCost(p, x, y, nt, ns, sin, t, m) == 0.0 <==>
      forall i :: 0 <= i < m ==> Residual(p, t, x[t][i], y[t][i], sin) == 0.0
  {
    if m > 0 {
      TraceCostNonneg(p, x, y, nt, ns, sin, t, m - 1);
      SqOverPositive(Residual(p, t, x[t][m - 1], y[t][m - 1], sin), ns as real);
    }
  }

  lemma {:induction false} PowerSumNonneg(p: seq<real>, x: seq<seq<real>>, y: seq<seq<real>>, nt: nat, ns: nat,
                                          sin: real -> real, k: nat)
    requires Shaped(x, y, nt, ns) && |p| == 1 + 2 * nt && k <= nt && ns > 0
    ensures PowerSum(p, x, y, nt, ns, sin, k) >= 0.0
    ensures PowerSum(p, x, y, nt, ns, sin, k) == 0.0 <==>
      forall t, i :: 0 <= t < k && 0 <= i < ns ==> Residual(p, t, x[t][i], y[t][i], sin) == 0.0
  {
    if k > 0 {
      PowerSumNonneg(p, x, y, nt, ns, sin, k - 1);
      TraceCostNonneg(p, x, y, nt, ns, sin, k - 1, ns);
    }
  }

  /** The cost is never negative, and it is zero exactly when the sines fit
      every sample. */
  lemma CostNonneg(p: seq<real>, x: seq<seq<real>>, y: seq<seq<real>>, nt: nat, ns: nat, sin: real -> real)
    requires Shaped(x, y, nt, ns) && |p| == 1 + 2 * nt && nt > 0 && ns > 0
    ensures Cost(p, x, y, nt, ns, sin) >= 0.0
    ensures Cost(p, x, y, nt, ns, sin) == 0.0 <==> ExactFit(p, x, y, nt, ns, sin)
  {
    PowerSumNonneg(p, x, y, nt, ns, sin, nt);
  }

  // ---- DoDerivative ----

  /** The derivative of one fitted sample with respect to the coordinate's
      parameter (frequency, phase or amplitude). */
  function Slope(c: Coord, A: real, angle: real, xv: real, sin: real -> real, cos: real -> real): real
  {
    match c
    case Freq => A * xv * cos(angle) * 2.0 * Pi
    case Phase(_) => A * cos(angle)
    case Amp(_) => sin(angle)
  }

  /** One sample's term: the residual times the slope, over ns. */
  function Weighted(residual: real, slope: real, ns: nat): real
    requires ns > 0
  {
    residual * slope / ns as real
  }

  /** Trace t's contribution over samples [0, m). */
  function TraceSlope(coord: nat, p: seq<real>, x: seq<seq<real>>, y: seq<seq<real>>, nt: nat, ns: nat,
                      sin: real -> real, cos: real -> real, t: nat, m: nat): real
    requires Shaped(x, y, nt, ns) && |p| == 1 + 2 * nt && t < nt && m <= ns && ns > 0
  {
    if m == 0 then 0.0
    else
      var xv := x[t][m - 1];
      var angle := AngleOf(p, t, xv);
      TraceSlope(coord, p, x, y, nt, ns, sin, cos, t, m - 1)
        + Weighted(p[2 + 2 * t] * sin(angle) - y[t][m - 1], Slope(Decode(coord), p[2 + 2 * t], angle, xv, sin, cos), ns)
  }

  /** The accumulated sum over traces [0, k), skipping every trace but the
      coordinate's own when the coordinate is a phase or an amplitude. */
  function SlopeSum(coord: nat, p: seq<real>, x: seq<seq<real>>, y: seq<seq<real>>, nt: nat, ns: nat,
                    sin: real -> real, cos: real -> real, k: nat): real
    requires Shaped(x, y, nt, ns) && |p| == 1 + 2 * nt && k <= nt && ns > 0
  {
    if k == 0 then 0.0
    else if coord != 0 && TraceOf(coord) != k - 1 then SlopeSum(coord, p, x, y, nt, ns, sin, cos, k - 1)
    else SlopeSum(coord, p, x, y, nt, ns, sin, cos, k - 1) + TraceSlope(coord, p, x, y, nt, ns, sin, cos, k - 1, ns)
  }

  /** SineFitFn::DoDerivative: twice the accumulated sum, over nt. */
  method DoDerivative(p: seq<real>, coord: nat, x: seq<seq<real>>, y: seq<seq<real>>, nt: nat, ns: nat,
                      sin: real -> real, cos: real -> real) returns (deriv: real)
    requires Shaped(x, y, nt, ns) && |p| == 1 + 2 * nt && nt > 0 && ns > 0
    ensures deriv == 2.0 * SlopeSum(coord, p, x, y, nt, ns, sin, cos, nt) / nt as real
  {
    deriv := 0.0;
    for ti := 0 to nt
      invariant deriv == SlopeSum(coord, p, x, y, nt, ns, sin, cos, ti)
    {
      if coord != 0 && (coord - 1) / 2 != ti {
        continue;
      }
      var traceDeriv := TraceDerivative(p, coord, x, y, nt, ns, sin, cos, ti);
      deriv := deriv + traceDeriv;
    }
    deriv := 2.0 * deriv / nt as real;
  }

  lemma TraceSlopeStep(coord: nat, p: seq<real>, x: seq<seq<real>>, y: seq<seq<real>>, nt: nat, ns: nat,
                       sin: real -> real, cos: real -> real, t: nat, m: nat)
    requires Shaped(x, y, nt, ns) && |p| == 1 + 2 * nt && t < nt && m < ns
    ensures var angle := AngleOf(p, t, x[t][m]);
      TraceSlope(coord, p, x, y, nt, ns, sin, cos, t, m + 1) == TraceSlope(coord, p, x, y, nt, ns, sin, cos, t, m)
        + Weighted(p[2 + 2 * t] * sin(angle) - y[t][m], Slope(Decode(coord), p[2 + 2 * t], angle, x[t][m], sin, cos), ns)
  {
  }

  /** dY/dp at one sample, sinang being sin(angle). */
  method SampleSlope(kind: Coord, A: real, angle: real, t: real, sinang: real, cos: real -> real)
    returns (dYdp: real)
    ensures forall sin: real -> real :: sin(angle) == sinang ==> dYdp == Slope(kind, A, angle, t, sin, cos)
  {
    match kind
    case Freq => dYdp := A * t * cos(angle) * 2.0 * Pi;
    case Phase(_) => dYdp := A * cos(angle);
    case Amp(_) => dYdp := sinang;
  }

  /** DoDerivative's loop over the samples of trace ti. */
  method TraceDerivative(p: seq<real>, coord: nat, x: seq<seq<real>>, y: seq<seq<real>>, nt: nat, ns: nat,
                         sin: real -> real, cos: real -> real, ti: nat) returns (deriv: real)
    requires Shaped(x, y, nt, ns) && |p| == 1 + 2 * nt && ti < nt && ns > 0
    ensures deriv == TraceSlope(coord, p, x, y, nt, ns, sin, cos, ti, ns)
  {
    var w := 2.0 * Pi * p[0];
    var kind := Decode(coord);
    var ph := NormalizeAngle(p[1 + 2 * ti]);
    var A := p[2 + 2 * ti];
    deriv := 0.0;
    for i := 0 to ns
      invariant deriv == TraceSlope(coord, p, x, y, nt, ns, sin, cos, ti, i)
    {
      var t := x[ti][i];
      var angle := w * t + ph;
      assert angle == AngleOf(p, ti, t);
      var sinang := sin(angle);
      var Y := A * sinang;
      var dYdp := SampleSlope(kind, A, angle, t, sinang, cos);
      TraceSlopeStep(coord, p, x, y, nt, ns, sin, cos, ti, i);
      assert x[ti][i] == t;
      assert Y == p[2 + 2 * ti] * sin(AngleOf(p, ti, x[ti][i]));
      assert dYdp == Slope(Decode(coord), p[2 + 2 * ti], AngleOf(p, ti, x[ti][i]), x[ti][i], sin, cos);
      deriv := deriv + Weighted(Y - y[ti][i], dYdp, ns);
    }
  }

  /** The amplitude slope is exact: the residual is linear in A_t, so moving
      A_t by h moves the residual by h times the slope. */
  lemma AmpSlopeIsExact(p: seq<real>, t: nat, xv: real, yv: real, h: real, sin: real -> real, cos: real -> real)
    requires 2 + 2 * t < |p|
    ensures var q := p[2 + 2 * t := p[2 + 2 * t] + h];
      Residual(q, t, xv, yv, sin)
        == Residual(p, t, xv, yv, sin) + h * Slope(Amp(t), p[2 + 2 * t], AngleOf(p, t, xv), xv, sin, cos)
  {
    var q := p[2 + 2 * t := p[2 + 2 * t] + h];
    assert AngleOf(q, t, xv) == AngleOf(p, t, xv);
    var s := sin(AngleOf(p, t, xv));
    calc {
      Residual(q, t, xv, yv, sin);
      (p[2 + 2 * t] + h) * s - yv;
      { assert (p[2 + 2 * t] + h) * s == p[2 + 2 * t] * s + h * s; }
      p[2 + 2 * t] * s - yv + h * s;
    }
  }

  /** A phase or amplitude derivative involves only its own trace. */
  lemma {:induction false} SlopeSumOwnTrace(coord: nat, p: seq<real>, x: seq<seq<real>>, y: seq<seq<real>>,
                                            nt: nat, ns: nat, sin: real -> real, cos: real -> real, k: nat)
    requires Shaped(x, y, nt, ns) && |p| == 1 + 2 * nt && k <= nt && ns > 0
    requires coord != 0
    ensures SlopeSum(coord, p, x, y, nt, ns, sin, cos, k) ==
      if TraceOf(coord) < k then TraceSlope(coord, p, x, y, nt, ns, sin, cos, TraceOf(coord), ns) else 0.0
  {
    if k > 0 {
      SlopeSumOwnTrace(coord, p, x, y, nt, ns, sin, cos, k - 1);
    }
  }

  // ---- the fitter ----

  datatype Option<T> = None | Some(value: T)

  /** One minimizer variable: its starting value and, for a limited
      variable, its lower and upper bound. */
  datatype Variable = Variable(start: real, limits: Option<(real, real)>)

  /** What the minimizer reports: the parameters at the minimum, their
      errors, and the minimum itself. */
  datatype FitResult = FitResult(x: seq<real>, errors: seq<real>, minimum: real)

  /** The minimizer, given the variables and the data. */
  type Minimizer = (seq<Variable>, seq<seq<real>>, seq<seq<real>>) -> FitResult

  ghost predicate MinimizerWellBehaved(minimize: Minimizer)
  {
    forall vs, x, y :: |minimize(vs, x, y).x| == |vs| && |minimize(vs, x, y).errors| == |vs|
  }

  /** The variables doFit declares: f limited to [f - df, f + df], every phase
      free, every amplitude A limited to [A/4, 4A]. */
  function FitVariables(freq: real, df: real, phase: seq<real>, amp: seq<real>, n: nat): (vs: seq<Variable>)
    requires |phase| >= n && |amp| >= n
    ensures |vs| == 1 + 2 * n
  {
    seq(1 + 2 * n, k requires 0 <= k < 1 + 2 * n =>
      match Decode(k)
      case Freq => Variable(freq, Some((freq - df, freq + df)))
      case Phase(t) => Variable(phase[t], None)
      case Amp(t) => Variable(amp[t], Some((0.25 * amp[t], 4.0 * amp[t]))))
  }

  /** Every variable's window contains its starting value when the
      amplitudes are non-negative and df is. */
  lemma FitVariablesContainStart(freq: real, df: real, phase: seq<real>, amp: seq<real>, n: nat, k: nat)
    requires |phase| >= n && |amp| >= n && df >= 0.0 && k < 1 + 2 * n
    requires forall t :: 0 <= t < n ==> amp[t] >= 0.0
    ensures var v := FitVariables(freq, df, phase, amp, n)[k];
      v.limits.Some? ==> v.limits.value.0 <= v.start <= v.limits.value.1
  {
  }

  /** The frequency window doFit allows: the Nyquist frequency of the
      average sample spacing, divided by the number of samples. */
  function FitWidth(x: seq<seq<real>>, nsamples: nat): real
    requires |x| >= 1 && 2 <= nsamples <= |x[0]| && x[0][nsamples - 1] != x[0][0]
  {
    var dt := (x[0][nsamples - 1] - x[0][0]) / (nsamples - 1) as real;
    1.0 / (2.0 * dt) / nsamples as real
  }

  class SineFitter {
    var freq: real
    var freqErr: real
    var phase: seq<real>
    var amp: seq<real>
    var phaseErr: seq<real>
    var ampErr: seq<real>
    var power: real

    /** The fitter holds the minimizer's result res for ntraces traces:
        the frequency, the power, every phase (normalised into [-pi, pi)),
        every amplitude and their errors. */
    predicate Holds(res: FitResult, ntraces: nat)
      reads this
    {
      && |res.x| >= 1 + 2 * ntraces && |res.errors| >= 1 + 2 * ntraces
      && |phase| >= ntraces && |amp| >= ntraces && |phaseErr| >= ntraces && |ampErr| >= ntraces
      && freq == res.x[0] && freqErr == res.errors[0] && power == res.minimum
      && forall t :: 0 <= t < ntraces ==>
           && phase[t] == NormalizeAngle(res.x[1 + 2 * t]) && amp[t] == res.x[2 + 2 * t]
           && phaseErr[t] == res.errors[1 + 2 * t] && ampErr[t] == res.errors[2 + 2 * t]
    }

    constructor ()
      ensures phase == [] && amp == [] && phaseErr == [] && ampErr == []
    {
      freq, freqErr, power := 0.0, 0.0, 0.0;
      phase, amp, phaseErr, ampErr := [], [], [], [];
    }

    /** setGuess: the guesses for ntrace traces; the error vectors always get
        three zeros, whatever ntrace is. */
    method SetGuess(fg: real, ntrace: nat, phg: seq<real>, ampg: seq<real>)
      requires |phg| >= ntrace && |ampg| >= ntrace
      modifies this
      ensures freq == fg && phase == phg[..ntrace] && amp == ampg[..ntrace]
      ensures phaseErr == [0.0, 0.0, 0.0] && ampErr == [0.0, 0.0, 0.0]
      ensures freqErr == old(freqErr) && power == old(power)
    {
      freq := fg;
      phase := [];
      amp := [];
      phaseErr := [];
      ampErr := [];
      phase := phase + phg[..ntrace];
      amp := amp + ampg[..ntrace];
      phaseErr := phaseErr + [0.0, 0.0, 0.0];
      ampErr := ampErr + [0.0, 0.0, 0.0];
    }

    /** doFit: declares the variables around the current guess, runs the
        minimizer, and stores its result with every phase normalised. The
        error vectors must already hold ntraces entries. */
    method DoFit(ntraces: nat, nsamples: nat, x: seq<seq<real>>, y: seq<seq<real>>, minimize: Minimizer)
      requires MinimizerWellBehaved(minimize)
      requires Shaped(x, y, ntraces, nsamples) && ntraces >= 1 && nsamples >= 2
      requires x[0][nsamples - 1] != x[0][0]
      requires |phase| >= ntraces && |amp| >= ntraces && |phaseErr| >= ntraces && |ampErr| >= ntraces
      modifies this
      ensures Holds(minimize(FitVariables(old(freq), FitWidth(x, nsamples), old(phase), old(amp), ntraces), x, y), ntraces)
      ensures |phase| == |old(phase)| && |amp| == |old(amp)|
      ensures |phaseErr| == |old(phaseErr)| && |ampErr| == |old(ampErr)|
      ensures forall t :: ntraces <= t < |phase| ==> phase[t] == old(phase)[t]
      ensures forall t :: ntraces <= t < |amp| ==> amp[t] == old(amp)[t]
      ensures forall t :: ntraces <= t < |phaseErr| ==> phaseErr[t] == old(phaseErr)[t]
      ensures forall t :: ntraces <= t < |ampErr| ==> ampErr[t] == old(ampErr)[t]
      ensures forall t :: 0 <= t < ntraces ==> -Pi <= phase[t] < Pi
    {
      var dt := (x[0][nsamples - 1] - x[0][0]) / (nsamples - 1) as real;
      var fnyq := 1.0 / (2.0 * dt);
      var df := fnyq / nsamples as real;
      assert df == FitWidth(x, nsamples);
      var vars := FitVariables(freq, df, phase, amp, ntraces);
      var r := minimize(vars, x, y);
      power := r.minimum;
      freq := r.x[0];
      freqErr := r.errors[0];
      for i := 0 to ntraces
        invariant |phase| == |old(phase)| && |amp| == |old(amp)|
        invariant |phaseErr| == |old(phaseErr)| && |ampErr| == |old(ampErr)|
        invariant freq == r.x[0] && freqErr == r.errors[0] && power == r.minimum
        invariant forall t :: 0 <= t < i ==>
              phase[t] == NormalizeAngle(r.x[1 + 2 * t]) && amp[t] == r.x[2 + 2 * t]
              && phaseErr[t] == r.errors[1 + 2 * t] && ampErr[t] == r.errors[2 + 2 * t]
        invariant forall t :: i <= t < |phase| ==> phase[t] == old(phase)[t]
        invariant forall t :: i <= t < |amp| ==> amp[t] == old(amp)[t]
        invariant forall t :: i <= t < |phaseErr| ==> phaseErr[t] == old(phaseErr)[t]
        invariant forall t :: i <= t < |ampErr| ==> ampErr[t] == old(ampErr)[t]
        invariant forall t :: 0 <= t < i ==> -Pi <= phase[t] < Pi
      {
        NormalizeAngleRange(r.x[1 + 2 * i]);
        phase := phase[i := NormalizeAngle(r.x[1 + 2 * i])];
        amp := amp[i := r.x[2 + 2 * i]];
        phaseErr := phaseErr[i := r.errors[1 + 2 * i]];
        ampErr := ampErr[i := r.errors[2 + 2 * i]];
      }
    }
  }
}
