/** DigitalFilter::response: samples the transfer function at n frequencies
    on the upper unit circle and fills the amplitude, phase and group-delay
    curves. The transfer function, exp, arg, abs, log and the phase
    unwrapping are supplied by the caller. */
module FilterResponse {
  import opened ComplexNumbers
  import opened RealSums

  /** A ROOT TGraph, reduced to its points. */
  class Graph {
    var xs: seq<real>
    var ys: seq<real>

    predicate Valid()
      reads this
    {
      |xs| == |ys|
    }

    /** TGraph(n): n points at the origin. */
    constructor (n: nat)
      ensures xs == seq(n, _ => 0.0) && ys == seq(n, _ => 0.0)
    {
      xs := seq(n, _ => 0.0);
      ys := seq(n, _ => 0.0);
    }

    /** SetPoint(i, x, y) for an existing point i. */
    method SetPoint(i: nat, x: real, y: real)
      requires Valid() && i < |xs|
      modifies this
      ensures xs == old(xs)[i := x] && ys == old(ys)[i := y]
    {
      xs := xs[i := x];
      ys := ys[i := y];
    }

    /** RemovePoint(i): drops point i, shifting the later ones down; an index
        past the end changes nothing. */
    method RemovePoint(i: nat)
      requires Valid()
      modifies this
      ensures Valid()
      ensures xs == Removed(old(xs), i) && ys == Removed(old(ys), i)
    {
      if i < |xs| {
        xs := xs[..i] + xs[i + 1..];
        ys := ys[..i] + ys[i + 1..];
      }
    }
  }

  /** s without entry i, or s itself when there is no entry i. */
  function Removed(s: seq<real>, i: nat): (r: seq<real>)
    ensures |r| == if i < |s| then |s| - 1 else |s|
    ensures forall k :: 0 <= k < |r| ==> r[k] == if k < i then s[k] else s[k + 1]
  {
    if i < |s| then s[..i] + s[i + 1..] else s
  }

  /** Removing the last point and then the first keeps s[1..|s|-1]. */
  lemma TrimEnds(s: seq<real>)
    requires |s| >= 2
    ensures Removed(Removed(s, |s| - 1), 0) == s[1..|s| - 1]
  {
  }

  /** Removing the last point and then the first two keeps s[2..|s|-1]. */
  lemma TrimEndsAndOneMore(s: seq<real>)
    requires |s| >= 3
    ensures Removed(Removed(Removed(s, |s| - 1), 0), 0) == s[2..|s| - 1]
  {
  }

  /** An angle from arg, in degrees, stored as a non-negative angle. */
  function PhaseDegrees(angle: real): real
  {
    if angle < 0.0 then angle + 360.0 else angle
  }

  /** arg's range [-180, 180] in degrees lands in [0, 360), and the stored
      angle is the same direction (it differs by 0 or a full turn). */
  lemma PhaseDegreesRange(angle: real)
    requires -180.0 <= angle <= 180.0
    ensures 0.0 <= PhaseDegrees(angle) < 360.0
    ensures PhaseDegrees(angle) - angle == 0.0 || PhaseDegrees(angle) - angle == 360.0
    ensures angle >= 0.0 ==> PhaseDegrees(angle) == angle
  {
  }

  /** 180 * (a / pi) for a in [-pi, pi] lies in [-180, 180]. */
  lemma DegreesOfArg(a: real)
    requires -Pi <= a <= Pi
    ensures -180.0 <= 180.0 * (a / Pi) <= 180.0
  {
  }

  /** The group-delay rewrite: y[0] = 0 and y[i] = u[i-1] - u[i]. */
  function Differences(u: seq<real>): (d: seq<real>)
    ensures |d| == |u|
  {
    seq(|u|, i requires 0 <= i < |u| => if i == 0 then 0.0 else u[i - 1] - u[i])
  }

  /** The differences telescope: summing y[1..k] recovers u[0] - u[k]. */
  lemma {:induction false} DifferencesTelescope(u: seq<real>, k: nat)
    requires k < |u|
    ensures Sum(Differences(u)[1..k + 1]) == u[0] - u[k]
  {
    var d := Differences(u);
    if k > 0 {
      DifferencesTelescope(u, k - 1);
      assert d[1..k + 1] == d[1..k] + [d[k]];
      SumAppend(d[1..k], d[k]);
    } else {
      assert d[1..1] == [];
    }
  }

  /** The rewrite loop on ggroup->GetY(): `last` carries the previous
      original value, so every entry is differenced against the unmodified
      entry before it. */
  method DifferenceInPlace(g: Graph)
    requires g.Valid()
    modifies g
    ensures g.Valid()
    ensures g.xs == old(g.xs) && g.ys == Differences(old(g.ys))
  {
    ghost var u := g.ys;
    if |g.ys| == 0 {
      return;
    }
    var last := g.ys[0];
    g.SetPoint(0, g.xs[0], 0.0);
    var i := 1;
    while i < |g.ys|
      invariant 1 <= i <= |g.ys| == |u| && g.Valid() && g.xs == old(g.xs)
      invariant last == u[i - 1]
      invariant forall k :: 0 <= k < i ==> g.ys[k] == Differences(u)[k]
      invariant forall k :: i <= k < |u| ==> g.ys[k] == u[k]
    {
      var current := g.ys[i];
      g.SetPoint(i, g.xs[i], last - current);
      last := current;
      i := i + 1;
    }
  }

  /** The oracles response needs. */
  datatype Oracles = Oracles(
    transfer: Complex -> Complex,
    cexp: Complex -> Complex,
    arg: Complex -> real,
    abs: Complex -> real,
    log: real -> real,
    unwrap: seq<real> -> seq<real>)

  /** arg lies in [-pi, pi], and unwrap keeps the number of points. */
  ghost predicate WellBehaved(o: Oracles)
  {
    && (forall c :: -Pi <= o.arg(c) <= Pi)
    && (forall s :: |o.unwrap(s)| == |s|)
  }

  /** The normalised frequency of sample i of n. */
  function Frequency(n: nat, i: nat): real
    requires n >= 2
  {
    1.0 / (n - 1) as real * i as real
  }

  /** The response at sample i of n. */
  function ResponseAt(o: Oracles, n: nat, i: nat): Complex
    requires n >= 2
  {
    o.transfer(o.cexp(Complex(0.0, Pi * Frequency(n, i))))
  }

  /** The stored angle at sample i, in degrees. */
  function AngleAt(o: Oracles, n: nat, i: nat): real
    requires n >= 2
  {
    PhaseDegrees(180.0 * (o.arg(ResponseAt(o, n, i)) / Pi))
  }

  /** The amplitude at sample i, in decibels, or -1000 where the response vanishes. */
  function AmplitudeAt(o: Oracles, n: nat, i: nat): real
    requires n >= 2
  {
    var a := o.abs(ResponseAt(o, n, i));
    if a == 0.0 then -1000.0 else 10.0 * o.log(a)
  }

  function Angles(o: Oracles, n: nat): (s: seq<real>)
    requires n >= 2
    ensures |s| == n
  {
    seq(n, i requires 0 <= i < n => AngleAt(o, n, i))
  }

  function Frequencies(n: nat): (s: seq<real>)
    requires n >= 2
    ensures |s| == n
  {
    seq(n, i requires 0 <= i < n => Frequency(n, i))
  }

  /** Every stored phase lies in [0, 360). */
  lemma AnglesInRange(o: Oracles, n: nat)
    requires n >= 2 && WellBehaved(o)
    ensures forall i :: 0 <= i < n ==> 0.0 <= Angles(o, n)[i] < 360.0
  {
    forall i | 0 <= i < n
      ensures 0.0 <= Angles(o, n)[i] < 360.0
    {
      var a := o.arg(ResponseAt(o, n, i));
      DegreesOfArg(a);
      PhaseDegreesRange(180.0 * (a / Pi));
    }
  }

  /** response(n, ...): the amplitude curve keeps all n points; the phase
      curve drops its first and last points; the group delay is the
      differenced unwrapped phase without its last point and first two. */
  method Response(o: Oracles, n: nat) returns (amp: Graph, phase: Graph, group: Graph)
    requires n >= 2 && WellBehaved(o)
    ensures amp.Valid() && phase.Valid() && group.Valid()
    ensures amp.xs == Frequencies(n) && amp.ys == seq(n, i requires 0 <= i < n => AmplitudeAt(o, n, i))
    ensures phase.xs == Frequencies(n)[1..n - 1] && phase.ys == Angles(o, n)[1..n - 1]
    ensures |group.ys| == if n >= 3 then n - 3 else 0
    ensures n >= 3 ==> group.ys == Differences(o.unwrap(Angles(o, n)))[2..n - 1]
    ensures n >= 3 ==> group.xs == Frequencies(n)[2..n - 1]
  {
    amp := new Graph(n);
    phase := new Graph(n);
    group := new Graph(n);
    SamplePoints(o, n, amp, phase, group);
    phase.RemovePoint(n - 1);
    phase.RemovePoint(0);
    TrimEnds(Frequencies(n));
    TrimEnds(Angles(o, n));

    group.ys := o.unwrap(group.ys);
    DifferenceInPlace(group);
    ghost var full := group.ys;
    ghost var fullX := group.xs;
    group.RemovePoint(n - 1);
    group.RemovePoint(0);
    group.RemovePoint(0);
    if n >= 3 {
      TrimEndsAndOneMore(full);
      TrimEndsAndOneMore(fullX);
    }
  }

  /** The sampling loop: point i of every curve is at frequency i/(n-1); the
      phase and group curves both start from the stored angle. */
  method SamplePoints(o: Oracles, n: nat, amp: Graph, phase: Graph, group: Graph)
    requires n >= 2
    requires amp.Valid() && phase.Valid() && group.Valid() && |amp.xs| == |phase.xs| == |group.xs| == n
    requires amp != phase && amp != group && phase != group
    requires phase.xs == group.xs && phase.ys == group.ys
    modifies amp, phase, group
    ensures amp.Valid() && phase.Valid() && group.Valid()
    ensures amp.xs == Frequencies(n) && amp.ys == seq(n, i requires 0 <= i < n => AmplitudeAt(o, n, i))
    ensures phase.xs == Frequencies(n) && phase.ys == Angles(o, n)
    ensures group.xs == Frequencies(n) && group.ys == Angles(o, n)
  {
    for i := 0 to n
      invariant amp.Valid() && phase.Valid() && group.Valid() && |amp.xs| == |phase.xs| == |group.xs| == n
      invariant forall k :: 0 <= k < i ==> amp.xs[k] == Frequency(n, k) && amp.ys[k] == AmplitudeAt(o, n, k)
      invariant forall k :: 0 <= k < i ==> phase.xs[k] == Frequency(n, k) && phase.ys[k] == AngleAt(o, n, k)
      invariant phase.xs == group.xs && phase.ys == group.ys
    {
      var f := Frequency(n, i);
      var resp := o.transfer(o.cexp(Complex(0.0, Pi * f)));
      assert resp == ResponseAt(o, n, i);
      var a := o.abs(resp);
      amp.SetPoint(i, f, if a == 0.0 then -1000.0 else 10.0 * o.log(a));
      var angle := 180.0 * (o.arg(resp) / Pi);
      if angle < 0.0 {
        angle := angle + 360.0;
      }
      assert angle == AngleAt(o, n, i);
      phase.SetPoint(i, f, angle);
      group.SetPoint(i, f, angle);
    }
  }
}
