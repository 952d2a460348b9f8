/** SineSubtract of SineSubtract.cxx: repeatedly finds the strongest lone
    peak of the summed power spectrum of several traces, fits one sine per
    trace at that frequency, and subtracts it when it removes enough power.
    The FFT (with the window, interpolation and zero padding in front of it),
    arg, abs, sin and the minimizer are supplied by the caller. */
module SineSubtraction {
  import opened ComplexNumbers
  import opened RealSums
  import opened SineFit

  /** neighbor_factor2: a peak counts only when 0.15 times its power exceeds
      the power of its weaker neighbour. */
  const NeighborFactor2: real := 0.15

  /** DBL_MAX, the value standing in for the missing neighbour of an edge bin. */
  const DblMax: real := 179769313486231570814527423731704356798070567525844996598917476803157260780028538760589558632766878171540458953514382464234321326889464182768467546703537516986049910576551282076245490090389328944075868508455133942304583236903222948165808559332123348274797826204144723168738177180919299881250404026184124858368.0

  // ---- the cropped range ----

  /** low: a tmin outside [0, n) means 0. */
  function CropLow(tmin: int, n: nat): nat
  {
    if tmin < 0 || tmin >= n then 0 else tmin
  }

  /** high: a tmax outside (0, n] means n. */
  function CropHigh(tmax: int, n: nat): nat
  {
    if tmax <= 0 || tmax > n then n else tmax
  }

  /** Both bounds lie in [0, n], and in-range settings are kept as given. */
  lemma CropBoundsRange(tmin: int, tmax: int, n: nat)
    ensures CropLow(tmin, n) <= n && CropHigh(tmax, n) <= n
    ensures n > 0 ==> CropLow(tmin, n) < n && CropHigh(tmax, n) > 0
    ensures 0 <= tmin < n ==> CropLow(tmin, n) == tmin
    ensures 0 < tmax <= n ==> CropHigh(tmax, n) == tmax
    ensures tmin < 0 || tmin >= n ==> CropLow(tmin, n) == 0
    ensures tmax <= 0 || tmax > n ==> CropHigh(tmax, n) == n
  {
  }

  // ---- the zero-padded length ----

  /** The number of binary digits of v (32 - __builtin_clz(v) for v > 0). */
  function BitLength(v: nat): nat
  {
    if v == 0 then 0 else 1 + BitLength(v / 2)
  }

  /** 1 << (32 - __builtin_clz(nuse - 1)). */
  function ZeroPadLength(nuse: nat): nat
    requires nuse >= 2
  {
    Pow2(BitLength(nuse - 1))
  }

  /** fftlen = nzeropad / 2 + 1. */
  function SpectrumLength(nuse: nat): nat
    requires nuse >= 2
  {
    ZeroPadLength(nuse) / 2 + 1
  }

  /** v has BitLength(v) digits: 2^(b-1) <= v < 2^b. */
  lemma {:induction false} BitLengthBounds(v: nat)
    requires v >= 1
    ensures BitLength(v) >= 1
    ensures Pow2(BitLength(v) - 1) <= v < Pow2(BitLength(v))
  {
    if v >= 2 {
      BitLengthBounds(v / 2);
    }
  }

  /** The padded length is the smallest power of two holding nuse samples:
      nuse <= nzeropad < 2 nuse. */
  lemma ZeroPadBounds(nuse: nat)
    requires nuse >= 2
    ensures exists k: nat :: ZeroPadLength(nuse) == Pow2(k)
    ensures nuse <= ZeroPadLength(nuse) < 2 * nuse
    ensures SpectrumLength(nuse) >= 2
  {
    BitLengthBounds(nuse - 1);
    var b := BitLength(nuse - 1);
    assert Pow2(b) == 2 * Pow2(b - 1);
  }

  /** The shift fits a positive 32-bit int when nuse - 1 < 2^30. */
  lemma ZeroPadFitsInt(nuse: nat)
    requires nuse >= 2 && nuse - 1 < Pow2(30)
    ensures ZeroPadLength(nuse) <= Pow2(30)
  {
    BitLengthBelow(nuse - 1, 30);
    Pow2Monotone(BitLength(nuse - 1), 30);
  }

  /** A number below 2^k has at most k binary digits. */
  lemma {:induction false} BitLengthBelow(v: nat, k: nat)
    requires v < Pow2(k)
    ensures BitLength(v) <= k
  {
    if v > 0 {
      assert k > 0;
      BitLengthBelow(v / 2, k - 1);
    }
  }

  lemma {:induction false} Pow2Monotone(j: nat, k: nat)
    requires j <= k
    ensures Pow2(j) <= Pow2(k)
  {
    if j < k {
      Pow2Monotone(j, k - 1);
    }
  }

  // ---- the results ----

  /** SineSubtractResult: the power before the first and after every
      accepted sine, and per sine its frequency and, per trace, its phase and
      amplitude, each with its fit error. */
  class SineSubtractResult {
    var powers: seq<real>
    var freqs: seq<real>
    var freqsErrs: seq<real>
    var phases: seq<seq<real>>
    var amps: seq<seq<real>>
    var phasesErrs: seq<seq<real>>
    var ampsErrs: seq<seq<real>>

    /** Every per-sine vector, of every trace, has one entry per sine. */
    predicate Consistent(ntraces: nat)
      reads this
    {
      && |freqsErrs| == |freqs|
      && |phases| == |amps| == |phasesErrs| == |ampsErrs| == ntraces
      && (forall t :: 0 <= t < ntraces ==>
            |phases[t]| == |amps[t]| == |phasesErrs[t]| == |ampsErrs[t]| == |freqs|)
    }

    constructor ()
      ensures powers == [] && freqs == [] && freqsErrs == []
      ensures phases == [] && amps == [] && phasesErrs == [] && ampsErrs == []
    {
      powers, freqs, freqsErrs := [], [], [];
      phases, amps, phasesErrs, ampsErrs := [], [], [], [];
    }

    /** clear(). */
    method Clear()
      modifies this
      ensures powers == [] && freqs == [] && freqsErrs == []
      ensures phases == [] && amps == [] && phasesErrs == [] && ampsErrs == []
    {
      powers, freqs, freqsErrs := [], [], [];
      phases, amps, phasesErrs, ampsErrs := [], [], [], [];
    }

    /** reset() followed by the first entries subtractCW records: the
        initial power and an empty vector per trace. */
    method Open(p0: real, ntraces: nat)
      modifies this
      ensures Consistent(ntraces) && powers == [p0] && freqs == [] && freqsErrs == []
      ensures forall t :: 0 <= t < ntraces ==> phases[t] == [] && amps[t] == []
    {
      Clear();
      powers := powers + [p0];
      var empty: seq<seq<real>> := seq(ntraces, _ => []);
      phases := phases + empty;
      phasesErrs := phasesErrs + empty;
      amps := amps + empty;
      ampsErrs := ampsErrs + empty;
    }

    /** append(r): r's entries go after this result's; the per-trace loop runs
        over this result's traces, so r needs at least as many. */
    method Append(r: SineSubtractResult)
      requires r != this
      requires |r.phases| >= |phases| && |r.amps| >= |phases|
      requires |r.phasesErrs| >= |phases| && |r.ampsErrs| >= |phases|
      requires |amps| >= |phases| && |phasesErrs| >= |phases| && |ampsErrs| >= |phases|
      modifies this
      ensures powers == old(powers) + r.powers && freqs == old(freqs) + r.freqs
      ensures freqsErrs == old(freqsErrs) + r.freqsErrs
      ensures |phases| == |old(phases)| && |amps| == |old(amps)|
      ensures |phasesErrs| == |old(phasesErrs)| && |ampsErrs| == |old(ampsErrs)|
      ensures forall t :: 0 <= t < |phases| ==>
        && phases[t] == old(phases[t]) + r.phases[t] && amps[t] == old(amps[t]) + r.amps[t]
        && phasesErrs[t] == old(phasesErrs[t]) + r.phasesErrs[t]
        && ampsErrs[t] == old(ampsErrs[t]) + r.ampsErrs[t]
      ensures forall t :: |phases| <= t < |amps| ==> amps[t] == old(amps[t])
      ensures forall t :: |phases| <= t < |phasesErrs| ==> phasesErrs[t] == old(phasesErrs[t])
      ensures forall t :: |phases| <= t < |ampsErrs| ==> ampsErrs[t] == old(ampsErrs[t])
    {
      powers := powers + r.powers;
      freqs := freqs + r.freqs;
      freqsErrs := freqsErrs + r.freqsErrs;
      for i := 0 to |phases|
        invariant |phases| == |old(phases)| && |amps| == |old(amps)|
        invariant |phasesErrs| == |old(phasesErrs)| && |ampsErrs| == |old(ampsErrs)|
        invariant powers == old(powers) + r.powers && freqs == old(freqs) + r.freqs
        invariant freqsErrs == old(freqsErrs) + r.freqsErrs
        invariant forall t :: 0 <= t < i ==>
          && phases[t] == old(phases[t]) + r.phases[t] && amps[t] == old(amps[t]) + r.amps[t]
          && phasesErrs[t] == old(phasesErrs[t]) + r.phasesErrs[t]
          && ampsErrs[t] == old(ampsErrs[t]) + r.ampsErrs[t]
        invariant forall t :: i <= t < |phases| ==> phases[t] == old(phases[t])
        invariant forall t :: i <= t < |amps| ==> amps[t] == old(amps[t])
        invariant forall t :: i <= t < |phasesErrs| ==> phasesErrs[t] == old(phasesErrs[t])
        invariant forall t :: i <= t < |ampsErrs| ==> ampsErrs[t] == old(ampsErrs[t])
      {
        phases := phases[i := phases[i] + r.phases[i]];
        amps := amps[i := amps[i] + r.amps[i]];
        phasesErrs := phasesErrs[i := phasesErrs[i] + r.phasesErrs[i]];
        ampsErrs := ampsErrs[i := ampsErrs[i] + r.ampsErrs[i]];
      }
    }

    /** The accept branch's push_backs: one more power, frequency and, for
        every trace, phase and amplitude with their errors. */
    method PushSine(power: real, freq: real, freqErr: real, phase: seq<real>, phaseErr: seq<real>,
                    amp: seq<real>, ampErr: seq<real>)
      requires Consistent(|phases|)
      requires |phase| >= |phases| && |phaseErr| >= |phases| && |amp| >= |phases| && |ampErr| >= |phases|
      modifies this
      ensures Consistent(|phases|) && |phases| == |old(phases)|
      ensures powers == old(powers) + [power] && freqs == old(freqs) + [freq] && freqsErrs == old(freqsErrs) + [freqErr]
      ensures forall t :: 0 <= t < |phases| ==>
        && phases[t] == old(phases[t]) + [phase[t]] && amps[t] == old(amps[t]) + [amp[t]]
        && phasesErrs[t] == old(phasesErrs[t]) + [phaseErr[t]] && ampsErrs[t] == old(ampsErrs[t]) + [ampErr[t]]
    {
      powers := powers + [power];
      freqs := freqs + [freq];
      freqsErrs := freqsErrs + [freqErr];
      for i := 0 to |phases|
        invariant |phases| == |amps| == |phasesErrs| == |ampsErrs| == |old(phases)|
        invariant powers == old(powers) + [power] && freqs == old(freqs) + [freq] && freqsErrs == old(freqsErrs) + [freqErr]
        invariant forall t :: 0 <= t < i ==>
          && phases[t] == old(phases[t]) + [phase[t]] && amps[t] == old(amps[t]) + [amp[t]]
          && phasesErrs[t] == old(phasesErrs[t]) + [phaseErr[t]] && ampsErrs[t] == old(ampsErrs[t]) + [ampErr[t]]
        invariant forall t :: i <= t < |phases| ==>
          && phases[t] == old(phases[t]) && amps[t] == old(amps[t])
          && phasesErrs[t] == old(phasesErrs[t]) && ampsErrs[t] == old(ampsErrs[t])
      {
        phases := phases[i := phases[i] + [phase[i]]];
        amps := amps[i := amps[i] + [amp[i]]];
        phasesErrs := phasesErrs[i := phasesErrs[i] + [phaseErr[i]]];
        ampsErrs := ampsErrs[i := ampsErrs[i] + [ampErr[i]]];
      }
    }
  }

  /** Appending one consistent result to another over the same traces
      gives a consistent result whose sine count is the sum of the two. */
  lemma AppendKeepsConsistent(ntraces: nat,
                              freqs: seq<real>, freqsErrs: seq<real>, phases: seq<seq<real>>, amps: seq<seq<real>>,
                              phasesErrs: seq<seq<real>>, ampsErrs: seq<seq<real>>,
                              freqs2: seq<real>, freqsErrs2: seq<real>, phases2: seq<seq<real>>, amps2: seq<seq<real>>,
                              phasesErrs2: seq<seq<real>>, ampsErrs2: seq<seq<real>>)
    requires |freqsErrs| == |freqs| && |freqsErrs2| == |freqs2|
    requires |phases| == |amps| == |phasesErrs| == |ampsErrs| == ntraces
    requires |phases2| == |amps2| == |phasesErrs2| == |ampsErrs2| == ntraces
    requires forall t :: 0 <= t < ntraces ==> |phases[t]| == |amps[t]| == |phasesErrs[t]| == |ampsErrs[t]| == |freqs|
    requires forall t :: 0 <= t < ntraces ==> |phases2[t]| == |amps2[t]| == |phasesErrs2[t]| == |ampsErrs2[t]| == |freqs2|
    ensures forall t :: 0 <= t < ntraces ==>
      |phases[t] + phases2[t]| == |amps[t] + amps2[t]| == |phasesErrs[t] + phasesErrs2[t]|
        == |ampsErrs[t] + ampsErrs2[t]| == |freqs + freqs2| == |freqs| + |freqs2|
    ensures |freqsErrs + freqsErrs2| == |freqs + freqs2|
  {
  }

  // ---- the power-reduction test ----

  /** ratio = 1 - power / last, compared with min_power_reduction as IEEE
      doubles compare: after a zero last power a positive power gives
      ratio = -inf, which fails, and a zero power gives NaN, which passes. */
  predicate Rejects(power: real, last: real, minPowerReduction: real)
  {
    if last == 0.0 then power > 0.0 else 1.0 - power / last < minPowerReduction
  }

  /** After a positive power, a fit is kept exactly when it leaves at most
      (1 - min_power_reduction) of that power. */
  lemma RejectsMeansTooLittleRemoved(power: real, last: real, minPowerReduction: real)
    requires last > 0.0
    ensures !Rejects(power, last, minPowerReduction) <==> power <= (1.0 - minPowerReduction) * last
  {
    DivAtMost(power, last, 1.0 - minPowerReduction);
  }

  /** x / d <= c exactly when x <= c d, for d > 0. */
  lemma DivAtMost(x: real, d: real, c: real)
    requires d > 0.0
    ensures x / d <= c <==> x <= c * d
  {
    var q := x / d;
    assert x == q * d;
    assert c * d - x == (c - q) * d;
    if q <= c {
      ProductNonneg(c - q, d);
    } else {
      ProductPositive(q - c, d);
      assert x - c * d == (q - c) * d;
    }
  }

  // ---- the peak search ----

  /** What the frequency scale depends on: the frequency window, the sample
      spacing used and the padded length. */
  datatype Window = Window(fmin: real, fmax: real, realdt: real, nzeropad: nat)

  predicate ValidWindow(w: Window)
  {
    w.realdt != 0.0 && w.nzeropad > 0
  }

  /** The frequency of bin i. */
  function BinFreq(w: Window, i: nat): real
    requires ValidWindow(w)
  {
    i as real / (w.realdt * w.nzeropad as real)
  }

  /** Half a bin. */
  function HalfBin(w: Window): real
    requires ValidWindow(w)
  {
    0.5 / (w.realdt * w.nzeropad as real)
  }

  /** Bin i is searched unless it lies wholly below a positive fmin or wholly
      above a positive fmax. */
  predicate InWindow(w: Window, i: nat)
    requires ValidWindow(w)
  {
    && !(w.fmin > 0.0 && BinFreq(w, i) + HalfBin(w) < w.fmin)
    && !(w.fmax > 0.0 && BinFreq(w, i) - HalfBin(w) > w.fmax)
  }

  /** A bin's power, divided by one more than the number of times a fit at
      that bin was rejected. */
  function Adjusted(mag2: seq<real>, failed: multiset<int>, i: nat): real
    requires i < |mag2|
  {
    mag2[i] / (1 + failed[i]) as real
  }

  function Min(a: real, b: real): real
  {
    if a <= b then a else b
  }

  /** A lone peak: 0.15 times its power exceeds the power of the weaker of
      its two neighbours, so it is more than about 6.7 times as strong as
      that neighbour; an edge bin's missing neighbour counts as DBL_MAX. */
  predicate Lone(mag2: seq<real>, i: nat)
    requires i < |mag2|
  {
    var low := if i == 0 then DblMax else mag2[i - 1];
    var high := if i == |mag2| - 1 then DblMax else mag2[i + 1];
    mag2[i] * NeighborFactor2 > Min(low, high)
  }

  /** The scan's state: the chosen bin (-1 for none yet), its adjusted power
      and its frequency. */
  datatype Peak = Peak(index: int, adjusted: real, freq: real)

  /** The state after scanning bins [0, k). The first bin in the window is
      taken whatever it is; later ones replace it when they are lone peaks
      with a larger adjusted power. */
  function Scan(mag2: seq<real>, failed: multiset<int>, w: Window, k: nat): (p: Peak)
    requires ValidWindow(w) && k <= |mag2|
    ensures -1 <= p.index < k
  {
    if k == 0 then Peak(-1, 0.0, 0.0)
    else ScanStep(Scan(mag2, failed, w, k - 1), mag2, failed, w, k - 1)
  }

  /** Bin i's turn in the scan. */
  function ScanStep(prev: Peak, mag2: seq<real>, failed: multiset<int>, w: Window, i: nat): Peak
    requires ValidWindow(w) && i < |mag2|
  {
    if !InWindow(w, i) then prev
    else if prev.index < 0 || (Adjusted(mag2, failed, i) > prev.adjusted && Lone(mag2, i))
    then Peak(i, Adjusted(mag2, failed, i), BinFreq(w, i))
    else prev
  }

  /** The scan picks a bin exactly when some bin lies in the window; the bin
      it picks is in the window, and it carries that bin's adjusted power
      and frequency. */
  lemma {:induction false} ScanPicksWindowBin(mag2: seq<real>, failed: multiset<int>, w: Window, k: nat)
    requires ValidWindow(w) && k <= |mag2|
    ensures var p := Scan(mag2, failed, w, k);
      && -1 <= p.index < k
      && (p.index == -1 <==> forall i :: 0 <= i < k ==> !InWindow(w, i))
      && (p.index >= 0 ==> InWindow(w, p.index) && p.adjusted == Adjusted(mag2, failed, p.index)
                           && p.freq == BinFreq(w, p.index))
  {
    if k > 0 {
      ScanPicksWindowBin(mag2, failed, w, k - 1);
    }
  }

  /** No lone peak in the window has a larger adjusted power than the chosen
      bin, and the chosen bin is a lone peak unless it is the first bin of
      the window. */
  lemma {:induction false} ScanPicksStrongestLonePeak(mag2: seq<real>, failed: multiset<int>, w: Window, k: nat)
    requires ValidWindow(w) && k <= |mag2|
    ensures var p := Scan(mag2, failed, w, k);
      && (forall i :: 0 <= i < k && InWindow(w, i) && Lone(mag2, i) ==> Adjusted(mag2, failed, i) <= p.adjusted)
      && (0 <= p.index < |mag2| ==> Lone(mag2, p.index) || forall j :: 0 <= j < p.index ==> !InWindow(w, j))
  {
    if k > 0 {
      ScanPicksStrongestLonePeak(mag2, failed, w, k - 1);
      ScanPicksWindowBin(mag2, failed, w, k - 1);
    }
  }

  /** The first bin of the window is taken whatever its power, and a later
      bin only replaces the choice with a larger adjusted power, so the
      chosen bin's adjusted power is at least the first in-window bin's. */
  lemma {:induction false} ScanAtLeastFirstInWindow(mag2: seq<real>, failed: multiset<int>, w: Window, k: nat, f: nat)
    requires ValidWindow(w) && f < k <= |mag2|
    requires InWindow(w, f) && forall j :: 0 <= j < f ==> !InWindow(w, j)
    ensures Adjusted(mag2, failed, f) <= Scan(mag2, failed, w, k).adjusted
  {
    if k == f + 1 {
      ScanPicksWindowBin(mag2, failed, w, f);
    } else {
      ScanAtLeastFirstInWindow(mag2, failed, w, k - 1, f);
      ScanPicksWindowBin(mag2, failed, w, k - 1);
    }
  }

  /** With fmin above the whole spectrum (bins at 0 and 0.5, fmin 10) no bin
      is in the window, and the bin loop ends with max_i still -1; the code
      after it then reads ffts[ti][max_i], before the start of the array. */
  lemma NoBinInWindow()
    ensures var w := Window(10.0, 0.0, 1.0, 2);
      ValidWindow(w) && Scan([1.0, 1.0], multiset{}, w, 2).index == -1
  {
    var w := Window(10.0, 0.0, 1.0, 2);
    assert BinFreq(w, 0) == 0.0 && BinFreq(w, 1) == 0.5 && HalfBin(w) == 0.25;
    assert !InWindow(w, 0) && !InWindow(w, 1);
    ScanPicksWindowBin([1.0, 1.0], multiset{}, w, 2);
  }

  /** The bin loop of subtractCW: picks the bin the next fit starts from. */
  method SelectPeak(mag2: array<real>, failed: multiset<int>, w: Window) returns (maxI: int, maxF: real)
    requires ValidWindow(w)
    ensures var p := Scan(mag2[..], failed, w, mag2.Length); maxI == p.index && maxF == p.freq
  {
    maxI := -1;
    var maxAdjusted := 0.0;
    maxF := 0.0;
    var df := 0.5 / (w.realdt * w.nzeropad as real);
    for i := 0 to mag2.Length
      invariant Peak(maxI, maxAdjusted, maxF) == Scan(mag2[..], failed, w, i)
    {
      maxI, maxAdjusted, maxF := ConsiderBin(mag2, failed, w, df, i, maxI, maxAdjusted, maxF);
    }
  }

  /** One pass of the bin loop: bin i replaces the current choice when it is
      in the window and either nothing is chosen yet or it is a stronger lone
      peak. */
  method ConsiderBin(mag2: array<real>, failed: multiset<int>, w: Window, df: real, i: nat,
                     maxI: int, maxAdjusted: real, maxF: real)
    returns (newI: int, newAdjusted: real, newF: real)
    requires ValidWindow(w) && i < mag2.Length && df == HalfBin(w)
    ensures Peak(newI, newAdjusted, newF) == ScanStep(Peak(maxI, maxAdjusted, maxF), mag2[..], failed, w, i)
  {
    newI, newAdjusted, newF := maxI, maxAdjusted, maxF;
    var freq := i as real / (w.realdt * w.nzeropad as real);
    var adjusted := mag2[i] / (1 + failed[i]) as real;
    var neighLow := if i == 0 then DblMax else mag2[i - 1];
    var neighHigh := if i == mag2.Length - 1 then DblMax else mag2[i + 1];
    assert freq == BinFreq(w, i);
    assert adjusted == Adjusted(mag2[..], failed, i);
    assert (mag2[i] * NeighborFactor2 > Min(neighLow, neighHigh)) == Lone(mag2[..], i);
    if w.fmin > 0.0 && freq + df < w.fmin {
      return;
    }
    if w.fmax > 0.0 && freq - df > w.fmax {
      return;
    }
    if maxI < 0 || (adjusted > maxAdjusted && mag2[i] * NeighborFactor2 > Min(neighLow, neighHigh)) {
      newI, newAdjusted, newF := i, adjusted, freq;
    }
  }

  // ---- the traces ----

  /** The traces' samples, one row per trace, as values. */
  function Rows(a: array2<real>): (s: seq<seq<real>>)
    reads a
    ensures |s| == a.Length0
    ensures forall t :: 0 <= t < |s| ==> |s[t]| == a.Length1
  {
    seq(a.Length0, t reads a => seq(a.Length1, i reads a requires 0 <= i < a.Length1 => if 0 <= t < a.Length0 then a[t, i] else 0.0))
  }

  lemma RowIs(a: array2<real>, t: nat, row: seq<real>)
    requires t < a.Length0 && |row| == a.Length1
    requires forall i :: 0 <= i < a.Length1 ==> a[t, i] == row[i]
    ensures Rows(a)[t] == row
  {
  }

  lemma RowAt(a: array2<real>, t: nat, i: nat)
    requires t < a.Length0 && i < a.Length1
    ensures Rows(a)[t][i] == a[t, i]
  {
  }

  lemma RowsAre(a: array2<real>, rows: seq<seq<real>>)
    requires |rows| == a.Length0 && forall t :: 0 <= t < |rows| ==> |rows[t]| == a.Length1
    requires forall t, i :: 0 <= t < a.Length0 && 0 <= i < a.Length1 ==> a[t, i] == rows[t][i]
    ensures Rows(a) == rows
  {
    forall t | 0 <= t < a.Length0
      ensures Rows(a)[t] == rows[t]
    {
      RowIs(a, t, rows[t]);
    }
  }

  /** Samples [low, high) of every row: what the fit and the FFT see. */
  function Cropped(a: array2<real>, low: nat, high: nat): (s: seq<seq<real>>)
    requires low <= high <= a.Length1
    reads a
    ensures |s| == a.Length0
    ensures forall t :: 0 <= t < |s| ==> |s[t]| == high - low
    ensures forall t, i :: 0 <= t < a.Length0 && low <= i < high ==> s[t][i - low] == a[t, i]
  {
    seq(a.Length0, t reads a => seq(high - low, i reads a requires 0 <= i < high - low =>
      if 0 <= t < a.Length0 then a[t, low + i] else 0.0))
  }

  /** TGraph::GetMean(2): the mean of all of a row's values. */
  function Mean(row: seq<real>): real
    requires |row| > 0
  {
    Sum(row) / |row| as real
  }

  /** Every row with its mean taken off the samples in [low, high). */
  function Centered(rows: seq<seq<real>>, low: nat, high: nat): (c: seq<seq<real>>)
    requires forall t :: 0 <= t < |rows| ==> |rows[t]| > 0
    ensures |c| == |rows| && forall t :: 0 <= t < |c| ==> |c[t]| == |rows[t]|
  {
    seq(|rows|, t requires 0 <= t < |rows| =>
      seq(|rows[t]|, i requires 0 <= i < |rows[t]| =>
        if low <= i < high then rows[t][i] - Mean(rows[t]) else rows[t][i]))
  }

  /** The sum of squares of s. */
  function Energy(s: seq<real>): real
  {
    if |s| == 0 then 0.0 else Energy(s[..|s| - 1]) + Sq(s[|s| - 1])
  }

  /** The energy of samples [low, high) of rows [0, k). */
  function WindowEnergy(rows: seq<seq<real>>, low: nat, high: nat, k: nat): real
    requires k <= |rows| && low <= high
    requires forall t :: 0 <= t < |rows| ==> |rows[t]| >= high
  {
    if k == 0 then 0.0 else WindowEnergy(rows, low, high, k - 1) + Energy(rows[k - 1][low..high])
  }

  /** The power subtractCW records first: the window energy per sample and
      per trace. */
  function InitialPower(rows: seq<seq<real>>, low: nat, high: nat, ntraces: nat): real
    requires 0 < ntraces <= |rows| && low < high
    requires forall t :: 0 <= t < |rows| ==> |rows[t]| >= high
  {
    WindowEnergy(rows, low, high, ntraces) / (high - low) as real / ntraces as real
  }

  /** Energies are never negative. */
  lemma {:induction false} EnergyNonneg(s: seq<real>)
    ensures Energy(s) >= 0.0
    ensures Energy(s) == 0.0 <==> forall i :: 0 <= i < |s| ==> s[i] == 0.0
  {
    if |s| > 0 {
      EnergyNonneg(s[..|s| - 1]);
      SqNonneg(s[|s| - 1]);
      if s[|s| - 1] != 0.0 {
        SqPositive(s[|s| - 1]);
      }
      assert forall i :: 0 <= i < |s| - 1 ==> s[..|s| - 1][i] == s[i];
    }
  }

  lemma {:induction false} WindowEnergyNonneg(rows: seq<seq<real>>, low: nat, high: nat, k: nat)
    requires k <= |rows| && low <= high
    requires forall t :: 0 <= t < |rows| ==> |rows[t]| >= high
    ensures WindowEnergy(rows, low, high, k) >= 0.0
  {
    if k > 0 {
      WindowEnergyNonneg(rows, low, high, k - 1);
      EnergyNonneg(rows[k - 1][low..high]);
    }
  }

  /** Centering takes the mean off: the centered part of a row whose window
      is the whole row sums to zero. */
  lemma CenteredSumsToZero(rows: seq<seq<real>>, t: nat)
    requires t < |rows| && forall u :: 0 <= u < |rows| ==> |rows[u]| > 0
    ensures Sum(Centered(rows, 0, |rows[t]|)[t]) == 0.0
  {
    var row := rows[t];
    var n := |row|;
    var c := Centered(rows, 0, n)[t];
    var m := Mean(row);
    SumMinusConstant(row, c, m);
    assert Sum(row) == m * n as real;
  }

  /** Taking m off every term takes n m off the sum. */
  lemma {:induction false} SumMinusConstant(s: seq<real>, c: seq<real>, m: real)
    requires |c| == |s| && forall i :: 0 <= i < |s| ==> c[i] == s[i] - m
    ensures Sum(c) == Sum(s) - |s| as real * m
  {
    if |s| > 0 {
      var n := |s| - 1;
      SumMinusConstant(s[..n], c[..n], m);
      assert Sum(c) == Sum(c[..n]) + c[n];
      assert (n + 1) as real * m == n as real * m + m;
    }
  }

  /** The zero-mean step of subtractCW: each row loses its mean on [low, high),
      and the energy left in the window is returned. */
  method ZeroMean(ys: array2<real>, low: nat, high: nat) returns (power: real)
    requires low <= high <= ys.Length1 && ys.Length1 > 0
    modifies ys
    ensures Rows(ys) == Centered(old(Rows(ys)), low, high)
    ensures power == WindowEnergy(Rows(ys), low, high, ys.Length0)
  {
    ghost var target := Centered(Rows(ys), low, high);
    ghost var orig := Rows(ys);
    power := 0.0;
    for ti := 0 to ys.Length0
      invariant forall t, i :: 0 <= t < ti && 0 <= i < ys.Length1 ==> ys[t, i] == target[t][i]
      invariant forall t, i :: ti <= t < ys.Length0 && 0 <= i < ys.Length1 ==> ys[t, i] == orig[t][i]
      invariant power == WindowEnergy(target, low, high, ti)
    {
      power := CenterTrace(ys, ti, low, high, orig, target, power);
    }
    RowsAre(ys, target);
  }

  /** One pass of the zero-mean loop: trace ti loses its mean in the window. */
  method CenterTrace(ys: array2<real>, ti: nat, low: nat, high: nat, ghost orig: seq<seq<real>>,
                     ghost target: seq<seq<real>>, power0: real) returns (power: real)
    requires ti < ys.Length0 && low <= high <= ys.Length1 && ys.Length1 > 0
    requires |orig| == ys.Length0 && forall t :: 0 <= t < |orig| ==> |orig[t]| == ys.Length1
    requires target == Centered(orig, low, high)
    requires forall i :: 0 <= i < ys.Length1 ==> ys[ti, i] == orig[ti][i]
    modifies ys
    ensures forall t, j :: 0 <= t < ys.Length0 && t != ti && 0 <= j < ys.Length1 ==> ys[t, j] == old(ys[t, j])
    ensures forall i :: 0 <= i < ys.Length1 ==> ys[ti, i] == target[ti][i]
    ensures power == power0 + Energy(target[ti][low..high])
  {
    RowIs(ys, ti, orig[ti]);
    var mean := Mean(Rows(ys)[ti]);
    power := CenterRow(ys, ti, low, high, mean, power0);
    RowIs(ys, ti, target[ti]);
  }

  /** The inner loop of the zero-mean step, on row ti. */
  method CenterRow(ys: array2<real>, ti: nat, low: nat, high: nat, mean: real, power0: real) returns (power: real)
    requires ti < ys.Length0 && low <= high <= ys.Length1
    modifies ys
    ensures forall t, j :: 0 <= t < ys.Length0 && t != ti && 0 <= j < ys.Length1 ==> ys[t, j] == old(ys[t, j])
    ensures forall j :: 0 <= j < ys.Length1 ==> ys[ti, j] == if low <= j < high then old(ys[ti, j]) - mean else old(ys[ti, j])
    ensures power == power0 + Energy(Rows(ys)[ti][low..high])
  {
    ghost var row := Rows(ys)[ti];
    ghost var centered := seq(|row|, j requires 0 <= j < |row| => if low <= j < high then row[j] - mean else row[j]);
    power := power0;
    for i := low to high
      invariant forall t, j :: 0 <= t < ys.Length0 && t != ti && 0 <= j < ys.Length1 ==> ys[t, j] == old(ys[t, j])
      invariant forall j :: 0 <= j < ys.Length1 ==> ys[ti, j] == if low <= j < i then centered[j] else row[j]
      invariant power == power0 + Energy(centered[low..i])
    {
      var v := ys[ti, i] - mean;
      ys[ti, i] := v;
      assert centered[low..i + 1] == centered[low..i] + [centered[i]];
      power := power + Sq(v);
    }
    RowIs(ys, ti, centered);
  }

  // ---- the spectrum ----

  /** The FFT of one cropped trace (times, values) padded to n points: n/2 + 1
      bins. Windowing and interpolation happen inside it. */
  type Fft = (seq<real>, seq<real>, nat) -> seq<Complex>

  ghost predicate FftWellBehaved(fft: Fft)
  {
    forall x, y, n: nat :: |fft(x, y, n)| == n / 2 + 1
  }

  /** The spectra of all cropped traces. */
  function Spectra(xs: array2<real>, ys: array2<real>, low: nat, high: nat, n: nat, fft: Fft): (s: seq<seq<Complex>>)
    requires low <= high <= xs.Length1 && high <= ys.Length1 && xs.Length0 == ys.Length0
    reads xs, ys
    ensures |s| == xs.Length0
  {
    var cx := Cropped(xs, low, high);
    var cy := Cropped(ys, low, high);
    seq(xs.Length0, t requires 0 <= t < xs.Length0 => fft(cx[t], cy[t], n))
  }

  /** The loop over traces that computes the FFTs. */
  method ComputeSpectra(xs: array2<real>, ys: array2<real>, low: nat, high: nat, n: nat, fft: Fft)
    returns (ffts: seq<seq<Complex>>)
    requires low <= high <= xs.Length1 && high <= ys.Length1 && xs.Length0 == ys.Length0
    ensures ffts == Spectra(xs, ys, low, high, n, fft)
  {
    var cx := Cropped(xs, low, high);
    var cy := Cropped(ys, low, high);
    ffts := [];
    for ti := 0 to xs.Length0
      invariant ffts == Spectra(xs, ys, low, high, n, fft)[..ti]
    {
      ffts := ffts + [fft(cx[ti], cy[ti], n)];
    }
  }

  /** The power in bin i summed over traces [0, k). */
  function BinPower(ffts: seq<seq<Complex>>, i: nat, k: nat): real
    requires k <= |ffts| && forall t :: 0 <= t < |ffts| ==> i < |ffts[t]|
  {
    if k == 0 then 0.0 else BinPower(ffts, i, k - 1) + NormSq(ffts[k - 1][i])
  }

  /** Summed power is never negative, and it is zero exactly when every
      trace's bin is zero. */
  lemma {:induction false} BinPowerNonneg(ffts: seq<seq<Complex>>, i: nat, k: nat)
    requires k <= |ffts| && forall t :: 0 <= t < |ffts| ==> i < |ffts[t]|
    ensures BinPower(ffts, i, k) >= 0.0
    ensures BinPower(ffts, i, k) == 0.0 <==> forall t :: 0 <= t < k ==> ffts[t][i] == Zero
  {
    if k > 0 {
      BinPowerNonneg(ffts, i, k - 1);
    }
  }

  /** mag2: every bin's power summed over all traces. */
  function BinPowers(ffts: seq<seq<Complex>>, n: nat): (m: seq<real>)
    requires forall t :: 0 <= t < |ffts| ==> n <= |ffts[t]|
    ensures |m| == n
  {
    seq(n, i requires 0 <= i < n => BinPower(ffts, i, |ffts|))
  }

  /** The loop that sums the squared magnitudes into mag2. */
  method ComputeMag2(ffts: seq<seq<Complex>>, fftlen: nat) returns (mag2: array<real>)
    requires forall t :: 0 <= t < |ffts| ==> fftlen <= |ffts[t]|
    ensures fresh(mag2)
    ensures mag2[..] == BinPowers(ffts, fftlen)
  {
    mag2 := new real[fftlen](_ => 0.0);
    for ti := 0 to |ffts|
      invariant forall i :: 0 <= i < fftlen ==> mag2[i] == BinPower(ffts, i, ti)
    {
      for i := 0 to fftlen
        invariant forall j :: 0 <= j < i ==> mag2[j] == BinPower(ffts, j, ti + 1)
        invariant forall j :: i <= j < fftlen ==> mag2[j] == BinPower(ffts, j, ti)
      {
        mag2[i] := mag2[i] + NormSq(ffts[ti][i]);
      }
    }
  }

  /** The starting phase of every trace: the argument of its bin maxI. */
  function GuessPhases(ffts: seq<seq<Complex>>, maxI: nat, arg: Complex -> real): (ph: seq<real>)
    requires forall t :: 0 <= t < |ffts| ==> maxI < |ffts[t]|
    ensures |ph| == |ffts|
  {
    seq(|ffts|, t requires 0 <= t < |ffts| => arg(ffts[t][maxI]))
  }

  /** The starting amplitude of every trace: 2 |X| / nzeropad at bin maxI. */
  function GuessAmps(ffts: seq<seq<Complex>>, maxI: nat, nzeropad: nat, abs: Complex -> real): (amp: seq<real>)
    requires nzeropad > 0 && forall t :: 0 <= t < |ffts| ==> maxI < |ffts[t]|
    ensures |amp| == |ffts|
  {
    seq(|ffts|, t requires 0 <= t < |ffts| => 2.0 * abs(ffts[t][maxI]) / nzeropad as real)
  }

  /** The fit's starting phases and amplitudes, read off bin maxI. */
  method Guesses(ffts: seq<seq<Complex>>, maxI: nat, nzeropad: nat, arg: Complex -> real, abs: Complex -> real)
    returns (ph: seq<real>, amp: seq<real>)
    requires nzeropad > 0 && forall t :: 0 <= t < |ffts| ==> maxI < |ffts[t]|
    ensures |ph| == |amp| == |ffts|
    ensures forall t :: 0 <= t < |ffts| ==>
      ph[t] == arg(ffts[t][maxI]) && amp[t] == 2.0 * abs(ffts[t][maxI]) / nzeropad as real
    ensures ph == GuessPhases(ffts, maxI, arg) && amp == GuessAmps(ffts, maxI, nzeropad, abs)
  {
    ph, amp := [], [];
    for ti := 0 to |ffts|
      invariant |ph| == |amp| == ti
      invariant forall t :: 0 <= t < ti ==>
        ph[t] == arg(ffts[t][maxI]) && amp[t] == 2.0 * abs(ffts[t][maxI]) / nzeropad as real
    {
      ph := ph + [arg(ffts[ti][maxI])];
      amp := amp + [2.0 * abs(ffts[ti][maxI]) / nzeropad as real];
    }
  }

  // ---- subtracting the fitted sines ----

  /** A sin(2 pi f x + phi). */
  function SineAt(A: real, f: real, phi: real, xv: real, sin: real -> real): real
  {
    A * sin(2.0 * Pi * f * xv + phi)
  }

  /** A sample after the sines (freqs, phases, amps) have been taken off in turn. */
  function Subtracted(v: real, xv: real, freqs: seq<real>, phases: seq<real>, amps: seq<real>, sin: real -> real): real
    requires |phases| == |freqs| && |amps| == |freqs|
  {
    if |freqs| == 0 then v
    else
      var n := |freqs| - 1;
      Subtracted(v, xv, freqs[..n], phases[..n], amps[..n], sin) - SineAt(amps[n], freqs[n], phases[n], xv, sin)
  }

  /** The sum of the sines at xv. */
  function SineSum(xv: real, freqs: seq<real>, phases: seq<real>, amps: seq<real>, sin: real -> real): real
    requires |phases| == |freqs| && |amps| == |freqs|
  {
    if |freqs| == 0 then 0.0
    else
      var n := |freqs| - 1;
      SineSum(xv, freqs[..n], phases[..n], amps[..n], sin) + SineAt(amps[n], freqs[n], phases[n], xv, sin)
  }

  /** What is left plus the sines taken off is what there was. */
  lemma {:induction false} SubtractedPlusSines(v: real, xv: real, freqs: seq<real>, phases: seq<real>, amps: seq<real>,
                                               sin: real -> real)
    requires |phases| == |freqs| && |amps| == |freqs|
    ensures Subtracted(v, xv, freqs, phases, amps, sin) + SineSum(xv, freqs, phases, amps, sin) == v
  {
    if |freqs| > 0 {
      var n := |freqs| - 1;
      SubtractedPlusSines(v, xv, freqs[..n], phases[..n], amps[..n], sin);
    }
  }

  /** Taking off one more sine. */
  lemma SubtractedAppend(v: real, xv: real, freqs: seq<real>, phases: seq<real>, amps: seq<real>,
                         f: real, ph: real, a: real, sin: real -> real)
    requires |phases| == |freqs| && |amps| == |freqs|
    ensures Subtracted(v, xv, freqs + [f], phases + [ph], amps + [a], sin)
      == Subtracted(v, xv, freqs, phases, amps, sin) - SineAt(a, f, ph, xv, sin)
  {
    assert (freqs + [f])[..|freqs|] == freqs;
    assert (phases + [ph])[..|freqs|] == phases;
    assert (amps + [a])[..|freqs|] == amps;
  }

  /** The subtraction loop of subtractCW: every sample of every trace, not
      only the cropped ones, loses its trace's fitted sine. */
  method SubtractSines(ys: array2<real>, xs: array2<real>, freq: real, phases: seq<real>, amps: seq<real>,
                       sin: real -> real)
    requires ys != xs && xs.Length0 == ys.Length0 && xs.Length1 == ys.Length1
    requires |phases| >= ys.Length0 && |amps| >= ys.Length0
    modifies ys
    ensures forall t, i :: 0 <= t < ys.Length0 && 0 <= i < ys.Length1 ==>
      ys[t, i] == old(ys[t, i]) - SineAt(amps[t], freq, phases[t], xs[t, i], sin)
  {
    for ti := 0 to ys.Length0
      invariant forall t, i :: 0 <= t < ti && 0 <= i < ys.Length1 ==>
        ys[t, i] == old(ys[t, i]) - SineAt(amps[t], freq, phases[t], xs[t, i], sin)
      invariant forall t, i :: ti <= t < ys.Length0 && 0 <= i < ys.Length1 ==> ys[t, i] == old(ys[t, i])
    {
      SubtractRow(ys, xs, ti, amps[ti], freq, phases[ti], sin);
    }
  }

  method SubtractRow(ys: array2<real>, xs: array2<real>, ti: nat, A: real, freq: real, phi: real, sin: real -> real)
    requires ys != xs && xs.Length0 == ys.Length0 && xs.Length1 == ys.Length1 && ti < ys.Length0
    modifies ys
    ensures forall i :: 0 <= i < ys.Length1 ==> ys[ti, i] == old(ys[ti, i]) - SineAt(A, freq, phi, xs[ti, i], sin)
    ensures forall t, i :: 0 <= t < ys.Length0 && t != ti && 0 <= i < ys.Length1 ==> ys[t, i] == old(ys[t, i])
  {
    for i := 0 to ys.Length1
      invariant forall j :: 0 <= j < i ==> ys[ti, j] == old(ys[ti, j]) - SineAt(A, freq, phi, xs[ti, j], sin)
      invariant forall j :: i <= j < ys.Length1 ==> ys[ti, j] == old(ys[ti, j])
      invariant forall t, j :: 0 <= t < ys.Length0 && t != ti && 0 <= j < ys.Length1 ==> ys[t, j] == old(ys[t, j])
    {
      var sine := A * sin(2.0 * Pi * freq * xs[ti, i] + phi);
      assert sine == SineAt(A, freq, phi, xs[ti, i], sin);
      ys[ti, i] := ys[ti, i] - sine;
    }
  }

  // ---- subtractCW ----

  /** The numerical routines subtractCW relies on. */
  datatype Tools = Tools(fft: Fft, arg: Complex -> real, abs: Complex -> real, sin: real -> real, minimize: Minimizer)

  ghost predicate ToolsWellBehaved(tools: Tools)
  {
    FftWellBehaved(tools.fft) && MinimizerWellBehaved(tools.minimize)
  }

  /** The bin one pass of subtractCW picks from the traces as they stand:
      the scan of the summed power spectrum of the cropped traces. */
  ghost function PeakOf(xs: array2<real>, ys: array2<real>, low: nat, high: nat, nzeropad: nat,
                        failed: multiset<int>, w: Window, fft: Fft): Peak
    requires FftWellBehaved(fft) && ValidWindow(w)
    requires low <= high <= xs.Length1 && high <= ys.Length1 && xs.Length0 == ys.Length0
    reads xs, ys
  {
    Scan(BinPowers(Spectra(xs, ys, low, high, nzeropad, fft), nzeropad / 2 + 1), failed, w, nzeropad / 2 + 1)
  }

  /** What the minimizer returns for a fit started at bin maxI of the spectra
      ffts, with frequency guess maxF, on the cropped traces. */
  ghost function FitFrom(ffts: seq<seq<Complex>>, xs: array2<real>, ys: array2<real>, low: nat, high: nat,
                         nzeropad: nat, maxI: nat, maxF: real, tools: Tools): FitResult
    requires nzeropad > 0 && forall t :: 0 <= t < |ffts| ==> maxI < |ffts[t]|
    requires xs.Length0 == ys.Length0 == |ffts| >= 1
    requires low + 2 <= high <= xs.Length1 && high <= ys.Length1 && xs[0, high - 1] != xs[0, low]
    reads xs, ys
  {
    var x := Cropped(xs, low, high);
    var y := Cropped(ys, low, high);
    assert x[0][high - low - 1] == xs[0, high - 1] && x[0][0] == xs[0, low];
    tools.minimize(FitVariables(maxF, FitWidth(x, high - low), GuessPhases(ffts, maxI, tools.arg),
                                GuessAmps(ffts, maxI, nzeropad, tools.abs), |ffts|), x, y)
  }

  /** The frequency window subtractCW searches for nuse cropped samples:
      fmin and fmax, the sample spacing dt (or x1 - x0, the spacing of the
      first two x values, when dt is not positive), and the zero-padded
      length. */
  function SearchWindow(fmin: real, fmax: real, dt: real, x0: real, x1: real, nuse: nat): (w: Window)
    requires (dt > 0.0 || x1 != x0) && nuse >= 2
    ensures ValidWindow(w) && w.nzeropad == ZeroPadLength(nuse)
  {
    ZeroPadBounds(nuse);
    Window(fmin, fmax, if dt > 0.0 then dt else x1 - x0, ZeroPadLength(nuse))
  }

  /** No bin of the first n lies in the frequency window. */
  predicate WindowEmpty(w: Window, n: nat)
    requires ValidWindow(w)
  {
    forall i :: 0 <= i < n ==> !InWindow(w, i)
  }

  /** The search found no bin: none of the w.nzeropad / 2 + 1 bins lies in
      the window. */
  predicate Exhausted(w: Window)
    requires ValidWindow(w)
  {
    WindowEmpty(w, w.nzeropad / 2 + 1)
  }

  /** Every failed bin is a bin of the window. */
  predicate FailuresInWindow(failed: multiset<int>, w: Window)
    requires ValidWindow(w)
  {
    forall b :: b in failed ==> b >= 0 && InWindow(w, b)
  }

  /** How one pass of the loop ended: no bin in the window, a fit at bin
      `bin` that removed too little power, or a kept sine. */
  datatype Outcome = NoBin | Rejected(bin: int) | Accepted

  /** The number of failures that ends the loop: failure k (counting from 1)
      stops it when k - 1 > maxiter, so the (maxiter + 2)-th one does, or the
      first one when maxiter < -1. */
  function FailureLimit(maxiter: int): (k: nat)
    ensures k >= 1 && k - 1 > maxiter
    ensures k == 1 || k - 2 <= maxiter
  {
    if maxiter + 2 >= 1 then maxiter + 2 else 1
  }

  /** The SineSubtract object: its settings, its results and its fitter. */
  class SineSubtract {
    var maxiter: int
    var minPowerReduction: real
    var tmin: int
    var tmax: int
    var fmin: real
    var fmax: real
    const r: SineSubtractResult
    const fitter: SineFitter

    /** SineSubtract(maxiter, min_power_reduction): no cropping and no
        frequency window. */
    constructor (maxiter: int, minPowerReduction: real)
      ensures this.maxiter == maxiter && this.minPowerReduction == minPowerReduction
      ensures tmin == 0 && tmax == 0 && fmin == 0.0 && fmax == 0.0
      ensures fresh(r) && fresh(fitter)
    {
      this.maxiter := maxiter;
      this.minPowerReduction := minPowerReduction;
      tmin, tmax := 0, 0;
      fmin, fmax := 0.0, 0.0;
      r := new SineSubtractResult();
      fitter := new SineFitter();
    }

    /** getNSines: the number of sines kept, read off trace 0's phases. */
    function GetNSines(ntraces: nat): (n: nat)
      reads this, r
      requires ntraces > 0 && r.Consistent(ntraces)
      ensures n == |r.freqs| && n == |r.amps[ntraces - 1]|
    {
      |r.phases[0]|
    }

    /** The fitter holds one phase and amplitude per trace, the phases in
        [-pi, pi), and room for their errors. */
    predicate FitterReady(ntraces: nat)
      reads this, fitter
    {
      && |fitter.phase| == |fitter.amp| == ntraces
      && |fitter.phaseErr| >= ntraces && |fitter.ampErr| >= ntraces
      && forall t :: 0 <= t < ntraces ==> -Pi <= fitter.phase[t] < Pi
    }

    /** Every sample is what is left of the centered traces c0 once the
        recorded sines are taken off. */
    predicate Explains(ys: array2<real>, xs: array2<real>, c0: seq<seq<real>>, sin: real -> real)
      reads this, r, ys, xs
    {
      && r.Consistent(ys.Length0)
      && xs.Length0 == ys.Length0 && xs.Length1 == ys.Length1
      && |c0| == ys.Length0 && (forall t :: 0 <= t < |c0| ==> |c0[t]| == ys.Length1)
      && forall t, i :: 0 <= t < ys.Length0 && 0 <= i < ys.Length1 ==>
           ys[t, i] == Subtracted(c0[t][i], xs[t, i], r.freqs, r.phases[t], r.amps[t], sin)
    }

    /** What subtractCW keeps true: the results explain the traces, the
        first power is p0, every kept sine removed enough power, and every
        kept phase is normalised. */
    predicate Progress(ys: array2<real>, xs: array2<real>, c0: seq<seq<real>>, sin: real -> real, p0: real)
      reads this, r, ys, xs
    {
      && Explains(ys, xs, c0, sin)
      && |r.powers| == |r.freqs| + 1 && r.powers[0] == p0
      && (forall k :: 0 <= k < |r.freqs| ==> !Rejects(r.powers[k + 1], r.powers[k], minPowerReduction))
      && (forall t, k :: 0 <= t < ys.Length0 && 0 <= k < |r.freqs| ==> -Pi <= r.phases[t][k] < Pi)
    }

    /** One search-and-fit: the spectra of the cropped traces, the peak bin,
        and, when a bin is found, the fit started from it. */
    method Attempt(ys: array2<real>, xs: array2<real>, low: nat, high: nat, nzeropad: nat, w: Window,
                   failed: multiset<int>, tools: Tools) returns (maxI: int, power: real)
      requires ToolsWellBehaved(tools) && ValidWindow(w) && w.nzeropad == nzeropad
      requires xs.Length0 == ys.Length0 && 1 <= ys.Length0 <= 3
      requires low + 2 <= high <= xs.Length1 && high <= ys.Length1
      requires xs[0, high - 1] != xs[0, low]
      modifies fitter
      ensures maxI == PeakOf(xs, ys, low, high, nzeropad, failed, w, tools.fft).index
      ensures maxI >= 0 ==> FitterReady(ys.Length0) && power == fitter.power
      ensures maxI >= 0 ==>
        fitter.Holds(FitFrom(Spectra(xs, ys, low, high, nzeropad, tools.fft), xs, ys, low, high, nzeropad, maxI,
                             PeakOf(xs, ys, low, high, nzeropad, failed, w, tools.fft).freq, tools), ys.Length0)
    {
      ghost var pick := PeakOf(xs, ys, low, high, nzeropad, failed, w, tools.fft);
      var ffts := ComputeSpectra(xs, ys, low, high, nzeropad, tools.fft);
      var fftlen := nzeropad / 2 + 1;
      var mag2 := ComputeMag2(ffts, fftlen);
      assert pick == Scan(mag2[..], failed, w, mag2.Length);
      var maxF;
      maxI, maxF := SelectPeak(mag2, failed, w);
      power := 0.0;
      if maxI < 0 {
        return;
      }
      ScanPicksWindowBin(mag2[..], failed, w, fftlen);
      power := FitAt(ys, xs, low, high, nzeropad, ffts, maxI, maxF, tools);
    }

    /** The fit started from bin maxI: phases and amplitudes guessed from
        that bin of every spectrum, then refined by the fitter on the
        cropped traces. */
    method FitAt(ys: array2<real>, xs: array2<real>, low: nat, high: nat, nzeropad: nat,
                 ffts: seq<seq<Complex>>, maxI: nat, maxF: real, tools: Tools) returns (power: real)
      requires MinimizerWellBehaved(tools.minimize) && nzeropad > 0
      requires xs.Length0 == ys.Length0 == |ffts| && 1 <= ys.Length0 <= 3
      requires forall t :: 0 <= t < |ffts| ==> maxI < |ffts[t]|
      requires low + 2 <= high <= xs.Length1 && high <= ys.Length1
      requires xs[0, high - 1] != xs[0, low]
      modifies fitter
      ensures FitterReady(ys.Length0) && power == fitter.power
      ensures fitter.Holds(FitFrom(ffts, xs, ys, low, high, nzeropad, maxI, maxF, tools), ys.Length0)
    {
      var ntraces := ys.Length0;
      var ph, amp := Guesses(ffts, maxI, nzeropad, tools.arg, tools.abs);
      fitter.SetGuess(maxF, ntraces, ph, amp);
      assert ph[..ntraces] == ph && amp[..ntraces] == amp;
      var x := Cropped(xs, low, high);
      var y := Cropped(ys, low, high);
      assert x[0][high - low - 1] == xs[0, high - 1] && x[0][0] == xs[0, low];
      fitter.DoFit(ntraces, high - low, x, y, tools.minimize);
      power := fitter.power;
    }

    /** The accept branch of subtractCW: records the fitted sine and takes it
        off every trace. */
    method AcceptSine(ys: array2<real>, xs: array2<real>, power: real, ghost c0: seq<seq<real>>, sin: real -> real,
                      ghost p0: real)
      requires ys != xs && FitterReady(ys.Length0) && Progress(ys, xs, c0, sin, p0)
      requires !Rejects(power, r.powers[|r.powers| - 1], minPowerReduction)
      modifies r, ys
      ensures Progress(ys, xs, c0, sin, p0)
      ensures r.powers == old(r.powers) + [power] && r.freqs == old(r.freqs) + [fitter.freq]
      ensures r.freqsErrs == old(r.freqsErrs) + [fitter.freqErr]
      ensures forall t :: 0 <= t < ys.Length0 ==>
        && r.phases[t] == old(r.phases[t]) + [fitter.phase[t]] && r.amps[t] == old(r.amps[t]) + [fitter.amp[t]]
        && r.phasesErrs[t] == old(r.phasesErrs[t]) + [fitter.phaseErr[t]]
        && r.ampsErrs[t] == old(r.ampsErrs[t]) + [fitter.ampErr[t]]
    {
      ghost var ntraces := ys.Length0;
      ghost var powers, freqs, phases, amps := r.powers, r.freqs, r.phases, r.amps;
      r.PushSine(power, fitter.freq, fitter.freqErr, fitter.phase, fitter.phaseErr, fitter.amp, fitter.ampErr);
      SubtractSines(ys, xs, fitter.freq, fitter.phase, fitter.amp, sin);
      forall t, i | 0 <= t < ntraces && 0 <= i < ys.Length1
        ensures ys[t, i] == Subtracted(c0[t][i], xs[t, i], r.freqs, r.phases[t], r.amps[t], sin)
      {
        SubtractedAppend(c0[t][i], xs[t, i], freqs, phases[t], amps[t], fitter.freq, fitter.phase[t], fitter.amp[t], sin);
      }
      assert Explains(ys, xs, c0, sin);
      assert forall k :: 0 <= k < |powers| ==> r.powers[k] == powers[k];
      assert forall t, k :: 0 <= t < ntraces && 0 <= k < |freqs| ==> r.phases[t][k] == phases[t][k];
    }

    /** The start of subtractCW: takes the means off and opens the results
        with the first power and one empty vector per trace. */
    method Start(ys: array2<real>, low: nat, high: nat) returns (ghost c0: seq<seq<real>>, p0: real)
      requires low + 2 <= high <= ys.Length1 && ys.Length0 >= 1
      modifies r, ys
      ensures c0 == Centered(old(Rows(ys)), low, high)
      ensures |c0| == ys.Length0 && forall t :: 0 <= t < |c0| ==> |c0[t]| == ys.Length1
      ensures forall t, i :: 0 <= t < ys.Length0 && 0 <= i < ys.Length1 ==> ys[t, i] == c0[t][i]
      ensures p0 == InitialPower(c0, low, high, ys.Length0)
      ensures r.Consistent(ys.Length0) && r.freqs == [] && r.powers == [p0]
    {
      var power := ZeroMean(ys, low, high);
      c0 := Rows(ys);
      forall t, i | 0 <= t < ys.Length0 && 0 <= i < ys.Length1
        ensures ys[t, i] == c0[t][i]
      {
        RowAt(ys, t, i);
      }
      p0 := power / (high - low) as real / ys.Length0 as real;
      assert p0 == InitialPower(c0, low, high, ys.Length0);
      r.Open(p0, ys.Length0);
    }

    /** subtractCW(ntraces, g, dt): takes sines off the traces ys (sampled at
        xs) until a fit fails to remove min_power_reduction of the power more
        than maxiter + 1 times, or no bin is left to try. fuel bounds the
        number of attempts. */
    method SubtractCW(ys: array2<real>, xs: array2<real>, dt: real, tools: Tools, fuel: nat)
      returns (w: Window, failed: multiset<int>, nattempts: nat, last: Outcome)
      requires ToolsWellBehaved(tools) && ys != xs
      requires xs.Length0 == ys.Length0 && xs.Length1 == ys.Length1 && 1 <= ys.Length0 <= 3
      requires CropLow(tmin, ys.Length1) + 2 <= CropHigh(tmax, ys.Length1)
      requires xs[0, CropHigh(tmax, ys.Length1) - 1] != xs[0, CropLow(tmin, ys.Length1)]
      requires dt > 0.0 || xs[0, 1] != xs[0, 0]
      modifies r, fitter, ys
      ensures var low, high := CropLow(tmin, ys.Length1), CropHigh(tmax, ys.Length1);
        var c0 := Centered(old(Rows(ys)), low, high);
        Progress(ys, xs, c0, tools.sin, InitialPower(c0, low, high, ys.Length0))
      ensures nattempts <= fuel && |failed| <= FailureLimit(maxiter)
      ensures nattempts < fuel ==> last == NoBin || (last.Rejected? && |failed| == FailureLimit(maxiter))
      ensures w == old(SearchWindow(fmin, fmax, dt, xs[0, 0], xs[0, 1], CropHigh(tmax, ys.Length1) - CropLow(tmin, ys.Length1)))
      ensures last == NoBin ==> Exhausted(w)
      ensures FailuresInWindow(failed, w)
      ensures |r.freqs| + |failed| + (if last == NoBin then 1 else 0) == nattempts
    {
      var n := ys.Length1;
      var low := CropLow(tmin, n);
      var high := CropHigh(tmax, n);
      var nuse := high - low;
      var nzeropad := ZeroPadLength(nuse);
      ZeroPadBounds(nuse);
      w := SearchWindow(fmin, fmax, dt, xs[0, 0], xs[0, 1], nuse);
      assert w == old(SearchWindow(fmin, fmax, dt, xs[0, 0], xs[0, 1], CropHigh(tmax, ys.Length1) - CropLow(tmin, ys.Length1)));
      ghost var c0;
      var p0;
      c0, p0 := Start(ys, low, high);
      StartProgress(ys, xs, c0, tools.sin, p0);
      // Loop's preconditions, one at a time, after Start changed r and ys.
      assert ToolsWellBehaved(tools);
      assert ValidWindow(w) && w.nzeropad == nzeropad && ys != xs;
      assert xs.Length0 == ys.Length0 && 1 <= ys.Length0 <= 3;
      assert low + 2 <= high <= xs.Length1 && high <= ys.Length1;
      assert xs[0, high - 1] != xs[0, low];
      assert Progress(ys, xs, c0, tools.sin, p0);
      failed, nattempts, last := Loop(ys, xs, low, high, nzeropad, w, tools, fuel, c0, p0);
    }

    /** subtractCW's while loop, from an empty set of failed bins and no
        tries; fuel bounds the number of passes. It returns the failed bins,
        the number of passes and the outcome of the last one. Every failure
        is counted once, and the loop only ends early on a pass that found
        no bin or on the FailureLimit(maxiter)-th failure. */
    method Loop(ys: array2<real>, xs: array2<real>, low: nat, high: nat, nzeropad: nat, w: Window,
                tools: Tools, fuel: nat, ghost c0: seq<seq<real>>, ghost p0: real)
      returns (failed: multiset<int>, nattempts: nat, last: Outcome)
      requires ToolsWellBehaved(tools) && ValidWindow(w) && w.nzeropad == nzeropad && ys != xs
      requires xs.Length0 == ys.Length0 && 1 <= ys.Length0 <= 3
      requires low + 2 <= high <= xs.Length1 && high <= ys.Length1
      requires xs[0, high - 1] != xs[0, low]
      requires Progress(ys, xs, c0, tools.sin, p0)
      modifies r, fitter, ys
      ensures Progress(ys, xs, c0, tools.sin, p0)
      ensures nattempts <= fuel && |failed| <= FailureLimit(maxiter)
      ensures nattempts < fuel ==> last == NoBin || (last.Rejected? && |failed| == FailureLimit(maxiter))
      ensures last == NoBin ==> Exhausted(w)
      ensures FailuresInWindow(failed, w)
      ensures |r.freqs| + |failed| + (if last == NoBin then 1 else 0) == |old(r.freqs)| + nattempts
    {
      failed := multiset{};
      var ntries := 0;
      nattempts := 0;
      last := Accepted;
      var stop := false;
      while nattempts < fuel && !stop
        invariant nattempts <= fuel
        invariant Progress(ys, xs, c0, tools.sin, p0)
        invariant ntries == |failed| <= FailureLimit(maxiter)
        invariant !stop ==> ntries < FailureLimit(maxiter)
        invariant stop ==> last == NoBin || (last.Rejected? && ntries == FailureLimit(maxiter))
        invariant last == NoBin ==> stop && WindowEmpty(w, nzeropad / 2 + 1)
        invariant forall b :: b in failed ==> b >= 0 && InWindow(w, b)
        invariant |r.freqs| + ntries + (if last == NoBin then 1 else 0) == |old(r.freqs)| + nattempts
      {
        nattempts := nattempts + 1;
        stop, failed, ntries, last := Iteration(ys, xs, low, high, nzeropad, w, failed, ntries, tools, c0, p0);
      }
    }

    /** One pass of subtractCW's loop. A pass that finds no bin stops the
        loop. A fit that removes too little power adds its bin to the failed
        bins, counts a try and leaves the traces and the results alone; it
        stops the loop when the tries before it already exceed maxiter.
        Any other fit is recorded and subtracted. */
    method Iteration(ys: array2<real>, xs: array2<real>, low: nat, high: nat, nzeropad: nat, w: Window,
                     failed: multiset<int>, ntries: int, tools: Tools, ghost c0: seq<seq<real>>, ghost p0: real)
      returns (stop: bool, failed': multiset<int>, ntries': int, outcome: Outcome)
      requires ToolsWellBehaved(tools) && ValidWindow(w) && w.nzeropad == nzeropad && ys != xs
      requires xs.Length0 == ys.Length0 && 1 <= ys.Length0 <= 3
      requires low + 2 <= high <= xs.Length1 && high <= ys.Length1
      requires xs[0, high - 1] != xs[0, low]
      requires Progress(ys, xs, c0, tools.sin, p0)
      modifies r, fitter, ys
      ensures Progress(ys, xs, c0, tools.sin, p0)
      ensures var pick := old(PeakOf(xs, ys, low, high, nzeropad, failed, w, tools.fft));
        && (outcome.NoBin? <==> pick.index < 0)
        && (outcome.Rejected? ==> outcome.bin == pick.index)
        && (!outcome.NoBin? ==>
              fitter.Holds(old(FitFrom(Spectra(xs, ys, low, high, nzeropad, tools.fft), xs, ys, low, high,
                                       nzeropad, pick.index, pick.freq, tools)), ys.Length0))
      ensures outcome.NoBin? <==> WindowEmpty(w, nzeropad / 2 + 1)
      ensures outcome.Rejected? ==> InWindow(w, outcome.bin)
      ensures !outcome.NoBin? ==>
        (outcome.Rejected? <==> Rejects(fitter.power, old(r.powers[|r.powers| - 1]), minPowerReduction))
      ensures outcome.NoBin? ==> stop && failed' == failed && ntries' == ntries
      ensures outcome.Rejected? ==> && outcome.bin >= 0 && failed' == failed + multiset{outcome.bin}
                                    && ntries' == ntries + 1 && stop == (ntries > maxiter)
      ensures outcome.Accepted? ==> !stop && failed' == failed && ntries' == ntries
      ensures outcome.Accepted? ==>
        && FitterReady(ys.Length0)
        && r.powers == old(r.powers) + [fitter.power] && r.freqs == old(r.freqs) + [fitter.freq]
        && r.freqsErrs == old(r.freqsErrs) + [fitter.freqErr]
        && forall t :: 0 <= t < ys.Length0 ==>
          && r.phases[t] == old(r.phases[t]) + [fitter.phase[t]] && r.amps[t] == old(r.amps[t]) + [fitter.amp[t]]
          && r.phasesErrs[t] == old(r.phasesErrs[t]) + [fitter.phaseErr[t]]
          && r.ampsErrs[t] == old(r.ampsErrs[t]) + [fitter.ampErr[t]]
      ensures !outcome.Accepted? ==>
        && r.powers == old(r.powers) && r.freqs == old(r.freqs) && r.freqsErrs == old(r.freqsErrs)
        && r.phases == old(r.phases) && r.amps == old(r.amps)
        && r.phasesErrs == old(r.phasesErrs) && r.ampsErrs == old(r.ampsErrs)
        && forall t, i :: 0 <= t < ys.Length0 && 0 <= i < ys.Length1 ==> ys[t, i] == old(ys[t, i])
    {
      failed', ntries', stop := failed, ntries, false;
      ghost var pick := PeakOf(xs, ys, low, high, nzeropad, failed, w, tools.fft);
      ScanPicksWindowBin(BinPowers(Spectra(xs, ys, low, high, nzeropad, tools.fft), nzeropad / 2 + 1),
                         failed, w, nzeropad / 2 + 1);
      assert pick.index < 0 <==> WindowEmpty(w, nzeropad / 2 + 1);
      var maxI, power := Attempt(ys, xs, low, high, nzeropad, w, failed, tools);
      assert maxI == pick.index;
      if maxI < 0 {
        stop, outcome := true, NoBin;
        return;
      }
      stop, failed', ntries', outcome := Judge(ys, xs, maxI, power, failed, ntries, c0, tools.sin, p0);
    }

    /** The test of a fit from bin maxI: a fit that removes too little power
        adds maxI to the failed bins and counts a try; any other fit is kept
        and taken off the traces. */
    method Judge(ys: array2<real>, xs: array2<real>, maxI: nat, power: real, failed: multiset<int>, ntries: int,
                 ghost c0: seq<seq<real>>, sin: real -> real, ghost p0: real)
      returns (stop: bool, failed': multiset<int>, ntries': int, outcome: Outcome)
      requires ys != xs && FitterReady(ys.Length0) && power == fitter.power
      requires Progress(ys, xs, c0, sin, p0)
      modifies r, ys
      ensures Progress(ys, xs, c0, sin, p0)
      ensures !outcome.NoBin?
      ensures outcome.Rejected? <==> Rejects(power, old(r.powers[|r.powers| - 1]), minPowerReduction)
      ensures outcome.Rejected? ==> && outcome.bin == maxI && failed' == failed + multiset{maxI}
                                    && ntries' == ntries + 1 && stop == (ntries > maxiter)
      ensures outcome.Accepted? ==> !stop && failed' == failed && ntries' == ntries
      ensures outcome.Accepted? ==>
        && r.powers == old(r.powers) + [power] && r.freqs == old(r.freqs) + [fitter.freq]
        && r.freqsErrs == old(r.freqsErrs) + [fitter.freqErr]
        && forall t :: 0 <= t < ys.Length0 ==>
          && r.phases[t] == old(r.phases[t]) + [fitter.phase[t]] && r.amps[t] == old(r.amps[t]) + [fitter.amp[t]]
          && r.phasesErrs[t] == old(r.phasesErrs[t]) + [fitter.phaseErr[t]]
          && r.ampsErrs[t] == old(r.ampsErrs[t]) + [fitter.ampErr[t]]
      ensures !outcome.Accepted? ==>
        && r.powers == old(r.powers) && r.freqs == old(r.freqs) && r.freqsErrs == old(r.freqsErrs)
        && r.phases == old(r.phases) && r.amps == old(r.amps)
        && r.phasesErrs == old(r.phasesErrs) && r.ampsErrs == old(r.ampsErrs)
        && forall t, i :: 0 <= t < ys.Length0 && 0 <= i < ys.Length1 ==> ys[t, i] == old(ys[t, i])
    {
      failed', ntries', stop := failed, ntries, false;
      if Rejects(power, r.powers[|r.powers| - 1], minPowerReduction) {
        failed' := failed + multiset{maxI};
        stop := ntries > maxiter;
        ntries' := ntries + 1;
        outcome := Rejected(maxI);
        return;
      }
      AcceptSine(ys, xs, power, c0, sin, p0);
      outcome := Accepted;
    }

    /** Before any sine is kept, the centered traces are explained by an
        empty list of sines, and the only power recorded is the initial one. */
    lemma StartProgress(ys: array2<real>, xs: array2<real>, c0: seq<seq<real>>, sin: real -> real, p0: real)
      requires |c0| == ys.Length0 && forall t :: 0 <= t < |c0| ==> |c0[t]| == ys.Length1
      requires forall t, i :: 0 <= t < ys.Length0 && 0 <= i < ys.Length1 ==> ys[t, i] == c0[t][i]
      requires r.Consistent(ys.Length0) && r.freqs == [] && r.powers == [p0]
      requires xs.Length0 == ys.Length0 && xs.Length1 == ys.Length1
      ensures Progress(ys, xs, c0, sin, p0)
    {
    }
  }
}
