# libRootFftwWrapper filters and CW removal, in Dafny

This project models two parts of libRootFftwWrapper and proves properties of
the model:

- **The digital filter engine** (`src/DigitalFilter.cxx`):
  - expanding roots into polynomial coefficients (`poly`);
  - the zero-pole-gain designs: `transform`, `bilinearTransform`,
    `computeCoeffsFromDigiPoles` and `RCFilter`;
  - the direct-form IIR filter `doIIRFilter` and the IIR transfer function;
  - filter series: `filterOut` with its two swapped buffers, and `transfer`;
  - the FIR tap generators `BoxFilter` and `DifferenceFilter`, and the
    Savitzky–Golay window shape;
  - the FIR transfer function;
  - the sampling and rewriting of the curves in `response`.
- **The continuous-wave (CW) subtraction loop** (`src/SineSubtract.cxx`):
  - `normalize_angle`;
  - the `SineFitter`: its parameter layout, `setGuess`, `doFit`, the cost
    `DoEval` and the gradient `DoDerivative`;
  - the result log `SineSubtractResult` (`append`, `clear`);
  - `SineSubtract::subtractCW`: cropping, zero-padding, zero-meaning, peak
    selection with failed-bin demotion, the accept/reject loop and the
    subtraction of each accepted sine.

`double` is modelled as `real`, which is exact. Complex numbers are a
`Complex` datatype with exact ring operations. Floating-point behaviour is
not modelled.

Routines whose code is not shown are function-typed parameters the caller
supplies:
- `sin`, `cos`, `tan`, `exp`, `log`, `abs`, `arg` and the complex `sqrt`;
- the FFT, the Minuit minimizer, `directConvolve` and `unwrap`.

The well-behavedness each one needs, such as "the FFT of a length-n input has
n/2+1 bins", is stated as a predicate in the requires.

Files:
- `complex.dfy`, `sums.dfy` — complex arithmetic and finite sums.
- `polynomial.dfy` — `poly`.
- `iir.dfy` — `doIIRFilter` and `IIRFilter::transfer`.
- `fir.dfy` — FIR taps and the FIR transfer function.
- `series.dfy` — `DigitalFilterSeries`.
- `zpk.dfy` — `TransformedZPKFilter` and `RCFilter`.
- `response.dfy` — `DigitalFilter::response`.
- `sinefit.dfy` — `normalize_angle` and `SineFitter`.
- `sinesubtract.dfy` — `SineSubtractResult` and `SineSubtract`.

## Model

| member | source | states |
|---|---|---|
| Polynomial.Poly | src/DigitalFilter.cxx:241-260 | the n+1 coefficients written are the expansion of the product of (x - zero_i) over the first n zeroes; the rest of the buffer is untouched |
| Polynomial.MulRootInPlace | src/DigitalFilter.cxx:250-258 | one pass of the descending j loop turns the coefficients of p into those of p·(x - r), in place |
| Polynomial.PolyMonic | src/DigitalFilter.cxx:245-258 | the leading coefficient coeffs[n] is 1 |
| Polynomial.PolyConstantTerm | src/DigitalFilter.cxx:245-258 | coeffs[0] is the product of the negated roots |
| Polynomial.PolyEval | src/DigitalFilter.cxx:241-260 | the polynomial evaluates to the product of (x - root_i) at every x |
| Polynomial.PolyVanishesAtRoots | src/DigitalFilter.cxx:241-260 | the polynomial is zero at every root |
| Polynomial.EvalMulRoot | src/DigitalFilter.cxx:253-257 | the update of one pass multiplies the polynomial's value by (x - r) |
| IirFilter.DoIirFilter | src/DigitalFilter.cxx:507-530 | y[..n] is the filter output of x[..n]; y beyond n is untouched |
| IirFilter.FilterSample | src/DigitalFilter.cxx:511-528 | one outer pass writes y[j] and leaves the later entries alone |
| IirFilter.Span | src/DigitalFilter.cxx:509-516 | the inner loop visits min(max(na, nb), j+1) taps: it stops at max(na, nb) or where j-k would go negative |
| IirFilter.IirSatisfiesDifferenceEquation | src/DigitalFilter.cxx:507-530 | every output satisfies a[0]·y[j] + Σ_{0<k<na} a[k]·y[j-k] = Σ_{k<nb} b[k]·x[j-k], summed over the visited taps only |
| IirFilter.IirCausal | src/DigitalFilter.cxx:507-530 | the first m outputs depend only on the first m inputs |
| IirFilter.IirOutputPrefix | src/DigitalFilter.cxx:510-529 | filtering n samples and keeping m gives the output for m samples, so a longer run does not change earlier outputs |
| IirFilter.IirZeroInZeroOut | src/DigitalFilter.cxx:507-530 | an all-zero input gives an all-zero output |
| IirFilter.IirTransfer | src/DigitalFilter.cxx:538-553 | the transfer at z ≠ 0 is B(1/z)/A(1/z), the coefficient polynomials evaluated at 1/z |
| IirFilter.NegPowSumIsEval | src/DigitalFilter.cxx:540-550 | the loop's Σ c[i]·z^-i equals the coefficient polynomial evaluated at 1/z |
| IirFilter.AsWrittenNumeratorDiffers | src/DigitalFilter.cxx:540-544 | for b = [0, 1] and real z > 1 the intended numerator is 1/z < 1, while the as-written one is at least 1 |
| IirFilter.IntendedDelayNumerator | src/DigitalFilter.cxx:540-544 | for a one-sample delay, b = [0, 1], the intended numerator is z^-1 |
| FilterSeries.FilterOut | src/DigitalFilter.cxx:200-234 | out[..n] is stage_{m-1}(…stage_0(w[..n])); an empty series copies w; the rest of out is untouched |
| FilterSeries.StageFilterOut | src/DigitalFilter.cxx:227 | one stage's filterOut writes that stage's output of x[..n] into y[..n] |
| FilterSeries.CopyPrefix | src/DigitalFilter.cxx:202-206 | the memcpy copies src[..n] into dst[..n] and nothing else |
| FilterSeries.ComposeConcat | src/DigitalFilter.cxx:211-228 | running a series and then another is running their concatenation |
| FilterSeries.Transfer | src/DigitalFilter.cxx:189-197 | the series transfer is the product of the stage transfers, 1 when empty |
| FilterSeries.SeriesResponseConcat | src/DigitalFilter.cxx:189-197 | the transfer of a concatenated series is the product of the two transfers |
| ZpkFilters.TransformedZpkFilter.Transform | src/DigitalFilter.cxx:264-391 | zeroes, poles and gain become their images under the topology; nothing else changes |
| ZpkFilters.TransformRoots | src/DigitalFilter.cxx:272-388 | the two lists and the gain are built from the zero loops and then the pole loops |
| ZpkFilters.TransformList | src/DigitalFilter.cxx:278-381 | one list gets its roots' images in order, then its padding up to the other list's size |
| ZpkFilters.PushImages | src/DigitalFilter.cxx:278-288 | the push_back loop appends every root's image in order and applies one gain step per root |
| ZpkFilters.PushPadding | src/DigitalFilter.cxx:299-315 | the padding loop appends (other - own) copies of the padding when own < other, and nothing otherwise |
| ZpkFilters.TransformedRootCount | src/DigitalFilter.cxx:276-383 | LOWPASS keeps the count, HIGHPASS gives max(nz, np), BANDPASS gives 2·own + max(0, other - own), NOTCH gives 2·max(nz, np) |
| ZpkFilters.ImagesAt | src/DigitalFilter.cxx:323-328 | entry k·i + j of the pushed list is image j of root i |
| ZpkFilters.TransformedGainFactors | src/DigitalFilter.cxx:274-386 | the new gain is the old gain times one factor per zero and one per pole |
| ZpkFilters.LowpassGain | src/DigitalFilter.cxx:276-289 | LOWPASS scales the gain by W^np / W^nz |
| ZpkFilters.TransformedZpkFilter.BilinearTransform | src/DigitalFilter.cxx:394-429 | both digital lists have max(np, nz) entries: (1+r)/(1-r) where root r exists and -1 after; the gain is accumulated and its real part kept; the coefficients are expanded from the digital roots, with a[0] = 1 |
| ZpkFilters.DigitiseRoots | src/DigitalFilter.cxx:397-422 | the loop fills max(np, nz) digital zeroes and poles: (1+r)/(1-r) where root r exists and -1 after; the gain is multiplied by (1 - zero) and divided by (1 - pole) for each root |
| ZpkFilters.DigiRootIsPadding | src/DigitalFilter.cxx:420-421 | a digital root is -1 exactly when it is padding |
| ZpkFilters.BilinearInverse | src/DigitalFilter.cxx:420-421 | (1+r)/(1-r) is invertible: r = (d-1)/(d+1), and d is never -1 |
| ZpkFilters.BilinearGainProducts | src/DigitalFilter.cxx:404-418 | digital gain · Π(1 - pole) = analog gain · Π(1 - zero), over the roots visited so far |
| ZpkFilters.TransformedZpkFilter.ComputeCoeffsFromDigiPoles | src/DigitalFilter.cxx:663-684 | b[i] = re(g·bpoly[nzeroes-i]) and a[i] = re(apoly[npoles-i]), with bpoly and apoly the expansions of the digital roots |
| ZpkFilters.ExpandReversed | src/DigitalFilter.cxx:669-683 | poly followed by the reversing loop gives the reversed real parts of the expansion |
| ZpkFilters.ReverseCoefficients | src/DigitalFilter.cxx:675-683 | the reversing loop writes entry i from entry n-i |
| ZpkFilters.ReversedPolyEnds | src/DigitalFilter.cxx:663-684 | the reversed coefficients have n+1 entries; b[0] = re(g) and a[0] = 1; the last is g times the product of the negated roots |
| ZpkFilters.RC | src/DigitalFilter.cxx:556-563 | a new filter whose prototype is one pole at -1 with unit gain, transformed and digitised: order 1; zeroes, poles and gain are the transformed prototype; the digital roots are their bilinear images padded with -1, the digital gain is the real part of the accumulated gain, and b and a are the reversed expansions of the digital zeroes and poles, with a[0] = 1 |
| ZpkFilters.TransformedZpkFilter.Design | src/DigitalFilter.cxx:556-563 | the prototype's order is kept; zeroes, poles and gain are the transformed prototype; the digital roots, the digital gain and the b/a coefficients are the bilinear design of the transformed lists, with a[0] = 1 and as many digital zeroes as poles |
| ZpkFilters.TransformedZpkFilter.TransformAndDigitise | src/DigitalFilter.cxx:561-562 | transform then bilinearTransform: the transformed lists avoid 1, the digital lists are their images padded to the larger size, and the digital gain and the b/a coefficients are those of that digital design |
| ZpkFilters.DigitisableIff | src/DigitalFilter.cxx:407-421 | a list transform builds avoids 1, as (1+r)/(1-r) needs, exactly when no root's image and no padding entry is 1 |
| FirFilters.FirSumDelayShift | src/DigitalFilter.cxx:481-491 | one more sample of delay multiplies the FIR transfer by z^-1 |
| FirFilters.FirFilter.Transfer | src/DigitalFilter.cxx:481-491 | the loop computes Σ coeffs[i]·z^(int(N/2) - i - delay) |
| FirFilters.FirFilter.Box | src/DigitalFilter.cxx:634-641 | BoxFilter(width) has width taps, each 1/width |
| FirFilters.BoxTapsSumToOne | src/DigitalFilter.cxx:634-641 | the box taps sum to 1 |
| FirFilters.FirFilter.Difference | src/DigitalFilter.cxx:643-659 | DifferenceFilter(order), order > 0, has taps C(order, i)·(-1)^i divided by their absolute sum |
| FirFilters.DifferenceTapsAbsSum | src/DigitalFilter.cxx:643-659 | the absolute values of the difference taps sum to 1 |
| FirFilters.DifferenceTapsSumToZero | src/DigitalFilter.cxx:643-659 | the difference taps sum to 0 |
| FirFilters.DifferenceTapsAlternate | src/DigitalFilter.cxx:650 | even taps are positive and odd taps negative |
| FirFilters.BinomialRowSum | src/DigitalFilter.cxx:648-652 | Σ_i C(n, i) = 2^n, so the normalising sum of the difference taps is 2^order |
| FirFilters.AlternatingRowSum | src/DigitalFilter.cxx:650 | Σ_i (-1)^i C(n, i) = 0 for n > 0 |
| FirFilters.SavitzkyGolayShapeMatchesWindow | src/DigitalFilter.cxx:473-478 | the tap count is nl + nr + 1 for the window the coefficients fill (nr = wleft when wright < 0), and the delay is nr - nl |
| FilterResponse.Response | src/DigitalFilter.cxx:15-134 | the amplitude curve keeps n points; the phase curve drops the first and last; the group delay holds the consecutive differences of the unwrapped phase without its last point and first two, n-3 points |
| FilterResponse.SamplePoints | src/DigitalFilter.cxx:67-96 | point i of every curve is at f = i/(n-1); the phase and group curves get the stored angle |
| FilterResponse.AnglesInRange | src/DigitalFilter.cxx:81-85 | every stored phase lies in [0, 360) |
| FilterResponse.PhaseDegreesRange | src/DigitalFilter.cxx:85 | an angle in [-180, 180] is stored in [0, 360), shifted by 0 or one full turn |
| FilterResponse.DifferenceInPlace | src/DigitalFilter.cxx:117-124 | the rewrite loop sets y[0] = 0 and y[i] = u[i-1] - u[i] from the original values; x is untouched |
| FilterResponse.DifferencesTelescope | src/DigitalFilter.cxx:117-124 | the differences telescope: y[1] + … + y[k] = u[0] - u[k] |
| FilterResponse.Graph.RemovePoint | src/DigitalFilter.cxx:107-108 | removing point i shifts the later points down; an index past the end changes nothing |
| FilterResponse.Removed | src/DigitalFilter.cxx:107-108 | entry k of the result is s[k] before i and s[k+1] from i on |
| FilterResponse.TrimEnds | src/DigitalFilter.cxx:107-108 | removing point n-1 and then point 0 keeps s[1..n-1] |
| FilterResponse.TrimEndsAndOneMore | src/DigitalFilter.cxx:126-128 | removing point n-1 and then point 0 twice keeps s[2..n-1] |
| SineFit.NormalizeAngleRange | src/SineSubtract.cxx:40-43 | normalize_angle(φ) lies in [-π, π) and differs from φ by a whole number of turns |
| SineFit.NormalizeAngleFixed | src/SineSubtract.cxx:40-43 | an angle already in [-π, π) is unchanged |
| SineFit.NormalizeAngleIdempotent | src/SineSubtract.cxx:40-43 | normalising twice is normalising once |
| SineFit.DecodeIndex | src/SineSubtract.cxx:88-95 | decoding the index of a coordinate (p[0] = f, p[1+2t] = φ_t, p[2+2t] = A_t) gives that coordinate back |
| SineFit.IndexDecode | src/SineSubtract.cxx:88-95 | every index is the index of the coordinate it decodes to |
| SineFit.Layout | src/SineSubtract.cxx:375-380 | the parameter vector has 1 + 2·ntraces entries |
| SineFit.LayoutRoundTrip | src/SineSubtract.cxx:375-380 | reading the vector back at the decoded positions gives f, φ_t and A_t |
| SineFit.DoEval | src/SineSubtract.cxx:186-247 | the loop computes the mean over traces of Σ_i (A_t sin(2πf x_i + normalize_angle(φ_t)) - y_i)² / ns |
| SineFit.CostNonneg | src/SineSubtract.cxx:236-246 | the cost is never negative, and is zero exactly when every sample is fitted exactly |
| SineFit.TraceCostNonneg | src/SineSubtract.cxx:236-242 | one trace's share is non-negative, and zero exactly when each of its samples fits |
| SineFit.PowerSumNonneg | src/SineSubtract.cxx:189-243 | the accumulated power over traces is non-negative, and zero exactly when each of their samples fits |
| SineFit.DoDerivative | src/SineSubtract.cxx:83-183 | the derivative is 2/nt times Σ of (Y - y)·dY/dp / ns over the traces the coordinate belongs to |
| SineFit.TraceDerivative | src/SineSubtract.cxx:150-172 | the sample loop of one trace accumulates that trace's share |
| SineFit.SampleSlope | src/SineSubtract.cxx:155-167 | dY/dp is A·x·cos·2π for f, A·cos for φ_t and sin for A_t |
| SineFit.SlopeSumOwnTrace | src/SineSubtract.cxx:90-93 | a phase or amplitude derivative involves only the trace it belongs to |
| SineFit.AmpSlopeIsExact | src/SineSubtract.cxx:165-167 | the residual is linear in A_t: moving A_t by h moves it by h·(the A slope) |
| SineFit.FitVariables | src/SineSubtract.cxx:370-380 | doFit declares 1 + 2·ntraces variables |
| SineFit.FitVariablesContainStart | src/SineSubtract.cxx:370-380 | every limited variable's window contains its start (f in [f-df, f+df], A in [A/4, 4A]) |
| SineFit.SineFitter.SetGuess | src/SineSubtract.cxx:58-70 | phase and amp hold the first ntrace guesses, and both error vectors are exactly three zeros |
| SineFit.SineFitter.DoFit | src/SineSubtract.cxx:339-403 | the fitter holds the minimizer's result for the variables declared around the current guess with window df = 1/(2·dt)/nsamples: f and its error, the power, each trace's normalised phase, amplitude and errors; every phase lies in [-π, π); entries past ntraces are unchanged |
| SineSubtraction.CropBoundsRange | src/SineSubtract.cxx:493-494 | low = tmin if 0 ≤ tmin < N, else 0; high = tmax if 0 < tmax ≤ N, else N; so 0 ≤ low < N and 0 < high ≤ N |
| SineSubtraction.ZeroPadBounds | src/SineSubtract.cxx:533-535 | for Nuse ≥ 2, nzeropad = 2^bitlength(Nuse-1) is a power of two with Nuse ≤ nzeropad < 2·Nuse, and fftlen ≥ 2 |
| SineSubtraction.BitLengthBounds | src/SineSubtract.cxx:533 | 32 - clz(v) is the bit length: 2^(b-1) ≤ v < 2^b |
| SineSubtraction.ZeroPadFitsInt | src/SineSubtract.cxx:533 | for Nuse ≤ 2^30 the shift stays within a 32-bit int |
| SineSubtraction.SineSubtractResult.Clear | src/SineSubtract.cxx:436-446 | clear empties all seven vectors |
| SineSubtraction.SineSubtractResult.Append | src/SineSubtract.cxx:420-434 | powers, freqs and freqs_errs become old ++ r's, and each per-trace vector of the receiver's traces becomes old ++ r's |
| SineSubtraction.AppendKeepsConsistent | src/SineSubtract.cxx:420-434 | appending a consistent log to a consistent log keeps one phase and amplitude entry per frequency in every trace |
| SineSubtraction.SineSubtractResult.PushSine | src/SineSubtract.cxx:714-725 | an acceptance appends exactly one entry to powers, freqs, freqs_errs and every per-trace vector |
| SineSubtraction.SineSubtractResult.Open | src/SineSubtract.cxx:487-540 | after reset the log holds the first power and one empty vector per trace |
| SineSubtraction.RejectsMeansTooLittleRemoved | src/SineSubtract.cxx:658-706 | after a positive power, a fit is kept exactly when power ≤ (1 - min_power_reduction)·last |
| SineSubtraction.ScanPicksWindowBin | src/SineSubtract.cxx:596-639 | the bin loop picks a bin exactly when some bin lies in the window; the bin is in [0, fftlen), in the window, and carries its adjusted power and frequency; otherwise max_i stays -1 |
| SineSubtraction.ScanPicksStrongestLonePeak | src/SineSubtract.cxx:596-639 | no lone in-window peak has a larger adjusted power than the chosen bin, and the chosen bin is a lone peak unless it is the first in the window |
| SineSubtraction.ScanAtLeastFirstInWindow | src/SineSubtract.cxx:626-637 | the chosen bin's adjusted power is at least that of the first in-window bin |
| SineSubtraction.NoBinInWindow | src/SineSubtract.cxx:596-639 | with fmin above every bin the loop ends with max_i = -1 |
| SineSubtraction.SelectPeak | src/SineSubtract.cxx:596-639 | the bin loop returns the index and frequency of the scan's choice |
| SineSubtraction.ConsiderBin | src/SineSubtract.cxx:598-638 | one pass of the bin loop skips out-of-window bins and otherwise takes the bin when nothing is chosen or it is a stronger lone peak |
| SineSubtraction.EnergyNonneg | src/SineSubtract.cxx:509-510 | the accumulated power is non-negative, and zero exactly when every term is zero |
| SineSubtraction.CenteredSumsToZero | src/SineSubtract.cxx:505-513 | a whole centered row sums to zero |
| SineSubtraction.ZeroMean | src/SineSubtract.cxx:503-513 | each trace's whole-trace mean is taken off the samples in [low, high) only, and the power is the sum of their squares |
| SineSubtraction.CenterRow | src/SineSubtract.cxx:505-512 | one trace is centered in the window; the other traces are untouched |
| SineSubtraction.ComputeSpectra | src/SineSubtract.cxx:546-557 | one spectrum per trace, from the cropped samples |
| SineSubtraction.BinPowerNonneg | src/SineSubtract.cxx:583-593 | mag2[i] is non-negative, and zero exactly when bin i is zero in every spectrum |
| SineSubtraction.ComputeMag2 | src/SineSubtract.cxx:583-593 | mag2 holds, per bin, the sum of |fft|² over the traces |
| SineSubtraction.Guesses | src/SineSubtract.cxx:645-650 | each trace's guess is the phase of bin max_i and 2·|bin|/nzeropad |
| SineSubtraction.SubtractedPlusSines | src/SineSubtract.cxx:727-733 | subtraction is undone by adding the recorded sines back |
| SineSubtraction.SubtractedAppend | src/SineSubtract.cxx:727-733 | subtracting one more sine is subtracting it from what was left |
| SineSubtraction.SubtractSines | src/SineSubtract.cxx:727-733 | every sample of every trace loses A_t sin(2πf x_i + φ_t); x is untouched |
| SineSubtraction.SubtractRow | src/SineSubtract.cxx:729-732 | one trace loses its sine; the other traces are untouched |
| SineSubtraction.FailureLimit | src/SineSubtract.cxx:704-712 | the failure count that ends the loop is the first k with k - 1 > maxiter |
| SineSubtraction.SineSubtract.constructor | src/SineSubtract.cxx:406-418 | no cropping and no frequency window |
| SineSubtraction.SineSubtract.GetNSines | src/SineSubtract.cxx:761-764 | the number of sines is the number of recorded frequencies and of amplitudes in every trace |
| SineSubtraction.SineSubtract.Attempt | src/SineSubtract.cxx:546-658 | max_i is the scan of the summed bin powers; when a bin is found the fitter holds the minimizer's result for the fit started from that bin's guesses and frequency on the cropped traces, and the power is that result's minimum |
| SineSubtraction.SineSubtract.FitAt | src/SineSubtract.cxx:645-658 | the fitter holds the minimizer's result for the variables built from bin max_i's phase and amplitude guesses and maxF, fitted on the cropped traces; the power returned is its minimum |
| SineSubtraction.SineSubtract.AcceptSine | src/SineSubtract.cxx:714-733 | the log gains the new power, and the fitter's frequency and its error; every trace's phase, amplitude and error vectors gain the fitter's values for that trace; the sine is subtracted and the loop invariant is kept |
| SineSubtraction.SineSubtract.Start | src/SineSubtract.cxx:488-540 | the traces are zero-meaned, and the log holds the first power per sample and per trace |
| SineSubtraction.SineSubtract.Iteration | src/SineSubtract.cxx:543-750 | the pass finds no bin exactly when no bin lies in the window; otherwise the fitter holds the fit from the scan's pick, and the fit is rejected exactly when it removes less than min_power_reduction of the last power. A rejected fit adds the picked bin (an in-window bin) to the failed bins, counts a try, stops when the tries before it exceed maxiter, and changes neither traces nor log; an accepted fit logs the fitter's power, frequency, phases, amplitudes and their errors |
| SineSubtraction.SineSubtract.Judge | src/SineSubtract.cxx:667-733 | the fit is rejected exactly when it removes less than min_power_reduction of the last logged power; a rejected fit adds its bin to the failed bins, counts a try, stops when the tries before it exceed maxiter, and leaves traces and log alone; an accepted fit appends the fitter's power, frequency, phases, amplitudes and their errors to the log and keeps every sample explained |
| SineSubtraction.SineSubtract.Loop | src/SineSubtract.cxx:543-750 | failures are counted once each, never more than FailureLimit(maxiter), and only in-window bins fail; every pass adds a sine, a failure or the final no-bin; the loop ends early only when no bin lies in the window or on the FailureLimit(maxiter)-th failure |
| SineSubtraction.SineSubtract.SubtractCW | src/SineSubtract.cxx:481-750 | every sample is the zero-meaned trace minus the recorded sines; powers has one more entry than freqs and starts with the initial power; every kept fit removed at least min_power_reduction of the power; every kept phase lies in [-π, π); the returned window is the one built from fmin, fmax, dt (or the spacing of the first two x) and the zero-padded length of the cropped range; the passes are the kept sines plus the failures plus a final no-bin pass, which happens only when no bin of that window's spectrum lies in it; only bins of that window fail |

## Left out

- The FFT (with the window, the interpolation and the zero padding), the minimizer, `directConvolve`, `unwrap` and the elementary functions are parameters. Their code is not part of this model.
- `response`:
  - the `rint` rounding to six decimals is not modelled;
  - the 10·log amplitude is taken from the `log` parameter;
  - a TGraph is reduced to its two point sequences;
  - titles, axes and ranges are left out.
- Gaussian, Sinc, Butterworth and Chebyshev filters, and the Savitzky–Golay LU solve, are left out. Each is a transcendental formula or a foreign solver. Only the Savitzky–Golay window shape is modelled.
- `filterGraph`, `impulse` and the other wrappers around `filterOut` are left out. They add allocation and error propagation with `sqrt`.
- `Polynomial.Poly` requires n ≥ 1. For n = 0 the source still reads zeroes[0] and writes coeffs[1].
- `ZpkFilters.TransformedZpkFilter.BilinearTransform` requires at least one zero or pole, for the same reason.
- `ZpkFilters.RC`: RCFilter is a subclass whose constructor sets the prototype and calls `transform` and `bilinearTransform`. Here it is a method that builds a `TransformedZpkFilter` through the `Design` constructor, which does the same three steps. The subclass relation is not modelled.
- The FIR base constructor is not part of this model. `FirFilters.FirFilter.Box` and `FirFilters.FirFilter.Difference` take the header's defaults to be delay 0 and no edge extension.
- `IirFilter.IirTransfer` states the intended transfer, with exponent -i. The size_t wrap-around of the source is modelled separately under Findings.
- Divisions need nonzero divisors. The source would produce IEEE infinities or NaN there, and IEEE arithmetic is not modelled. Each such precondition excludes input the source accepts:
  - the transfer functions require z ≠ 0;
  - `ZpkFilters.Transformable` requires W ≠ 0 for a lowpass with zeroes and dW ≠ 0 for the band topologies;
  - `ZpkFilters.Transformable` also requires every zero and pole to be nonzero for HIGHPASS and NOTCH, which divide by the root (src/DigitalFilter.cxx lines 294, 307-308, 356 and 370-374);
  - `ZpkFilters.TransformedZpkFilter.BilinearTransform` requires no root at 1;
  - `IirFilter.DoIirFilter` requires a[0] ≠ 0, the divisor of every output (src/DigitalFilter.cxx:528);
  - `FilterResponse.Response` requires n ≥ 2, because every frequency is i/(n-1). The source takes any n.
- `FilterResponse.Response` always builds all three curves. The source builds only the curves whose pointer argument is non-null, and returns early when all three are null. Pointer arguments and graph reuse are not modelled.
- `FilterSeries.Stage`: a series member is an IIR or an FIR filter. In the source a `DigitalFilterSeries` may hold any `DigitalFilter`, another series included; other filter kinds are not part of this model, and nesting is not modelled.
- SineSubtraction.SineSubtract.SubtractCW:
  - `while(true)` is bounded by a `fuel` parameter. The loop need not end in the source, because an accepted fit never bumps `ntries`. The contract holds at whatever point the fuel runs out.
  - The traces are one `array2`, so they all have the same length.
  - It requires `dt > 0` or x[1] ≠ x[0], so that the bin frequencies are finite.
  - It requires the cropped range to hold at least two samples whose first and last x differ. doFit divides by nsamples - 1 and by the time span.
  - It requires ntraces ≤ 3, because `setGuess` always gives the error vectors three entries and `doFit` writes ntraces of them.
  - The zero-padded length `1 << (32 - __builtin_clz(Nuse - 1))` is an unbounded power of two here (`ZeroPadLength`). In the source it is a 32-bit `int`: for Nuse - 1 ≥ 2^30 the shift reaches bit 31 or beyond and overflows, and a Nuse of 1 makes `__builtin_clz(0)` undefined. `ZeroPadFitsInt` shows the value fits an `int` when Nuse - 1 < 2^30. No precondition excludes longer traces, and the model does not follow the overflow.
  - It returns the searched window, the failed bins, the number of passes and the last pass's outcome, which the source keeps in locals, so that the contract can state how the loop ended.
- SineFit.SineFitter.DoFit: `getPower` is taken to be the minimizer's minimum. The fitter's header is not part of this model.
- The parameter step sizes given to the minimizer are left out. So are the `verbose` printing and the `gErrorIgnoreLevel` toggle.
- The `store` branches, `makeSlides`, `makePlots`, the profiling stopwatch and the object deletion in `reset` are left out. They are rendering, file I/O and diagnostics. Only the `r.clear()` call in `reset` is modelled.
- The vectorised (`ENABLE_VECTORIZE`) and float (`SINE_SUBTRACT_USE_FLOATS`) variants are left out. They compute the same sums as the scalar loops that are modelled.
- The one-trace `subtractCW(const TGraph *, double)` overload is left out. It copies the graph and calls the general one.
- SineSubtraction.SineSubtractResult.Append requires r ≠ this. Appending a log to itself would read vectors while they grow.
- SineSubtraction.ZeroMean: the mean is `GetMean(2)`, the mean of all y values of the trace, taken before any sample is changed.
- `neighbor_factor2` is the constant 0.15 the constructor sets, and DBL_MAX is its exact value.

## Findings

| source | as written | input that shows it | evidently intended | confidence | as-written member | corrected member |
|---|---|---|---|---|---|---|
| src/DigitalFilter.cxx:541-550 | `pow(z, -i)` with `size_t i` negates an unsigned value, so the exponent is 2^64 - i | b = [0, 1] (a one-sample delay), z = 2: intended numerator 1/2, as written at least 1 | `pow(z, -int(i))`, i.e. Σ b[i] z^-i | medium, not executed | IirFilter.AsWrittenNumeratorDiffers | IirFilter.IirTransfer |
| src/SineSubtract.cxx:596-650 | when no bin lies in [fmin, fmax] the loop leaves `max_i = -1`, and the guesses then read `ffts[ti][-1]` | fmin above every bin: bins at 0 and 0.5 (dt = 1, nzeropad = 2), fmin = 10 | stop the search when no bin is in the window | high, not executed | SineSubtraction.NoBinInWindow | SineSubtraction.SineSubtract.Attempt |

The corrected members are the ones the rest of the model uses:
- `IirTransfer` is proved equal to B(1/z)/A(1/z).
- `Attempt` returns before taking a guess when max_i < 0, and `Iteration` then stops the loop. `ScanPicksWindowBin` proves that max_i ≥ 0 exactly when some bin lies in the window.

## Where the code and its description differ

The model follows the code:
- The zero-pad length is 2^bitlength(Nuse - 1), the smallest power of two at least Nuse. It is not a power of two at least twice that.
- The group delay is the difference of consecutive unwrapped phases, y[i] = u[i-1] - u[i]. It is not measured from the first point.
- `ntries` counts all failures and is never reset, so the loop stops on the (maxiter+2)-th failure in total, not after consecutive failures.
