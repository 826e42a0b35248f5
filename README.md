# cf_estimate: a Dafny model of the burst centre-frequency estimator

This project models the `cf_estimate` block of gr-fhss_utils. The block is a
GNU Radio message block. It receives a burst of complex samples together with
its metadata (`center_frequency`, `sample_rate`, an optional
`relative_frequency`). For each burst it:

- estimates where the burst's energy actually sits;
- shifts the samples and the metadata so that the burst is centred;
- optionally snaps the result onto the nearest frequency of a configured
  channel list.

The model follows `lib/cf_estimate_impl.cc` step by step:

- **Segment planning** (`SegmentPlan`). The FFT exponent is
  `floor(log2(burst_size / 4))`, clamped to 8. The FFT size is `2^p`. The
  segment count `nffts` is `burst_size / fftsize` rounded down, and the burst
  is read from a centring offset. The lemmas prove:
  - the exponent is the largest admissible one;
  - there are at least four segments;
  - every segment read lies inside the burst.
- **PSD estimate** (`Psd`). Each windowed segment goes through the FFT and
  magnitude-squared step. The per-segment spectra are accumulated into an
  array, which is scaled by `1/nffts` and rotated in place by `fftsize/2`
  (the "fftshift"). The frequency axis `cf - sr/2 + i*sr/fftsize` is built
  alongside. Each loop method is proved equal to a specification function:
  - `ColumnSums` for the accumulation;
  - `Averaged` for the scaling;
  - `FftShift` for the rotation;
  - `FrequencyAxis` for the axis.

  The lemmas prove the following about those functions:
  - the average is the per-bin mean and is non-negative;
  - the fftshift is a permutation that keeps the total, and is its own
    inverse on even lengths;
  - the axis is strictly increasing, starts at `cf - sr/2`, stays below
    `cf + sr/2` and, for every even FFT size (every size but 1), has `cf`
    at its middle bin.
- **Centre-frequency estimators** (`CenterFrequency`).
  - `half_power` is a prefix-sum threshold search. It returns the first bin
    whose cumulative energy reaches half the total, as a fraction in
    [-0.5, 0.5).
  - `rms` is the energy-weighted mean frequency. It lies in [-0.5, 0.5)
    whenever the energy is non-zero; with zero energy it has no value (the
    source's 0/0 NaN).
  - `coerce_frequency` is a nearest-channel scan with a strict `<`, so ties go
    to the earliest channel.
  - The `estimate_pwr` in-band sum covers bins strictly inside
    `(cf - bw/2, cf + bw/2)`.
- **FFT plan and window cache** (`FftCache` and the class `CfEstimate.CfEstimator`).
  `fft_setup(power)` grows three parallel vectors up to index `power`:
  - the FFT plans;
  - the windows;
  - the magnitude-squared gains.

  Entry `i` is of size `2^i`. Entries that already exist are never touched,
  and a call with a power below the current size changes nothing.
  `fft_cleanup` drops the plans and windows.
- **Shift combination and correction** (`CfEstimate`, `BurstCorrection`,
  `ComplexSamples`).
  - The primary shift comes from the configured method; it is 0 in COERCE
    mode and for any unknown method tag.
  - The coercion shift is added to it.
  - The burst is rotated sample by sample by `exp(-j*2*pi*shift)^n`.
  - `center_frequency` (and a non-zero `relative_frequency`) move by
    `shift * sample_rate`.

  `CfEstimator.ProcessBurst` is the estimation and correction path of
  `pdu_handler`. Its contract ties the whole pipeline to the specification
  functions above.

Floating point is modelled by `real`. The FFT with its magnitude squared, the
Gaussian window weights and the rotator's complex exponential are parameters.
Everything else the model covers is computed as the source computes it; the
one deliberate difference is that the published `relative_frequency` follows
the corrected rule of the finding below (see "## Left out").

Three points of the source worth stating, because the code behaves
differently from what a reader might expect:

- **Window width.** At lines 92-93 `two_sigma_squared` starts as `N/32` and
  is then multiplied by `2*(N/32)`, so the Gaussian's exponent is divided by
  `2*(N/32)^2`: the code's sigma is `N/32`. The model keeps the window
  weights abstract (`taper`) and models the weights' structure, their sum of
  squares and the gain.
- **Method tags.** Lines 269-275 test only 0 (RMS) and 1 (HALF_POWER); every
  other value, including COERCE (2), skips estimation (`MethodOf`).
- **Power and SNR.** The test `noise_density_db != NAN` at line 305 is
  always true (NaN compares unequal to everything), so `pwr_db` and
  `snr_db` are always added to the metadata.

## Model

| member | source | states |
|---|---|---|
| SegmentPlan.FloorLog2 | lib/cf_estimate_impl.cc:184 | the floor of log2: 2^p <= n < 2^(p+1) |
| SegmentPlan.FloorLog2Unique | lib/cf_estimate_impl.cc:184 | any p with 2^p <= n < 2^(p+1) is the floor log2, so the exponent is uniquely determined |
| SegmentPlan.FftPower | lib/cf_estimate_impl.cc:184-190 | the exponent is at most MAX_FFT_POWER (8), four FFTs of size 2^p fit in the burst, and p is either the clamp 8 or the largest such exponent (8*2^p > burst_size) |
| SegmentPlan.FftPowerIsMaximal | lib/cf_estimate_impl.cc:184-190 | every exponent q <= 8 with 4*2^q <= burst_size is at most the chosen exponent |
| SegmentPlan.PlanSegments | lib/cf_estimate_impl.cc:192-200 | fftsize = 2^fftpower, nffts >= MIN_NFFTS (4), copy_size = nffts*fftsize with copy_size <= burst_size < copy_size + fftsize, and the offset is half the unused tail rounded down |
| SegmentPlan.SegmentInBounds | lib/cf_estimate_impl.cc:207-214 | for every segment index ii < nffts the copy data[offset + ii*fftsize .. + fftsize) lies inside the burst |
| SegmentPlan.PlanFor1024 | lib/cf_estimate_impl.cc:184-200 | a 1024-sample burst is read as four FFTs of 256 from offset 0 (the clamp to power 8) |
| Psd.SegmentSpectra | lib/cf_estimate_impl.cc:207-224 | one magnitude-squared spectrum per segment, nffts rows of width fftsize, each non-negative |
| Psd.AveragedIsMean | lib/cf_estimate_impl.cc:227-232 | bin k of the averaged PSD is the sum over segments of bin k divided by nffts, and is non-negative |
| Psd.FftShiftAt | lib/cf_estimate_impl.cc:235 | the rotation by fftsize/2 keeps the length and puts s[(i + n/2) mod n] at position i |
| Psd.FftShiftPermutes | lib/cf_estimate_impl.cc:235 | the rotation is a permutation (same multiset of bins) |
| Psd.FftShiftTwice | lib/cf_estimate_impl.cc:235 | on an even length, rotating twice restores the original PSD |
| Psd.FftShiftCentresDc | lib/cf_estimate_impl.cc:235 | on an even length, the DC bin 0 moves to the middle bin n/2 |
| Psd.FftShiftKeepsSum | lib/cf_estimate_impl.cc:235 | the rotation preserves the total energy |
| Psd.BurstPsdShape | lib/cf_estimate_impl.cc:204-235 | the burst PSD has fftsize bins and all of them are non-negative |
| Psd.EstimatePsd | lib/cf_estimate_impl.cc:204-235 | the accumulate, scale and rotate steps produce exactly the averaged, fft-shifted PSD, of length fftsize and non-negative |
| Psd.AverageSpectra | lib/cf_estimate_impl.cc:227-232 | the accumulated array scaled by 1/nffts equals the per-bin mean of the segment spectra |
| Psd.AccumulateSpectra | lib/cf_estimate_impl.cc:204-229 | after the segment loop the fresh array holds, per bin, the sum of all segment spectra |
| Psd.AddInto | lib/cf_estimate_impl.cc:227-228 | the element-wise std::plus accumulation: acc[k] becomes old acc[k] + x[k] |
| Psd.ScaleInPlace | lib/cf_estimate_impl.cc:232 | every element is multiplied by the factor in place |
| Psd.FftShiftInPlace | lib/cf_estimate_impl.cc:235 | the in-place std::rotate leaves the array equal to the fftshift of its old contents |
| Psd.BuildFrequencyAxis | lib/cf_estimate_impl.cc:239-245 | the push_back loop builds the axis cf - sr/2 + i*sr/fftsize for i < fftsize |
| Psd.FrequencyAxisIncreasing | lib/cf_estimate_impl.cc:239-245 | with a positive sample rate the axis starts at cf - sr/2 and is strictly increasing |
| Psd.FrequencyAxisUpperBound | lib/cf_estimate_impl.cc:239-245 | every axis value is at most cf + sr/2 - sr/fftsize |
| Psd.FrequencyAxisCentre | lib/cf_estimate_impl.cc:239-245 | on an even length, the middle bin of the axis is exactly the centre frequency |
| CenterFrequency.FirstReaching | lib/cf_estimate_impl.cc:335-338 | the search index stays in range, every earlier prefix sum is below the threshold, and the prefix sum at the index reaches it unless it is the last bin |
| CenterFrequency.FirstReachingUnique | lib/cf_estimate_impl.cc:335-338 | the first index whose prefix sum reaches the threshold is the one the search returns |
| CenterFrequency.HalfPowerIndexIsFirst | lib/cf_estimate_impl.cc:331-338 | on a non-negative PSD the half-power bin is in range, its prefix sum reaches half the energy, and every earlier prefix sum is below it |
| CenterFrequency.HalfPowerOfSilence | lib/cf_estimate_impl.cc:331-341 | on an all-zero PSD the loop stops at bin 0 (shift -0.5) |
| CenterFrequency.TotalEnergy | lib/cf_estimate_impl.cc:326-329 | the energy loop computes the sum of all bins |
| CenterFrequency.HalfPowerBin | lib/cf_estimate_impl.cc:332-338 | the running-total loop terminates and returns the first bin whose prefix sum reaches half the energy |
| CenterFrequency.HalfPower | lib/cf_estimate_impl.cc:323-342 | half_power returns half_power_idx/n - 0.5 for the first half-power bin, and the result lies in [-0.5, 0.5) |
| CenterFrequency.WeightedSumBounds | lib/cf_estimate_impl.cc:357-363 | when every axis value lies in [lo, hi], the weighted sum lies between lo*energy and hi*energy |
| CenterFrequency.RmsShiftInRange | lib/cf_estimate_impl.cc:344-364 | on a non-negative PSD with non-zero energy and the handler's axis, the rms shift lies in [-0.5, 0.5 - 1/n] |
| CenterFrequency.WeightedTotal | lib/cf_estimate_impl.cc:357-360 | the top-integral loop computes the sum of axis[i]*mags2[i] |
| CenterFrequency.Rms | lib/cf_estimate_impl.cc:344-364 | rms returns ((top_integral/energy) - cf)/sr, and has no value (the 0/0 NaN) exactly when the energy is zero |
| CenterFrequency.NearestIndex | lib/cf_estimate_impl.cc:373-382 | among the first k channels the chosen one is at least as close as every other, and strictly closer than every earlier one (ties go to the earliest) |
| CenterFrequency.NearestChannel | lib/cf_estimate_impl.cc:373-382 | the strict-< scan returns the earliest nearest channel |
| CenterFrequency.CoerceLandsOnNearestChannel | lib/cf_estimate_impl.cc:366-386 | an empty list gives shift 0; otherwise f + shift*sr is a listed channel that is at least as close to f as every listed channel |
| CenterFrequency.CoerceSingleChannel | lib/cf_estimate_impl.cc:374-385 | with one channel the shift is (channel - f)/sr whatever the distance |
| CenterFrequency.CoerceThreeChannels | lib/cf_estimate_impl.cc:366-386 | channels 905/915/925 MHz, estimate 918 MHz at 1 MHz: shift -3.0 onto 915 MHz |
| CenterFrequency.InBandSumMonotone | lib/cf_estimate_impl.cc:424-431 | widening the open band never lowers the in-band energy |
| CenterFrequency.InBandSumBounded | lib/cf_estimate_impl.cc:424-431 | the in-band energy lies between 0 and the total energy |
| CenterFrequency.InBandPower | lib/cf_estimate_impl.cc:424-431 | the estimate_pwr loop sums exactly the bins strictly inside (cf - bw/2, cf + bw/2) |
| FftCache.Mag2GainIsScaledEnergy | lib/cf_estimate_impl.cc:108-109 | fftsize^2 * gain_rms^2 with gain_rms^2 = sum(w^2)/N equals N * sum(w^2), which is non-negative |
| FftCache.FillWindow | lib/cf_estimate_impl.cc:86-98 | the window loop fills w[j] from the taper and accumulates the sum of squares |
| FftCache.BuildWindow | lib/cf_estimate_impl.cc:83-109 | the window has fftsize weights from the taper and its gain is N * sum(w^2) |
| BurstCorrection.RotateN | lib/cf_estimate_impl.cc:284-287 | the corrected burst has the input's length and sample n is data[n] * incr^n (phase reset to 1) |
| BurstCorrection.RotateByOneIsIdentity | lib/cf_estimate_impl.cc:284-287 | a zero shift (increment 1) leaves the burst unchanged |
| BurstCorrection.StaleRelativeFrequency | lib/cf_estimate_impl.cc:289-301 | as written, a relative frequency of 1000 Hz corrected by -1000 Hz is published unchanged, out of step with the moved centre frequency |
| BurstCorrection.RetunedMovesTogether | lib/cf_estimate_impl.cc:289-292 | the centre frequency moves by the correction, a non-zero relative frequency keeps its distance to it, and a zero one stays zero |
| BurstCorrection.AsWrittenDiffersOnlyAtZero | lib/cf_estimate_impl.cc:289-301 | the source's update and the corrected one differ exactly when a non-zero relative frequency is moved onto 0 |
| BurstCorrection.RetunedRoundTrip | lib/cf_estimate_impl.cc:289-292 | a zero correction changes nothing, and a correction followed by its opposite restores the metadata |
| CfEstimate.MethodOf | lib/cf_estimate_impl.cc:269-275 | tag 0 selects RMS and only 0, tag 1 selects HALF_POWER and only 1, every other tag skips estimation |
| CfEstimate.PrimaryShiftInRange | lib/cf_estimate_impl.cc:267-275 | every primary estimate lies in [-0.5, 0.5); there is none exactly for RMS on a zero-energy PSD |
| CfEstimate.CorrectionPublishesAsWritten | lib/cf_estimate_impl.cc:289-301 | the outcome's metadata equals what the source publishes if and only if the relative frequency is not moved from non-zero onto 0 |
| CfEstimate.ZeroShiftKeepsBurst | lib/cf_estimate_impl.cc:284-292 | a final shift of 0 (phase increment exp(0) = 1) publishes the burst and its metadata unchanged |
| CfEstimate.CoerceModeShift | lib/cf_estimate_impl.cc:273-279 | in COERCE mode the total shift is the coercion shift at the declared centre frequency |
| CfEstimate.NoChannelsKeepPrimary | lib/cf_estimate_impl.cc:277-279 | with an empty channel list the total shift is the primary shift |
| CfEstimate.CombinedShiftLandsOnChannel | lib/cf_estimate_impl.cc:277-279 | with channels, the finally corrected frequency is a listed channel nearest to the frequency the primary shift moved to |
| CfEstimate.Correct | lib/cf_estimate_impl.cc:284-292 | the output is the burst rotated by cis(shift) and the metadata retuned by shift*sample_rate |
| CfEstimate.CfEstimator.constructor | lib/cf_estimate_impl.cc:34-53 | stores the method and the channel list and fills the cache up to MAX_FFT_POWER |
| CfEstimate.CfEstimator.FftSetup | lib/cf_estimate_impl.cc:64-111 | the three vectors have max(old size, power + 1) entries, entry i is for size 2^i, old entries are unchanged, and a power below the current size changes nothing |
| CfEstimate.CfEstimator.FftCleanup | lib/cf_estimate_impl.cc:113-123 | the plan and window vectors are emptied and the gain vector is left alone |
| CfEstimate.CfEstimator.SetFreqs | lib/cf_estimate_impl.cc:442-445 | replaces the channel list and nothing else |
| CfEstimate.CfEstimator.SetMethod | lib/cf_estimate_impl.cc:447 | replaces the method tag and nothing else |
| CfEstimate.CfEstimator.CoerceFrequency | lib/cf_estimate_impl.cc:366-386 | 0 for an empty list, else (nearest channel - f)/sr over the current channel list |
| CfEstimate.CfEstimator.EstimateShift | lib/cf_estimate_impl.cc:267-275 | the primary shift of the configured method: rms, half_power, or 0 |
| CfEstimate.CfEstimator.Analyse | lib/cf_estimate_impl.cc:184-275 | plan, PSD with the cached window, axis and primary estimate give the configured method's estimate on the burst PSD |
| CfEstimate.CfEstimator.Retune | lib/cf_estimate_impl.cc:277-292 | the coercion is evaluated at cf + primary*sr, added to the primary shift, and the burst and metadata are corrected by the sum |
| CfEstimate.CfEstimator.ProcessBurst | lib/cf_estimate_impl.cc:184-301 | a zero-energy RMS estimate yields NaN; otherwise the output is the burst rotated and the metadata retuned by primary + coercion shift |

## Left out

- PMT message parsing, validation and publishing, the debug port, logging and
  `std::cout`: GNU Radio plumbing. `ProcessBurst` starts from the parsed
  samples and metadata and returns the corrected burst and metadata. The
  outcome carries only centre frequency, sample rate and relative
  frequency: the `bandwidth`, `pwr_db` and `snr_db` keys of lines 303-313
  are not produced, and a zero-energy RMS estimate gives `NotANumber`
  instead of NaN samples and metadata. See the ProcessBurst line below for
  the one place `relative_frequency` differs.
- The constructor's COERCE-with-empty-list warning and the port registration
  are logging and plumbing.
- The python bindings are pybind11 glue.
- The FFT execution and the VOLK magnitude-squared kernel are foreign library
  calls. They are the `Spectrum` parameter, assumed only to preserve length
  and give non-negative values. The FFT plans are modelled only by their
  size.
- Window weights: `std::exp` of the Gaussian (or the Blackman window of the
  unused branch) is the `taper` parameter. The `sqrt` of the gain is squared
  back, so the gain is modelled as `N * sum(w^2)`.
- `rms_bw` (a `sqrt`) is left out. So are the `log10` of `estimate_pwr` and of
  the SNR, and the division by the magnitude-squared gain: `estimate_pwr` is
  modelled only as its in-band sum (`InBandPower`), over a bandwidth given as
  a parameter.
- The rotator's phase increment `exp(-j*2*pi*shift)` is the `cis`
  parameter. Its periodic renormalisation is floating-point housekeeping.
- Floating point: `float`/`double` are modelled as exact reals. Several
  parameters are `float` in the source (`rms`, `coerce_frequency` and
  `cf_correction_hz` narrow doubles to float). `abs` may resolve to the
  integer overload for a float argument. Neither the rounding nor the
  `log2` imprecision is modelled.
- NaN: only the RMS 0/0 is modelled (`NotANumber`). The source would publish
  NaN samples and metadata there.
- Bursts shorter than MIN_NFFTS (4) samples give a negative FFT power in the
  source and are excluded by the precondition. A zero sample rate (a
  division by zero) is excluded likewise.
- `d_corrected_burst` is a member buffer in the source. The model returns
  the corrected samples as a sequence.
- An absent `relative_frequency` and one equal to 0.0 are the same thing in
  the source (its default is 0.0), so the model uses one real.
- Concurrency between the setters and the message handler is out of scope.
- CfEstimate.CfEstimator.ProcessBurst: the published `relative_frequency`
  follows the corrected rule (`BurstCorrection.Retuned`). When a non-zero
  relative frequency is moved exactly onto 0, the model publishes 0, while
  the source (lines 299-301) skips the write and republishes the incoming
  value. `CfEstimate.CorrectionPublishesAsWritten` proves that this is the
  only case in which the two differ.
- CfEstimate.CfEstimator.ProcessBurst: requires the window cache to be ready
  (`WindowsReady`). The constructor establishes this (`ValidWindowsReady`).
  After `fft_cleanup` has cleared `d_ffts` and `d_windows` (lines 118 and
  122), `pdu_handler` would index those empty vectors at lines 212 and 217.
- CfEstimate.CfEstimator.FftCleanup: models the source, which leaves
  `d_fft_mag2_gains` in place. A later `fft_setup` from an empty cache would
  push the gains after the stale ones. The model keeps only the size
  invariant for plans and windows.
- BurstCorrection.RetunedRoundTrip: the undo half holds only when the
  relative frequency was zero or stays non-zero. A relative frequency moved
  to exactly 0 is read as absent afterwards.

## Findings

| source | as written | input that shows it | evidently intended | confidence | as-written member | corrected member |
|---|---|---|---|---|---|---|
| lib/cf_estimate_impl.cc:289-301 | a non-zero `relative_frequency` is moved by the correction, but it is written back only when the new value is non-zero | relative_frequency = 1000 Hz, center_frequency = 915 MHz, sample_rate = 1 MHz, final shift -0.001 (correction -1000 Hz): center_frequency becomes 914.999 MHz but the published relative_frequency stays 1000 Hz | the relative frequency moves with the centre frequency, so the published value is 0 Hz | not executed | BurstCorrection.StaleRelativeFrequency | BurstCorrection.RetunedMovesTogether |
