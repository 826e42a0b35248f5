/**
 * The power-spectral-density estimate of `pdu_handler`: windowed segments,
 * accumulated squared magnitudes, the average over segments, the
 * "fftshift" rotation and the frequency axis.
 */
module Psd {
  import opened ComplexSamples
  import opened SegmentPlan

  /**
   * Window, forward transform and squared magnitude of one FFT input
   * buffer. The transform and the VOLK kernels are outside the model; a
   * `Spectrum` stands for them.
   */
  type Spectrum = seq<Complex> -> seq<real>

  /** What the model assumes of the transform: one non-negative bin per input sample. */
  ghost predicate WellFormed(spectrum: Spectrum)
  {
    (forall x :: |spectrum(x)| == |x|) &&
    (forall x, k :: 0 <= k < |spectrum(x)| ==> spectrum(x)[k] >= 0.0)
  }

  predicate NonNegative(s: seq<real>)
  {
    forall i :: 0 <= i < |s| ==> s[i] >= 0.0
  }

  /** Every row has exactly `width` entries. */
  predicate Rectangular(rows: seq<seq<real>>, width: nat)
  {
    forall ii :: 0 <= ii < |rows| ==> |rows[ii]| == width
  }

  /** Element-wise product of a segment with the analysis window. */
  function Windowed(segment: seq<Complex>, window: seq<real>): (r: seq<Complex>)
    requires |segment| == |window|
    ensures |r| == |segment|
  {
    seq(|segment|, j requires 0 <= j < |segment| => Scale(segment[j], window[j]))
  }

  /** The samples segment `ii` copies into the FFT input buffer. */
  function Segment(data: seq<Complex>, ii: nat): (s: seq<Complex>)
    requires |data| >= MIN_NFFTS && ii < PlanSegments(|data|).nffts
    ensures |s| == PlanSegments(|data|).fftsize
  {
    var plan := PlanSegments(|data|);
    SegmentInBounds(|data|, ii);
    var start := plan.offset + ii * plan.fftsize;
    data[start .. start + plan.fftsize]
  }

  /** Squared-magnitude vector (`fftm2`) of every segment, in segment order. */
  function SegmentSpectra(data: seq<Complex>, window: seq<real>, spectrum: Spectrum): (rows: seq<seq<real>>)
    requires |data| >= MIN_NFFTS && |window| == PlanSegments(|data|).fftsize
    requires WellFormed(spectrum)
    ensures |rows| == PlanSegments(|data|).nffts
    ensures Rectangular(rows, |window|)
    ensures forall ii :: 0 <= ii < |rows| ==> NonNegative(rows[ii])
  {
    var nffts := PlanSegments(|data|).nffts;
    var rows := seq(nffts, ii requires 0 <= ii < nffts => spectrum(Windowed(Segment(data, ii), window)));
    assert forall ii :: 0 <= ii < nffts ==> rows[ii] == spectrum(Windowed(Segment(data, ii), window));
    rows
  }

  /** Bin-wise sums over all rows: the accumulated `mags2` before scaling. */
  function ColumnSums(rows: seq<seq<real>>, width: nat): (sums: seq<real>)
    requires Rectangular(rows, width)
    ensures |sums| == width
  {
    seq(width, k requires 0 <= k < width => ColumnSum(rows, k))
  }

  /** Sum of bin `k` over all rows. */
  function ColumnSum(rows: seq<seq<real>>, k: nat): real
    requires forall ii :: 0 <= ii < |rows| ==> k < |rows[ii]|
  {
    if |rows| == 0 then 0.0 else ColumnSum(rows[..|rows| - 1], k) + rows[|rows| - 1][k]
  }

  lemma {:induction false} ColumnSumNonNegative(rows: seq<seq<real>>, k: nat)
    requires forall ii :: 0 <= ii < |rows| ==> k < |rows[ii]| && rows[ii][k] >= 0.0
    ensures ColumnSum(rows, k) >= 0.0
  {
    if |rows| > 0 {
      ColumnSumNonNegative(rows[..|rows| - 1], k);
    }
  }

  /** The accumulated bins scaled by `1/nffts`. */
  function Averaged(rows: seq<seq<real>>, width: nat): (avg: seq<real>)
    requires |rows| > 0 && Rectangular(rows, width)
    ensures |avg| == width
  {
    seq(width, k requires 0 <= k < width => ColumnSum(rows, k) * (1.0 / |rows| as real))
  }

  /** Each averaged bin is the mean of that bin over the segments, and is non-negative. */
  lemma {:induction false} AveragedIsMean(rows: seq<seq<real>>, width: nat, k: nat)
    requires |rows| > 0 && Rectangular(rows, width) && k < width
    requires forall ii :: 0 <= ii < |rows| ==> NonNegative(rows[ii])
    ensures Averaged(rows, width)[k] == ColumnSum(rows, k) / |rows| as real
    ensures Averaged(rows, width)[k] >= 0.0
  {
    ColumnSumNonNegative(rows, k);
  }

  /** `std::rotate(first, first + n/2, last)`: the upper half moves to the front. */
  function FftShift(s: seq<real>): seq<real>
  {
    s[|s| / 2..] + s[..|s| / 2]
  }

  lemma {:induction false} FftShiftAt(s: seq<real>, i: nat)
    requires i < |s|
    ensures |FftShift(s)| == |s|
    ensures FftShift(s)[i] == s[(i + |s| / 2) % |s|]
  {
    var n, h := |s|, |s| / 2;
    if i < n - h {
      ModBelow(i + h, n);
    } else {
      ModWrapOnce(i + h, n);
    }
  }

  lemma {:induction false} ModBelow(x: nat, n: nat)
    requires x < n
    ensures x % n == x
  {
  }

  lemma {:induction false} ModWrapOnce(x: nat, n: nat)
    requires n <= x < 2 * n
    ensures x % n == x - n
  {
    assert x == 1 * n + (x - n);
  }

  /** The rotation is a permutation of the bins. */
  lemma {:induction false} FftShiftPermutes(s: seq<real>)
    ensures multiset(FftShift(s)) == multiset(s)
  {
    var h := |s| / 2;
    assert s == s[..h] + s[h..];
  }

  /** For an even number of bins, shifting twice restores the original order. */
  lemma {:induction false} FftShiftTwice(s: seq<real>)
    requires |s| % 2 == 0
    ensures FftShift(FftShift(s)) == s
  {
    var h := |s| / 2;
    var t := FftShift(s);
    assert t[h..] == s[..h];
    assert t[..h] == s[h..];
    assert s == s[..h] + s[h..];
  }

  /** After the shift, bin n/2 holds the zero-frequency bin 0 of the transform. */
  lemma {:induction false} FftShiftCentresDc(s: seq<real>)
    requires |s| > 0 && |s| % 2 == 0
    ensures FftShift(s)[|s| / 2] == s[0]
  {
    FftShiftAt(s, |s| / 2);
  }

  function Sum(s: seq<real>): real
  {
    if |s| == 0 then 0.0 else Sum(s[..|s| - 1]) + s[|s| - 1]
  }

  lemma {:induction false} SumAppend(a: seq<real>, b: seq<real>)
    ensures Sum(a + b) == Sum(a) + Sum(b)
  {
    if |b| > 0 {
      assert (a + b)[..|a + b| - 1] == a + b[..|b| - 1];
      SumAppend(a, b[..|b| - 1]);
    } else {
      assert a + b == a;
    }
  }

  lemma {:induction false} SumNonNegative(s: seq<real>)
    requires NonNegative(s)
    ensures Sum(s) >= 0.0
  {
    if |s| > 0 {
      SumNonNegative(s[..|s| - 1]);
    }
  }

  /** The rotation keeps the total energy. */
  lemma {:induction false} FftShiftKeepsSum(s: seq<real>)
    ensures Sum(FftShift(s)) == Sum(s)
  {
    var h := |s| / 2;
    SumAppend(s[h..], s[..h]);
    SumAppend(s[..h], s[h..]);
    assert s == s[..h] + s[h..];
  }

  /** The zero-centred PSD of a burst: averaged segment spectra, then shifted. */
  function BurstPsd(data: seq<Complex>, window: seq<real>, spectrum: Spectrum): (psd: seq<real>)
    requires |data| >= MIN_NFFTS && |window| == PlanSegments(|data|).fftsize
    requires WellFormed(spectrum)
  {
    var rows := SegmentSpectra(data, window, spectrum);
    FftShift(Averaged(rows, |window|))
  }

  /** The PSD has one non-negative value per FFT bin. */
  lemma {:induction false} BurstPsdShape(data: seq<Complex>, window: seq<real>, spectrum: Spectrum)
    requires |data| >= MIN_NFFTS && |window| == PlanSegments(|data|).fftsize
    requires WellFormed(spectrum)
    ensures |BurstPsd(data, window, spectrum)| == |window|
    ensures NonNegative(BurstPsd(data, window, spectrum))
  {
    var rows := SegmentSpectra(data, window, spectrum);
    var avg := Averaged(rows, |window|);
    forall k | 0 <= k < |avg| ensures avg[k] >= 0.0 {
      AveragedIsMean(rows, |window|, k);
    }
    forall i | 0 <= i < |avg| ensures FftShift(avg)[i] >= 0.0 {
      FftShiftAt(avg, i);
    }
  }

  /**
   * Accumulates the segment spectra of `data` bin by bin, scales by
   * 1/nffts and applies the fftshift rotation, as `pdu_handler` does on
   * its `mags2` buffer.
   */
  method EstimatePsd(data: seq<Complex>, window: seq<real>, spectrum: Spectrum) returns (psd: seq<real>)
    requires |data| >= MIN_NFFTS && |window| == PlanSegments(|data|).fftsize
    requires WellFormed(spectrum)
    ensures psd == BurstPsd(data, window, spectrum)
    ensures |psd| == PlanSegments(|data|).fftsize && NonNegative(psd)
  {
    var mags2 := AverageSpectra(data, window, spectrum);
    FftShiftInPlace(mags2);
    psd := mags2[..];
    BurstPsdShape(data, window, spectrum);
  }

  /** Accumulation followed by the `1/nffts` scaling: the bin-wise mean of the segment spectra. */
  method AverageSpectra(data: seq<Complex>, window: seq<real>, spectrum: Spectrum) returns (mags2: array<real>)
    requires |data| >= MIN_NFFTS && |window| == PlanSegments(|data|).fftsize
    requires WellFormed(spectrum)
    ensures fresh(mags2)
    ensures mags2[..] == Averaged(SegmentSpectra(data, window, spectrum), |window|)
  {
    var plan := PlanSegments(|data|);
    ghost var rows := SegmentSpectra(data, window, spectrum);
    mags2 := AccumulateSpectra(data, window, spectrum);
    ghost var sums := mags2[..];
    var scale := 1.0 / plan.nffts as real;
    ScaleInPlace(mags2, scale);
    ScaledSumsAreAveraged(rows, plan.fftsize, sums, scale, mags2[..]);
  }

  /** The accumulation loop: `mags2` ends as the bin-wise sum of all segment spectra. */
  method AccumulateSpectra(data: seq<Complex>, window: seq<real>, spectrum: Spectrum) returns (mags2: array<real>)
    requires |data| >= MIN_NFFTS && |window| == PlanSegments(|data|).fftsize
    requires WellFormed(spectrum)
    ensures fresh(mags2)
    ensures mags2[..] == ColumnSums(SegmentSpectra(data, window, spectrum), |window|)
  {
    var plan := PlanSegments(|data|);
    ghost var rows := SegmentSpectra(data, window, spectrum);
    mags2 := new real[plan.fftsize](_ => 0.0);
    var ii := 0;
    while ii < plan.nffts
      invariant 0 <= ii <= plan.nffts
      invariant mags2[..] == ColumnSums(rows[..ii], plan.fftsize)
    {
      var fftm2 := spectrum(Windowed(Segment(data, ii), window));
      assert fftm2 == rows[ii];
      ghost var before := mags2[..];
      AddInto(mags2, fftm2);
      ColumnSumsStep(rows, ii, plan.fftsize, before, mags2[..]);
      ii := ii + 1;
    }
    assert rows[..ii] == rows;
  }

  lemma {:induction false} ColumnSumsStep(rows: seq<seq<real>>, ii: nat, width: nat, before: seq<real>, after: seq<real>)
    requires ii < |rows| && Rectangular(rows, width)
    requires before == ColumnSums(rows[..ii], width) && |after| == width
    requires forall k :: 0 <= k < width ==> after[k] == before[k] + rows[ii][k]
    ensures after == ColumnSums(rows[..ii + 1], width)
  {
    assert rows[..ii + 1][..ii] == rows[..ii];
  }

  lemma {:induction false} ScaledSumsAreAveraged(rows: seq<seq<real>>, width: nat, sums: seq<real>, scale: real, scaled: seq<real>)
    requires |rows| > 0 && Rectangular(rows, width) && scale == 1.0 / |rows| as real
    requires sums == ColumnSums(rows, width) && scaled == Scaled(sums, scale)
    ensures scaled == Averaged(rows, width)
  {
    var avg := Averaged(rows, width);
    forall k | 0 <= k < width ensures scaled[k] == avg[k] {
      assert sums[k] == ColumnSum(rows, k);
      assert avg[k] == ColumnSum(rows, k) * (1.0 / |rows| as real);
    }
  }

  /** `std::transform(..., std::plus)`: adds `x` into `acc` bin by bin. */
  method AddInto(acc: array<real>, x: seq<real>)
    requires |x| == acc.Length
    modifies acc
    ensures forall k :: 0 <= k < acc.Length ==> acc[k] == old(acc[k]) + x[k]
  {
    var k := 0;
    while k < acc.Length
      invariant 0 <= k <= acc.Length
      invariant forall j :: 0 <= j < k ==> acc[j] == old(acc[j]) + x[j]
      invariant forall j :: k <= j < acc.Length ==> acc[j] == old(acc[j])
    {
      acc[k] := acc[k] + x[k];
      k := k + 1;
    }
  }

  /** `volk_32f_s32f_multiply_32f` in place: every bin times `c`. */
  method ScaleInPlace(a: array<real>, c: real)
    modifies a
    ensures a[..] == Scaled(old(a[..]), c)
  {
    var k := 0;
    while k < a.Length
      invariant 0 <= k <= a.Length
      invariant forall j :: 0 <= j < k ==> a[j] == old(a[j]) * c
      invariant forall j :: k <= j < a.Length ==> a[j] == old(a[j])
    {
      a[k] := a[k] * c;
      k := k + 1;
    }
    assert forall j :: 0 <= j < a.Length ==> a[..][j] == Scaled(old(a[..]), c)[j];
  }

  /** Every bin of `s` times `c`. */
  function Scaled(s: seq<real>, c: real): (r: seq<real>)
    ensures |r| == |s|
  {
    seq(|s|, k requires 0 <= k < |s| => s[k] * c)
  }

  /** In-place rotation by half the length; the old contents are read from a snapshot. */
  method FftShiftInPlace(a: array<real>)
    modifies a
    ensures a[..] == FftShift(old(a[..]))
  {
    var s := a[..];
    var n := a.Length;
    var h := n / 2;
    var i := 0;
    while i < n
      invariant 0 <= i <= n
      invariant forall j :: 0 <= j < i ==> a[j] == FftShift(s)[j]
    {
      a[i] := if i < n - h then s[i + h] else s[i + h - n];
      i := i + 1;
    }
    assert a[..] == FftShift(s);
  }

  /** `freq_axis[i] = center_frequency - sample_rate/2 + i * (sample_rate/fftsize)`. */
  function FrequencyAxis(centerFrequency: real, sampleRate: real, n: nat): (axis: seq<real>)
    requires n >= 1
    ensures |axis| == n
  {
    seq(n, i requires 0 <= i < n => centerFrequency - sampleRate / 2.0 + (sampleRate / n as real) * i as real)
  }

  /** Builds the axis by appending one bin frequency at a time. */
  method BuildFrequencyAxis(centerFrequency: real, sampleRate: real, fftsize: nat) returns (axis: seq<real>)
    requires fftsize >= 1
    ensures axis == FrequencyAxis(centerFrequency, sampleRate, fftsize)
  {
    var stepSize := sampleRate / fftsize as real;
    var start := centerFrequency - sampleRate / 2.0;
    axis := [];
    var i := 0;
    while i < fftsize
      invariant 0 <= i <= fftsize
      invariant axis == FrequencyAxis(centerFrequency, sampleRate, fftsize)[..i]
    {
      ghost var full := FrequencyAxis(centerFrequency, sampleRate, fftsize);
      assert full[i] == start + stepSize * i as real;
      assert full[..i + 1] == full[..i] + [full[i]];
      axis := axis + [start + stepSize * i as real];
      i := i + 1;
    }
  }

  lemma {:induction false} StepScales(step: real, a: nat, b: nat)
    requires step > 0.0 && a < b
    ensures step * a as real < step * b as real
  {
  }

  /** For a positive sample rate the axis is strictly increasing and starts at cf - sr/2. */
  lemma {:induction false} FrequencyAxisIncreasing(centerFrequency: real, sampleRate: real, n: nat)
    requires n >= 1 && sampleRate > 0.0
    ensures FrequencyAxis(centerFrequency, sampleRate, n)[0] == centerFrequency - sampleRate / 2.0
    ensures forall i, j :: 0 <= i < j < n ==>
      FrequencyAxis(centerFrequency, sampleRate, n)[i] < FrequencyAxis(centerFrequency, sampleRate, n)[j]
  {
    var axis := FrequencyAxis(centerFrequency, sampleRate, n);
    var step := sampleRate / n as real;
    forall i, j | 0 <= i < j < n ensures axis[i] < axis[j] {
      StepScales(step, i, j);
    }
  }

  /** Every bin frequency stays below cf + sr/2: the last bin is cf + sr/2 - sr/n. */
  lemma {:induction false} FrequencyAxisUpperBound(centerFrequency: real, sampleRate: real, n: nat)
    requires n >= 1 && sampleRate > 0.0
    ensures forall i :: 0 <= i < n ==>
      FrequencyAxis(centerFrequency, sampleRate, n)[i] <= centerFrequency + sampleRate / 2.0 - sampleRate / n as real
  {
    var axis := FrequencyAxis(centerFrequency, sampleRate, n);
    var step := sampleRate / n as real;
    assert step * n as real == sampleRate;
    forall i | 0 <= i < n ensures axis[i] <= centerFrequency + sampleRate / 2.0 - step {
      if i < n - 1 {
        StepScales(step, i, n - 1);
      }
      assert step * (n - 1) as real == step * n as real - step;
    }
  }

  /** For an even bin count, bin n/2 (where the shift put the zero-frequency bin) is exactly cf. */
  lemma {:induction false} FrequencyAxisCentre(centerFrequency: real, sampleRate: real, n: nat)
    requires n >= 2 && n % 2 == 0
    ensures FrequencyAxis(centerFrequency, sampleRate, n)[n / 2] == centerFrequency
  {
    var step := sampleRate / n as real;
    assert (n / 2) as real == n as real / 2.0;
    assert step * n as real == sampleRate;
    assert step * (n / 2) as real == sampleRate / 2.0;
  }
}
