/**
 * The centre-frequency estimators (`half_power`, `rms`), the channel
 * coercion rule of `coerce_frequency` and the in-band summation of
 * `estimate_pwr`. Each loop-based routine is a method proved against a
 * specification function; the properties are lemmas about those functions.
 */
module CenterFrequency {
  import opened Psd

  datatype Option<T> = None | Some(value: T)

  // ---------------------------------------------------------------- half power

  /** Energy of bins 0 through j inclusive: the running total after visiting bin j. */
  function Cumulative(s: seq<real>, j: nat): real
    requires j < |s|
  {
    Sum(s[..j + 1])
  }

  /** The first index from `i` on whose prefix sum through it reaches `threshold` (the last index if none does). */
  function FirstReaching(s: seq<real>, threshold: real, i: nat): (idx: nat)
    requires i < |s|
    ensures i <= idx < |s|
    ensures forall j :: i <= j < idx ==> Cumulative(s, j) < threshold
    ensures idx == |s| - 1 || Cumulative(s, idx) >= threshold
    decreases |s| - i
  {
    if i == |s| - 1 || Cumulative(s, i) >= threshold then i else FirstReaching(s, threshold, i + 1)
  }

  /** The half-power bin: the first bin whose cumulative energy reaches half the total. */
  function HalfPowerIndex(s: seq<real>): nat
    requires |s| >= 1
  {
    FirstReaching(s, Sum(s) / 2.0, 0)
  }

  /** The shift `half_power` returns: the half-power bin as a fraction of the bins, minus one half. */
  function HalfPowerShift(s: seq<real>): real
    requires |s| >= 1
  {
    HalfPowerIndex(s) as real / |s| as real - 0.5
  }

  lemma {:induction false} FirstReachingUnique(s: seq<real>, threshold: real, i: nat, idx: nat)
    requires i <= idx < |s|
    requires forall j :: i <= j < idx ==> Cumulative(s, j) < threshold
    requires Cumulative(s, idx) >= threshold
    ensures FirstReaching(s, threshold, i) == idx
    decreases idx - i
  {
    if i < idx {
      FirstReachingUnique(s, threshold, i + 1, idx);
    }
  }

  /**
   * For a non-negative PSD the half-power bin exists: its prefix sum
   * reaches half the energy, and every earlier prefix stays below it.
   */
  lemma {:induction false} HalfPowerIndexIsFirst(s: seq<real>)
    requires |s| >= 1 && NonNegative(s)
    ensures HalfPowerIndex(s) < |s|
    ensures Cumulative(s, HalfPowerIndex(s)) >= Sum(s) / 2.0
    ensures forall j :: 0 <= j < HalfPowerIndex(s) ==> Cumulative(s, j) < Sum(s) / 2.0
  {
    SumNonNegative(s);
    assert s[..|s|] == s;
  }

  /** An all-zero PSD puts the half-power bin at 0. */
  lemma {:induction false} HalfPowerOfSilence(s: seq<real>)
    requires |s| >= 1 && NonNegative(s) && Sum(s) == 0.0
    ensures HalfPowerIndex(s) == 0
  {
    assert s[..1][..0] == [];
    assert Sum(s[..1]) == Sum(s[..1][..0]) + s[..1][0];
    assert Cumulative(s, 0) == s[0];
  }

  lemma {:induction false} IndexFraction(idx: nat, n: nat)
    requires idx < n
    ensures 0.0 <= idx as real / n as real < 1.0
  {
  }

  /** The energy loop that opens both `half_power` and `rms`. */
  method TotalEnergy(mags2: seq<real>) returns (energy: real)
    ensures energy == Sum(mags2)
  {
    energy := 0.0;
    var i := 0;
    while i < |mags2|
      invariant 0 <= i <= |mags2|
      invariant energy == Sum(mags2[..i])
    {
      assert mags2[..i + 1][..i] == mags2[..i];
      energy := energy + mags2[i];
      i := i + 1;
    }
    assert mags2[..i] == mags2;
  }

  /**
   * The search loop of `half_power`: add bins to a running total while it
   * is below `halfPower`, remembering the last bin added.
   */
  method HalfPowerBin(mags2: seq<real>, halfPower: real) returns (halfPowerIdx: nat)
    requires |mags2| >= 1 && NonNegative(mags2) && halfPower <= Sum(mags2)
    ensures halfPowerIdx == FirstReaching(mags2, halfPower, 0)
  {
    var runningTotal := 0.0;
    halfPowerIdx := 0;
    var i := 0;
    while runningTotal < halfPower
      invariant 0 <= i <= |mags2|
      invariant runningTotal == Sum(mags2[..i])
      invariant i == |mags2| ==> runningTotal >= halfPower
      invariant halfPowerIdx == if i == 0 then 0 else i - 1
      invariant forall j :: 0 <= j < halfPowerIdx ==> Cumulative(mags2, j) < halfPower
      decreases |mags2| - i
    {
      assert i >= 1 ==> Cumulative(mags2, i - 1) == runningTotal;
      assert mags2[..i + 1][..i] == mags2[..i];
      runningTotal := runningTotal + mags2[i];
      halfPowerIdx := i;
      i := i + 1;
      assert i == |mags2| ==> mags2[..i] == mags2;
    }
    if i == 0 {
      assert Cumulative(mags2, 0) == mags2[0] by {
        assert mags2[..1] == [mags2[0]];
        assert mags2[..1][..0] == [];
      }
    } else {
      assert Cumulative(mags2, i - 1) == runningTotal;
    }
    FirstReachingUnique(mags2, halfPower, 0, halfPowerIdx);
  }

  /**
   * `half_power`: total energy, then the first bin whose running total
   * reaches half of it; the result is `idx/n - 0.5`.
   */
  method HalfPower(mags2: seq<real>) returns (shift: real)
    requires |mags2| >= 1 && NonNegative(mags2)
    ensures shift == HalfPowerShift(mags2)
    ensures -0.5 <= shift < 0.5
  {
    var energy := TotalEnergy(mags2);
    SumNonNegative(mags2);
    var halfPowerIdx := HalfPowerBin(mags2, energy / 2.0);
    IndexFraction(halfPowerIdx, |mags2|);
    shift := halfPowerIdx as real / |mags2| as real - 0.5;
  }

  // ---------------------------------------------------------------- RMS mean

  /** Sum of `axis[i] * p[i]`: the numerator of the energy-weighted mean frequency. */
  function WeightedSum(axis: seq<real>, p: seq<real>): real
    requires |axis| == |p|
  {
    if |p| == 0 then 0.0
    else WeightedSum(axis[..|p| - 1], p[..|p| - 1]) + axis[|p| - 1] * p[|p| - 1]
  }

  /**
   * The shift `rms` returns: the energy-weighted mean of the axis, minus
   * the centre frequency, over the sample rate. `None` is the zero-energy
   * PSD, for which the source divides 0 by 0 and returns NaN.
   */
  function RmsShift(psd: seq<real>, axis: seq<real>, centerFrequency: real, sampleRate: real): Option<real>
    requires |axis| == |psd| && sampleRate != 0.0
  {
    var energy := Sum(psd);
    if energy == 0.0 then None
    else Some((WeightedSum(axis, psd) / energy - centerFrequency) / sampleRate)
  }

  /** With every axis value in [lo, hi] and non-negative weights, the weighted sum lies between lo and hi times the energy. */
  lemma {:induction false} WeightedSumBounds(axis: seq<real>, p: seq<real>, lo: real, hi: real)
    requires |axis| == |p| && NonNegative(p)
    requires forall i :: 0 <= i < |axis| ==> lo <= axis[i] <= hi
    ensures lo * Sum(p) <= WeightedSum(axis, p) <= hi * Sum(p)
  {
    WeightedPrefixBounds(axis, p, lo, hi, |p|);
    assert axis[..|p|] == axis && p[..|p|] == p;
  }

  lemma {:induction false} WeightedPrefixBounds(axis: seq<real>, p: seq<real>, lo: real, hi: real, k: nat)
    requires |axis| == |p| && NonNegative(p) && k <= |p|
    requires forall i :: 0 <= i < |axis| ==> lo <= axis[i] <= hi
    ensures lo * Sum(p[..k]) <= WeightedSum(axis[..k], p[..k]) <= hi * Sum(p[..k])
  {
    if k > 0 {
      var n := k - 1;
      WeightedPrefixBounds(axis, p, lo, hi, n);
      assert axis[..k][..n] == axis[..n] && p[..k][..n] == p[..n];
      BoundsStep(WeightedSum(axis[..n], p[..n]), Sum(p[..n]), axis[n], p[n], lo, hi,
                 WeightedSum(axis[..k], p[..k]), Sum(p[..k]));
    }
  }

  lemma {:induction false} BoundsStep(w: real, e: real, a: real, q: real, lo: real, hi: real, w': real, e': real)
    requires lo * e <= w <= hi * e && lo <= a <= hi && q >= 0.0
    requires w' == w + a * q && e' == e + q
    ensures lo * e' <= w' <= hi * e'
  {
    MulNonNegative(a - lo, q);
    MulNonNegative(hi - a, q);
    Distribute(lo, e, q);
    Distribute(hi, e, q);
  }

  lemma {:induction false} Distribute(c: real, a: real, b: real)
    ensures c * (a + b) == c * a + c * b
  {
  }

  lemma {:induction false} MulNonNegative(a: real, b: real)
    requires a >= 0.0 && b >= 0.0
    ensures a * b >= 0.0
  {
  }

  /**
   * On a non-negative PSD over the axis `pdu_handler` builds, with a
   * positive sample rate, the energy-weighted shift lies in
   * [-0.5, 0.5 - 1/n], inside [-0.5, 0.5).
   */
  lemma {:induction false} RmsShiftInRange(psd: seq<real>, centerFrequency: real, sampleRate: real)
    requires |psd| >= 1 && NonNegative(psd) && sampleRate > 0.0
    requires RmsShift(psd, FrequencyAxis(centerFrequency, sampleRate, |psd|), centerFrequency, sampleRate).Some?
    ensures var s := RmsShift(psd, FrequencyAxis(centerFrequency, sampleRate, |psd|), centerFrequency, sampleRate).value;
      -0.5 <= s <= 0.5 - 1.0 / |psd| as real && s < 0.5
  {
    var n := |psd|;
    var axis := FrequencyAxis(centerFrequency, sampleRate, n);
    var step := sampleRate / n as real;
    var lo := centerFrequency - sampleRate / 2.0;
    var hi := centerFrequency + sampleRate / 2.0 - step;
    AxisBetween(centerFrequency, sampleRate, n);
    var energy := Sum(psd);
    SumNonNegative(psd);
    assert energy > 0.0;
    var w := WeightedSum(axis, psd);
    WeightedSumBounds(axis, psd, lo, hi);
    var mean := w / energy;
    CentroidBounds(w, energy, lo, hi);
    var s := (mean - centerFrequency) / sampleRate;
    ShiftBounds(mean, centerFrequency, sampleRate, step, n);
  }

  /** Every bin frequency of the axis lies between its first bin and its last. */
  lemma {:induction false} AxisBetween(centerFrequency: real, sampleRate: real, n: nat)
    requires n >= 1 && sampleRate > 0.0
    ensures var axis := FrequencyAxis(centerFrequency, sampleRate, n);
      forall i :: 0 <= i < n ==>
        centerFrequency - sampleRate / 2.0 <= axis[i] <= centerFrequency + sampleRate / 2.0 - sampleRate / n as real
  {
    var axis := FrequencyAxis(centerFrequency, sampleRate, n);
    FrequencyAxisIncreasing(centerFrequency, sampleRate, n);
    FrequencyAxisUpperBound(centerFrequency, sampleRate, n);
    forall i | 0 < i < n ensures axis[0] < axis[i] {
    }
  }

  lemma {:induction false} CentroidBounds(w: real, energy: real, lo: real, hi: real)
    requires energy > 0.0 && lo * energy <= w <= hi * energy
    ensures lo <= w / energy <= hi
  {
  }

  lemma {:induction false} ShiftBounds(mean: real, centerFrequency: real, sampleRate: real, step: real, n: nat)
    requires sampleRate > 0.0 && n >= 1 && step == sampleRate / n as real
    requires centerFrequency - sampleRate / 2.0 <= mean <= centerFrequency + sampleRate / 2.0 - step
    ensures -0.5 <= (mean - centerFrequency) / sampleRate <= 0.5 - 1.0 / n as real
    ensures 1.0 / n as real > 0.0
  {
    var s := (mean - centerFrequency) / sampleRate;
    var b := 0.5 - 1.0 / n as real;
    assert s * sampleRate == mean - centerFrequency;
    assert step == sampleRate * (1.0 / n as real);
    assert b * sampleRate == sampleRate / 2.0 - step;
    assert -0.5 * sampleRate <= s * sampleRate <= b * sampleRate;
    ScaleCancel(s, -0.5, b, sampleRate);
  }

  lemma {:induction false} ScaleCancel(x: real, a: real, b: real, c: real)
    requires c > 0.0 && a * c <= x * c <= b * c
    ensures a <= x <= b
  {
  }

  /** The second loop of `rms`: the sum of frequency times bin energy. */
  method WeightedTotal(freqAxis: seq<real>, mags2: seq<real>) returns (topIntegral: real)
    requires |freqAxis| == |mags2|
    ensures topIntegral == WeightedSum(freqAxis, mags2)
  {
    topIntegral := 0.0;
    var i := 0;
    while i < |mags2|
      invariant 0 <= i <= |mags2|
      invariant topIntegral == WeightedSum(freqAxis[..i], mags2[..i])
    {
      assert mags2[..i + 1][..i] == mags2[..i];
      assert freqAxis[..i + 1][..i] == freqAxis[..i];
      topIntegral := topIntegral + freqAxis[i] * mags2[i];
      i := i + 1;
    }
    assert mags2[..i] == mags2 && freqAxis[..i] == freqAxis;
  }

  /** `rms`: one pass for the energy, one for the weighted sum. */
  method Rms(mags2: seq<real>, freqAxis: seq<real>, centerFrequency: real, sampleRate: real) returns (shift: Option<real>)
    requires |freqAxis| == |mags2| && sampleRate != 0.0
    ensures shift == RmsShift(mags2, freqAxis, centerFrequency, sampleRate)
    ensures shift.None? <==> Sum(mags2) == 0.0
  {
    var energy := TotalEnergy(mags2);
    var topIntegral := WeightedTotal(freqAxis, mags2);

    if energy == 0.0 {
      shift := None;
    } else {
      shift := Some((topIntegral / energy - centerFrequency) / sampleRate);
    }
  }

  // ---------------------------------------------------------------- coercion

  function Abs(x: real): real
  {
    if x < 0.0 then -x else x
  }

  /**
   * The channel a linear scan of the first `k` entries with a strict `<`
   * settles on: an entry at minimal distance from `f` among them, and the
   * earliest such entry on a tie.
   */
  function NearestIndex(freqs: seq<real>, f: real, k: nat): (i: nat)
    requires 1 <= k <= |freqs|
    ensures i < k
    ensures forall j :: 0 <= j < k ==> Abs(freqs[i] - f) <= Abs(freqs[j] - f)
    ensures forall j :: 0 <= j < i ==> Abs(freqs[j] - f) > Abs(freqs[i] - f)
  {
    if k == 1 then 0
    else
      var best := NearestIndex(freqs, f, k - 1);
      if Abs(freqs[k - 1] - f) < Abs(freqs[best] - f) then k - 1 else best
  }

  /** The additional shift `coerce_frequency` returns: 0 with no channels, else the fractional distance to the nearest one. */
  function CoerceShift(freqs: seq<real>, f: real, sampleRate: real): real
    requires sampleRate != 0.0
  {
    if |freqs| == 0 then 0.0 else (freqs[NearestIndex(freqs, f, |freqs|)] - f) / sampleRate
  }

  /**
   * Retuning by the coercion shift lands exactly on a listed channel, one
   * at least as close as every other entry (the empty list leaves `f` alone).
   */
  lemma {:induction false} CoerceLandsOnNearestChannel(freqs: seq<real>, f: real, sampleRate: real)
    requires sampleRate != 0.0
    ensures |freqs| == 0 ==> CoerceShift(freqs, f, sampleRate) == 0.0
    ensures |freqs| > 0 ==>
      var c := f + CoerceShift(freqs, f, sampleRate) * sampleRate;
      && (exists i :: 0 <= i < |freqs| && freqs[i] == c)
      && (forall j :: 0 <= j < |freqs| ==> Abs(c - f) <= Abs(freqs[j] - f))
  {
    if |freqs| > 0 {
      var i := NearestIndex(freqs, f, |freqs|);
      assert (freqs[i] - f) / sampleRate * sampleRate == freqs[i] - f;
      assert freqs[i] == f + CoerceShift(freqs, f, sampleRate) * sampleRate;
    }
  }

  /**
   * The scan of `coerce_frequency`: the first channel is the initial
   * candidate and a later one replaces it only when strictly closer.
   */
  method NearestChannel(freqs: seq<real>, f: real) returns (channelFreq: real)
    requires |freqs| >= 1
    ensures channelFreq == freqs[NearestIndex(freqs, f, |freqs|)]
  {
    var dist := Abs(freqs[0] - f);
    channelFreq := freqs[0];
    ghost var best := 0;
    var i := 1;
    while i < |freqs|
      invariant 1 <= i <= |freqs|
      invariant best == NearestIndex(freqs, f, i)
      invariant channelFreq == freqs[best] && dist == Abs(channelFreq - f)
    {
      var tempDist := Abs(freqs[i] - f);
      if tempDist < dist {
        dist := tempDist;
        channelFreq := freqs[i];
        best := i;
      }
      i := i + 1;
    }
  }

  /** With one channel the shift always moves onto it, whatever the distance. */
  lemma {:induction false} CoerceSingleChannel(c: real, f: real, sampleRate: real)
    requires sampleRate != 0.0
    ensures CoerceShift([c], f, sampleRate) == (c - f) / sampleRate
  {
  }

  /** Channels 905, 915 and 925 MHz, estimate 918 MHz, 1 MHz sample rate: a shift of -3.0 onto 915 MHz. */
  lemma CoerceThreeChannels()
    ensures CoerceShift([905e6, 915e6, 925e6], 918e6, 1e6) == -3.0
  {
    var freqs := [905e6, 915e6, 925e6];
    assert NearestIndex(freqs, 918e6, 2) == 1;
  }

  // ---------------------------------------------------------------- in-band power

  /** Sum of the PSD bins whose axis value lies strictly between the two edges. */
  function InBandSum(psd: seq<real>, axis: seq<real>, startFreq: real, stopFreq: real): real
    requires |axis| == |psd|
  {
    if |psd| == 0 then 0.0
    else
      var n := |psd| - 1;
      InBandSum(psd[..n], axis[..n], startFreq, stopFreq)
        + (if startFreq < axis[n] && axis[n] < stopFreq then psd[n] else 0.0)
  }

  /** Widening the integration interval never decreases the in-band energy. */
  lemma {:induction false} InBandSumMonotone(psd: seq<real>, axis: seq<real>, lo: real, hi: real, lo': real, hi': real)
    requires |axis| == |psd| && NonNegative(psd)
    requires lo' <= lo && hi <= hi'
    ensures InBandSum(psd, axis, lo, hi) <= InBandSum(psd, axis, lo', hi')
  {
    if |psd| > 0 {
      var n := |psd| - 1;
      InBandSumMonotone(psd[..n], axis[..n], lo, hi, lo', hi');
    }
  }

  /** The in-band energy is between 0 and the total energy. */
  lemma {:induction false} InBandSumBounded(psd: seq<real>, axis: seq<real>, lo: real, hi: real)
    requires |axis| == |psd| && NonNegative(psd)
    ensures 0.0 <= InBandSum(psd, axis, lo, hi) <= Sum(psd)
  {
    if |psd| > 0 {
      var n := |psd| - 1;
      InBandSumBounded(psd[..n], axis[..n], lo, hi);
    }
  }

  /** The summation loop of `estimate_pwr` over `(cf - bw/2, cf + bw/2)`. */
  method InBandPower(mags2: seq<real>, freqAxis: seq<real>, centerFrequency: real, bandwidth: real)
    returns (signalPower: real)
    requires |freqAxis| == |mags2|
    ensures signalPower == InBandSum(mags2, freqAxis, centerFrequency - bandwidth / 2.0, centerFrequency + bandwidth / 2.0)
  {
    var startFreq := centerFrequency - bandwidth / 2.0;
    var stopFreq := centerFrequency + bandwidth / 2.0;
    signalPower := 0.0;
    var i := 0;
    while i < |mags2|
      invariant 0 <= i <= |mags2|
      invariant signalPower == InBandSum(mags2[..i], freqAxis[..i], startFreq, stopFreq)
    {
      assert mags2[..i + 1][..i] == mags2[..i];
      assert freqAxis[..i + 1][..i] == freqAxis[..i];
      if freqAxis[i] > startFreq && freqAxis[i] < stopFreq {
        signalPower := signalPower + mags2[i];
      }
      i := i + 1;
    }
    assert mags2[..i] == mags2 && freqAxis[..i] == freqAxis;
  }
}
