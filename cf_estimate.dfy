/**
 * The `cf_estimate` block: its FFT cache, its configuration (method and
 * channel list) and the burst handler that ties the estimators together.
 */
module CfEstimate {
  import opened ComplexSamples
  import opened SegmentPlan
  import opened Psd
  import opened CenterFrequency
  import opened BurstCorrection
  import opened FftCache

  /** The centre-frequency method tag; the block stores it as a plain integer. */
  datatype CfMethod = Rms | HalfPower | Coerce

  /** `pdu_handler` tests 0 (RMS) and 1 (HALF_POWER); every other value skips estimation like COERCE (2). */
  function MethodOf(m: int): (tag: CfMethod)
    ensures tag == Rms <==> m == 0
    ensures tag == HalfPower <==> m == 1
  {
    if m == 0 then Rms else if m == 1 then HalfPower else Coerce
  }

  /** What the handler publishes: the corrected burst, or NaN metadata when the RMS estimate divides 0 by 0. */
  datatype BurstOutcome = Corrected(meta: Metadata, samples: seq<Complex>) | NotANumber

  /** The primary estimate of each method; `None` is the NaN of a zero-energy RMS estimate. */
  function PrimaryShift(m: CfMethod, psd: seq<real>, axis: seq<real>, centerFrequency: real, sampleRate: real): Option<real>
    requires |psd| >= 1 && |axis| == |psd| && sampleRate != 0.0
  {
    match m
    case Rms => RmsShift(psd, axis, centerFrequency, sampleRate)
    case HalfPower => Some(HalfPowerShift(psd))
    case Coerce => Some(0.0)
  }

  /** The frequency a fractional shift moves the centre frequency to. */
  function ShiftedFrequency(centerFrequency: real, shift: real, sampleRate: real): real
  {
    centerFrequency + shift * sampleRate
  }

  /** The primary shift plus the coercion shift computed at the frequency the primary shift moves to. */
  function CombinedShift(primary: real, channels: seq<real>, centerFrequency: real, sampleRate: real): real
    requires sampleRate != 0.0
  {
    primary + CoerceShift(channels, ShiftedFrequency(centerFrequency, primary, sampleRate), sampleRate)
  }

  /**
   * On a non-negative PSD and the handler's axis with a positive sample
   * rate, every primary estimate lies in [-0.5, 0.5); only the RMS method
   * on a zero-energy PSD has none.
   */
  lemma {:induction false} PrimaryShiftInRange(m: CfMethod, psd: seq<real>, centerFrequency: real, sampleRate: real)
    requires |psd| >= 1 && NonNegative(psd) && sampleRate > 0.0
    ensures var p := PrimaryShift(m, psd, FrequencyAxis(centerFrequency, sampleRate, |psd|), centerFrequency, sampleRate);
      && (p.None? <==> m == Rms && Sum(psd) == 0.0)
      && (p.Some? ==> -0.5 <= p.value < 0.5)
  {
    var axis := FrequencyAxis(centerFrequency, sampleRate, |psd|);
    match m
    case Rms =>
      if Sum(psd) != 0.0 {
        RmsShiftInRange(psd, centerFrequency, sampleRate);
      }
    case HalfPower =>
      HalfPowerIndexIsFirst(psd);
      IndexFraction(HalfPowerIndex(psd), |psd|);
    case Coerce =>
  }

  /**
   * The outcome for a final shift: the burst rotated by `cis(shift)` per
   * sample and the metadata retuned by the shift times the sample rate,
   * with the relative frequency always written back (`Retuned`, not the
   * source's `RetunedAsWritten`).
   */
  function Correction(data: seq<Complex>, meta: Metadata, shift: real, cis: real -> Complex): BurstOutcome
  {
    Corrected(Retuned(meta, shift * meta.sampleRate), Rotated(data, cis(shift)))
  }

  /** The rotation of the samples and the metadata update for a final shift. */
  method Correct(data: seq<Complex>, meta: Metadata, shift: real, cis: real -> Complex)
    returns (outcome: BurstOutcome)
    ensures outcome == Correction(data, meta, shift, cis)
  {
    var corrected := RotateN(data, cis(shift));
    var cfCorrectionHz := shift * meta.sampleRate;
    outcome := Corrected(Retuned(meta, cfCorrectionHz), corrected);
    assert Retuned(meta, cfCorrectionHz) == Retuned(meta, shift * meta.sampleRate);
    assert Correction(data, meta, shift, cis).meta == Retuned(meta, shift * meta.sampleRate);
  }

  /**
   * The outcome's metadata is what the source publishes except when a
   * non-zero relative frequency is moved exactly onto 0.
   */
  lemma {:induction false} CorrectionPublishesAsWritten(data: seq<Complex>, meta: Metadata, shift: real, cis: real -> Complex)
    ensures var correctionHz := shift * meta.sampleRate;
      Correction(data, meta, shift, cis).meta == RetunedAsWritten(meta, correctionHz) <==>
        !(meta.relativeFrequency != 0.0 && meta.relativeFrequency + correctionHz == 0.0)
  {
    AsWrittenDiffersOnlyAtZero(meta, shift * meta.sampleRate);
  }

  /** A final shift of 0 leaves both the samples and the metadata as they came in. */
  lemma {:induction false} ZeroShiftKeepsBurst(data: seq<Complex>, meta: Metadata, cis: real -> Complex)
    requires cis(0.0) == One
    ensures Correction(data, meta, 0.0, cis) == Corrected(meta, data)
  {
    RotateByOneIsIdentity(data);
    RetunedRoundTrip(meta, 0.0);
  }

  /** In COERCE mode the whole correction is the coercion shift at the declared centre frequency. */
  lemma {:induction false} CoerceModeShift(channels: seq<real>, centerFrequency: real, sampleRate: real)
    requires sampleRate != 0.0
    ensures CombinedShift(0.0, channels, centerFrequency, sampleRate) == CoerceShift(channels, centerFrequency, sampleRate)
  {
    assert centerFrequency + 0.0 * sampleRate == centerFrequency;
  }

  /** With an empty channel list the correction is the primary shift alone. */
  lemma {:induction false} NoChannelsKeepPrimary(primary: real, centerFrequency: real, sampleRate: real)
    requires sampleRate != 0.0
    ensures CombinedShift(primary, [], centerFrequency, sampleRate) == primary
  {
  }

  lemma {:induction false} ShiftAdds(centerFrequency: real, a: real, b: real, sampleRate: real)
    ensures ShiftedFrequency(centerFrequency, a + b, sampleRate) == ShiftedFrequency(centerFrequency, a, sampleRate) + b * sampleRate
  {
    Distribute(sampleRate, a, b);
  }

  /**
   * With a non-empty channel list the corrected frequency is a listed
   * channel, one nearest to the frequency the primary shift moved to.
   */
  lemma {:induction false} CombinedShiftLandsOnChannel(primary: real, channels: seq<real>, centerFrequency: real, sampleRate: real)
    requires sampleRate != 0.0 && |channels| > 0
    ensures var estimate := ShiftedFrequency(centerFrequency, primary, sampleRate);
      var corrected := ShiftedFrequency(centerFrequency, CombinedShift(primary, channels, centerFrequency, sampleRate), sampleRate);
      && (exists i :: 0 <= i < |channels| && channels[i] == corrected)
      && (forall j :: 0 <= j < |channels| ==> Abs(corrected - estimate) <= Abs(channels[j] - estimate))
  {
    var estimate := ShiftedFrequency(centerFrequency, primary, sampleRate);
    var c := CoerceShift(channels, estimate, sampleRate);
    CoerceLandsOnNearestChannel(channels, estimate, sampleRate);
    ShiftAdds(centerFrequency, primary, c, sampleRate);
  }

  class CfEstimator {
    var ffts: seq<FftPlan>
    var windows: seq<seq<real>>
    var fftMag2Gains: seq<real>
    var cfMethod: int
    var channelFreqs: seq<real>
    const taper: Taper

    /** The three parallel cache vectors hold, at index i, the entries for size 2^i. */
    ghost predicate CacheEntries()
      reads this
    {
      && |ffts| == |windows| == |fftMag2Gains|
      && forall i :: 0 <= i < |ffts| ==>
           && ffts[i] == FftPlan(Pow2(i))
           && windows[i] == Window(taper, Pow2(i))
           && fftMag2Gains[i] == Mag2Gain(windows[i])
    }

    /** After construction the cache covers every exponent up to MAX_FFT_POWER. */
    ghost predicate Valid()
      reads this
    {
      CacheEntries() && |ffts| > MAX_FFT_POWER
    }

    /** What the burst handler needs of the cache: a window of length 2^p for every exponent p it can plan. */
    ghost predicate WindowsReady()
      reads this
    {
      && |windows| > MAX_FFT_POWER
      && forall i :: 0 <= i < |windows| ==> windows[i] == Window(taper, Pow2(i))
    }

    lemma ValidWindowsReady()
      requires Valid()
      ensures WindowsReady()
    {
    }

    constructor (cfMethod: int, channelFreqs: seq<real>, taper: Taper)
      ensures Valid() && |ffts| == MAX_FFT_POWER + 1
      ensures this.cfMethod == cfMethod && this.channelFreqs == channelFreqs && this.taper == taper
    {
      this.cfMethod := cfMethod;
      this.channelFreqs := channelFreqs;
      this.taper := taper;
      ffts, windows, fftMag2Gains := [], [], [];
      new;
      FftSetup(MAX_FFT_POWER);
    }

    /** Adds the entries for every exponent from the current cache size up to `power`. */
    method FftSetup(power: int)
      requires CacheEntries()
      modifies this`ffts, this`windows, this`fftMag2Gains
      ensures CacheEntries()
      ensures |ffts| == if power < old(|ffts|) then old(|ffts|) else power + 1
      ensures ffts[..old(|ffts|)] == old(ffts) && windows[..old(|ffts|)] == old(windows)
      ensures fftMag2Gains[..old(|ffts|)] == old(fftMag2Gains)
      ensures power < old(|ffts|) ==>
        ffts == old(ffts) && windows == old(windows) && fftMag2Gains == old(fftMag2Gains)
    {
      var i := |ffts|;
      while i <= power
        invariant CacheEntries()
        invariant old(|ffts|) <= i == |ffts|
        invariant i <= if power < old(|ffts|) then old(|ffts|) else power + 1
        invariant ffts[..old(|ffts|)] == old(ffts) && windows[..old(|ffts|)] == old(windows)
        invariant fftMag2Gains[..old(|ffts|)] == old(fftMag2Gains)
        invariant i == old(|ffts|) ==>
          ffts == old(ffts) && windows == old(windows) && fftMag2Gains == old(fftMag2Gains)
      {
        var fftsize := Pow2(i);
        ffts := ffts + [FftPlan(fftsize)];
        var window, gain := BuildWindow(taper, fftsize);
        windows := windows + [window];
        fftMag2Gains := fftMag2Gains + [gain];
        i := i + 1;
      }
    }

    /** The destructor's release: plans and windows are dropped; the gain vector is not cleared. */
    method FftCleanup()
      modifies this`ffts, this`windows
      ensures ffts == [] && windows == []
    {
      ffts := [];
      windows := [];
    }

    method SetFreqs(channelFreqs: seq<real>)
      modifies this`channelFreqs
      ensures this.channelFreqs == channelFreqs
    {
      this.channelFreqs := channelFreqs;
    }

    method SetMethod(cfMethod: int)
      modifies this`cfMethod
      ensures this.cfMethod == cfMethod
    {
      this.cfMethod := cfMethod;
    }

    /** `coerce_frequency`: 0 without channels, else the fractional distance to the nearest channel. */
    method CoerceFrequency(centerFrequency: real, sampleRate: real) returns (shift: real)
      requires sampleRate != 0.0
      ensures shift == CoerceShift(channelFreqs, centerFrequency, sampleRate)
    {
      if |channelFreqs| == 0 {
        return 0.0;
      }
      var channelFreq := NearestChannel(channelFreqs, centerFrequency);
      shift := (channelFreq - centerFrequency) / sampleRate;
    }

    /** The primary shift by method: `rms`, `half_power`, or none in COERCE mode. */
    method EstimateShift(psd: seq<real>, axis: seq<real>, centerFrequency: real, sampleRate: real)
      returns (primary: Option<real>)
      requires |psd| >= 1 && |axis| == |psd| && NonNegative(psd) && sampleRate != 0.0
      ensures primary == PrimaryShift(MethodOf(cfMethod), psd, axis, centerFrequency, sampleRate)
    {
      var m := MethodOf(cfMethod);
      if m == Rms {
        primary := CenterFrequency.Rms(psd, axis, centerFrequency, sampleRate);
      } else if m == HalfPower {
        var shift := CenterFrequency.HalfPower(psd);
        primary := Some(shift);
      } else {
        primary := Some(0.0);
      }
    }

    /**
     * The primary estimate of the configured method on the burst's PSD
     * (the cached window of the planned size) and the handler's axis.
     */
    ghost function PrimaryOf(data: seq<Complex>, meta: Metadata, spectrum: Spectrum): Option<real>
      reads this
      requires WindowsReady()
      requires |data| >= MIN_NFFTS && meta.sampleRate != 0.0
      requires WellFormed(spectrum)
    {
      var plan := PlanSegments(|data|);
      PrimaryShift(MethodOf(cfMethod),
                   BurstPsd(data, windows[plan.fftpower], spectrum),
                   FrequencyAxis(meta.centerFrequency, meta.sampleRate, plan.fftsize),
                   meta.centerFrequency, meta.sampleRate)
    }

    /** The PSD, the frequency axis and the primary estimate for a burst and its metadata. */
    method Analyse(data: seq<Complex>, meta: Metadata, spectrum: Spectrum) returns (primary: Option<real>)
      requires WindowsReady()
      requires |data| >= MIN_NFFTS && meta.sampleRate != 0.0
      requires WellFormed(spectrum)
      ensures primary == PrimaryOf(data, meta, spectrum)
    {
      var plan := PlanSegments(|data|);
      var window := windows[plan.fftpower];
      var psd := EstimatePsd(data, window, spectrum);
      var axis := BuildFrequencyAxis(meta.centerFrequency, meta.sampleRate, plan.fftsize);
      primary := EstimateShift(psd, axis, meta.centerFrequency, meta.sampleRate);
    }

    /**
     * Coercion of the primary estimate onto the channel list, then the
     * rotation and the metadata update for the combined shift.
     */
    method Retune(data: seq<Complex>, meta: Metadata, primary: real, cis: real -> Complex)
      returns (outcome: BurstOutcome)
      requires meta.sampleRate != 0.0
      ensures outcome == Correction(data, meta, CombinedShift(primary, channelFreqs, meta.centerFrequency, meta.sampleRate), cis)
    {
      var estimate := ShiftedFrequency(meta.centerFrequency, primary, meta.sampleRate);
      var coercion := CoerceFrequency(estimate, meta.sampleRate);
      var shift := primary + coercion;
      outcome := Correct(data, meta, shift, cis);
    }

    /**
     * The estimation and correction path of `pdu_handler` for a well-formed
     * message: PSD, frequency axis, primary shift by method, coercion,
     * rotation of the burst and the metadata update.
     */
    method ProcessBurst(data: seq<Complex>, meta: Metadata, spectrum: Spectrum, cis: real -> Complex)
      returns (outcome: BurstOutcome)
      requires WindowsReady()
      requires |data| >= MIN_NFFTS && meta.sampleRate != 0.0
      requires WellFormed(spectrum)
      ensures var primary := PrimaryOf(data, meta, spectrum);
        && (primary.None? ==> outcome == NotANumber)
        && (primary.Some? ==>
              var shift := CombinedShift(primary.value, channelFreqs, meta.centerFrequency, meta.sampleRate);
              outcome == Correction(data, meta, shift, cis))
    {
      var primary := Analyse(data, meta, spectrum);
      if primary.None? {
        return NotANumber;
      }
      outcome := Retune(data, meta, primary.value, cis);
    }
  }
}
