/**
 * The correction step of `pdu_handler`: a per-sample phase rotation of the
 * burst by the combined shift, and the update of the frequency metadata.
 */
module BurstCorrection {
  import opened ComplexSamples

  /**
   * The burst metadata this core reads and writes. An absent
   * `relative_frequency` reads as 0, which the model uses for both.
   */
  datatype Metadata = Metadata(centerFrequency: real, sampleRate: real, relativeFrequency: real)

  /** Sample n times the phase after n increments, the phase starting at 1. */
  function Rotated(data: seq<Complex>, incr: Complex): (out: seq<Complex>)
    ensures |out| == |data|
  {
    seq(|data|, n requires 0 <= n < |data| => Mul(data[n], Power(incr, n)))
  }

  /**
   * The rotator's `rotateN` after `set_phase(1)`: multiply each sample by
   * the current phase, then advance the phase by the increment.
   */
  method RotateN(data: seq<Complex>, incr: Complex) returns (out: seq<Complex>)
    ensures out == Rotated(data, incr)
    ensures |out| == |data|
  {
    var phase := One;
    out := [];
    var n := 0;
    while n < |data|
      invariant 0 <= n <= |data|
      invariant phase == Power(incr, n)
      invariant out == Rotated(data, incr)[..n]
    {
      out := out + [Mul(data[n], phase)];
      phase := Mul(phase, incr);
      n := n + 1;
    }
  }

  /** A unit increment (a zero shift) leaves every sample as it was. */
  lemma {:induction false} RotateByOneIsIdentity(data: seq<Complex>)
    ensures Rotated(data, One) == data
  {
    forall n | 0 <= n < |data| ensures Rotated(data, One)[n] == data[n] {
      PowerOfOne(n);
      MulOne(data[n]);
    }
  }

  /**
   * The metadata update as the source writes it: the correction in Hz
   * (`cf_correction_hz`, the shift times the sample rate) is added to
   * `center_frequency` and, when it was non-zero, to `relative_frequency`;
   * but the new relative frequency is written back only when it is
   * non-zero, so one that lands exactly on 0 leaves the incoming value in
   * place.
   */
  function RetunedAsWritten(meta: Metadata, correctionHz: real): Metadata
  {
    var relative := if meta.relativeFrequency != 0.0 then meta.relativeFrequency + correctionHz
                    else meta.relativeFrequency;
    meta.(centerFrequency := meta.centerFrequency + correctionHz,
          relativeFrequency := if relative != 0.0 then relative else meta.relativeFrequency)
  }

  /**
   * A relative frequency of 1000 Hz corrected by -1000 Hz: the centre
   * frequency moves, the published relative frequency stays 1000 Hz, and
   * the two no longer differ by what they differed by before.
   */
  lemma StaleRelativeFrequency()
    ensures var meta := Metadata(915e6, 1e6, 1000.0);
      && RetunedAsWritten(meta, -1000.0).centerFrequency == 915e6 - 1000.0
      && RetunedAsWritten(meta, -1000.0).relativeFrequency == 1000.0
      && RetunedAsWritten(meta, -1000.0).centerFrequency - RetunedAsWritten(meta, -1000.0).relativeFrequency
         != meta.centerFrequency - meta.relativeFrequency
  {
  }

  /** The metadata update with the relative frequency always written back once it was non-zero. */
  function Retuned(meta: Metadata, correctionHz: real): Metadata
  {
    meta.(centerFrequency := meta.centerFrequency + correctionHz,
          relativeFrequency := if meta.relativeFrequency != 0.0 then meta.relativeFrequency + correctionHz
                               else meta.relativeFrequency)
  }

  /**
   * The centre frequency moves by the correction, a non-zero relative
   * frequency moves with it (their difference is kept, even when the
   * relative frequency reaches 0), and a zero one stays zero.
   */
  lemma {:induction false} RetunedMovesTogether(meta: Metadata, correctionHz: real)
    ensures var r := Retuned(meta, correctionHz);
      && r.sampleRate == meta.sampleRate
      && r.centerFrequency - meta.centerFrequency == correctionHz
      && (meta.relativeFrequency != 0.0 ==>
            r.centerFrequency - r.relativeFrequency == meta.centerFrequency - meta.relativeFrequency)
      && (meta.relativeFrequency == 0.0 ==> r.relativeFrequency == 0.0)
  {
  }

  /**
   * The published metadata of the source and of the corrected rule differ
   * exactly when a non-zero relative frequency is moved onto 0.
   */
  lemma {:induction false} AsWrittenDiffersOnlyAtZero(meta: Metadata, correctionHz: real)
    ensures RetunedAsWritten(meta, correctionHz) != Retuned(meta, correctionHz) <==>
      meta.relativeFrequency != 0.0 && meta.relativeFrequency + correctionHz == 0.0
  {
  }

  /** A zero correction leaves the metadata unchanged, and a correction followed by its opposite restores it. */
  lemma {:induction false} RetunedRoundTrip(meta: Metadata, correctionHz: real)
    ensures Retuned(meta, 0.0) == meta
    ensures meta.relativeFrequency == 0.0 || Retuned(meta, correctionHz).relativeFrequency != 0.0 ==>
      Retuned(Retuned(meta, correctionHz), -correctionHz) == meta
  {
  }
}
