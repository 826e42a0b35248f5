/**
 * The per-size FFT plans, analysis windows and window gains that
 * `fft_setup` builds, one entry per exponent.
 */
module FftCache {

  /** A forward complex FFT plan (`gr::fft::fft_complex`), known here by its size. */
  datatype FftPlan = FftPlan(size: nat)

  /**
   * The analysis-window weight for index j of a window of length N. The
   * source fills it with the Gaussian exp(-x^2 / (2 (N/32)^2)), x = j - (N-1)/2;
   * the exponential is outside the model, so the weight is a parameter.
   */
  type Taper = (nat, nat) -> real

  function Window(taper: Taper, n: nat): (w: seq<real>)
    ensures |w| == n
  {
    seq(n, j requires 0 <= j < n => taper(n, j))
  }

  function SumSquares(w: seq<real>): real
  {
    if |w| == 0 then 0.0 else SumSquares(w[..|w| - 1]) + w[|w| - 1] * w[|w| - 1]
  }

  lemma {:induction false} SumSquaresNonNegative(w: seq<real>)
    ensures SumSquares(w) >= 0.0
  {
    if |w| > 0 {
      SumSquaresNonNegative(w[..|w| - 1]);
    }
  }

  /**
   * `fftsize * fftsize * gain_rms * gain_rms` with
   * `gain_rms = sqrt(sum w^2 / fftsize)`: over the reals the square undoes
   * the root, leaving N * N * (sum w^2 / N).
   */
  function Mag2Gain(w: seq<real>): real
    requires |w| >= 1
  {
    (|w| * |w|) as real * (SumSquares(w) / |w| as real)
  }

  /** The processing gain is the window's energy times its length, hence never negative. */
  lemma {:induction false} Mag2GainIsScaledEnergy(w: seq<real>)
    requires |w| >= 1
    ensures Mag2Gain(w) == |w| as real * SumSquares(w)
    ensures Mag2Gain(w) >= 0.0
  {
    var n := |w| as real;
    var e := SumSquares(w);
    SumSquaresNonNegative(w);
    assert (|w| * |w|) as real == n * n;
    assert n * n * (e / n) == n * (n * (e / n));
    assert n * (e / n) == e;
  }

  /** The window loop of `fft_setup`: fill the weights and accumulate their squares. */
  method FillWindow(taper: Taper, fftsize: nat) returns (window: seq<real>, energy: real)
    ensures window == Window(taper, fftsize)
    ensures energy == SumSquares(window)
  {
    window := [];
    energy := 0.0;
    var j := 0;
    while j < fftsize
      invariant 0 <= j <= fftsize
      invariant window == Window(taper, fftsize)[..j]
      invariant energy == SumSquares(window)
    {
      var weight := taper(fftsize, j);
      assert (window + [weight])[..j] == window;
      window := window + [weight];
      energy := energy + weight * weight;
      j := j + 1;
    }
  }

  /** A cache entry's window and its processing gain `fftsize^2 * gain_rms^2`. */
  method BuildWindow(taper: Taper, fftsize: nat) returns (window: seq<real>, gain: real)
    requires fftsize >= 1
    ensures window == Window(taper, fftsize)
    ensures gain == Mag2Gain(window) && gain == fftsize as real * SumSquares(window)
  {
    var gainRms;
    window, gainRms := FillWindow(taper, fftsize);
    gain := (fftsize * fftsize) as real * (gainRms / fftsize as real);
    Mag2GainIsScaledEnergy(window);
  }
}
