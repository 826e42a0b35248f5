/**
 * How `pdu_handler` cuts a burst into equal FFT segments: the FFT exponent,
 * the FFT size, the number of segments and the centring offset.
 */
module SegmentPlan {

  const MAX_FFT_POWER: nat := 8
  const MIN_NFFTS: nat := 4

  function Pow2(p: nat): (r: nat)
    ensures r >= 1
  {
    if p == 0 then 1 else 2 * Pow2(p - 1)
  }

  lemma {:induction false} Pow2Monotone(p: nat, q: nat)
    requires p <= q
    ensures Pow2(p) <= Pow2(q)
  {
    if p < q {
      Pow2Monotone(p, q - 1);
    }
  }

  /** floor(log2(n)): the unique exponent whose power of two brackets n. */
  function FloorLog2(n: nat): (p: nat)
    requires n >= 1
    ensures Pow2(p) <= n < 2 * Pow2(p)
  {
    if n == 1 then 0 else 1 + FloorLog2(n / 2)
  }

  /** Only one exponent brackets n, so any exponent that does is floor(log2(n)). */
  lemma {:induction false} FloorLog2Unique(n: nat, p: nat)
    requires n >= 1 && Pow2(p) <= n < 2 * Pow2(p)
    ensures FloorLog2(n) == p
  {
    var q := FloorLog2(n);
    assert Pow2(q + 1) == 2 * Pow2(q) && Pow2(p + 1) == 2 * Pow2(p);
    if q < p {
      Pow2Monotone(q + 1, p);
    } else if p < q {
      Pow2Monotone(p + 1, q);
    }
  }

  /**
   * `fftpower = floor(log2(burst_size / MIN_NFFTS))`, clamped to MAX_FFT_POWER.
   * For a power of two 2^p, 2^p <= burst_size / 4 (as a real) exactly when
   * 2^p <= burst_size div 4, so the integer floor-log2 of burst_size div 4
   * is the same exponent.
   */
  function FftPower(burstSize: nat): (p: nat)
    requires burstSize >= MIN_NFFTS
    ensures p <= MAX_FFT_POWER
    ensures MIN_NFFTS * Pow2(p) <= burstSize
    ensures p == MAX_FFT_POWER || burstSize < 2 * MIN_NFFTS * Pow2(p)
  {
    var raw := FloorLog2(burstSize / MIN_NFFTS);
    if raw > MAX_FFT_POWER then
      Pow2Monotone(MAX_FFT_POWER, raw);
      MAX_FFT_POWER
    else
      raw
  }

  /** No exponent up to the clamp that still fits four segments is larger. */
  lemma {:induction false} FftPowerIsMaximal(burstSize: nat, q: nat)
    requires burstSize >= MIN_NFFTS
    requires q <= MAX_FFT_POWER && MIN_NFFTS * Pow2(q) <= burstSize
    ensures q <= FftPower(burstSize)
  {
    var p := FftPower(burstSize);
    if q > p {
      Pow2Monotone(p + 1, q);
    }
  }

  datatype Plan = Plan(fftpower: nat, fftsize: nat, nffts: nat, copySize: nat, offset: nat)

  lemma {:induction false} DivBracket(a: nat, b: nat)
    requires b >= 1
    ensures b * (a / b) <= a < b * (a / b) + b
  {
  }

  /** Whole segments of `fftsize` that fit: at least MIN_NFFTS, leaving less than one segment over. */
  lemma {:induction false} SegmentCount(burstSize: nat, fftsize: nat)
    requires fftsize >= 1 && MIN_NFFTS * fftsize <= burstSize
    ensures burstSize / fftsize >= MIN_NFFTS
    ensures (burstSize / fftsize) * fftsize <= burstSize < (burstSize / fftsize) * fftsize + fftsize
  {
    var nffts := burstSize / fftsize;
    DivBracket(burstSize, fftsize);
    assert fftsize * MIN_NFFTS < fftsize * (nffts + 1);
    MulCancel(fftsize, MIN_NFFTS, nffts + 1);
  }

  /**
   * The segment plan for a burst of `burstSize` samples. The offset is
   * `(burst_size - copy_size) / 2` on unsigned integers; since
   * copy_size <= burst_size and the difference is below fftsize <= 256,
   * neither the `max` with 0 nor the uint32_t narrowing changes it.
   */
  function PlanSegments(burstSize: nat): (plan: Plan)
    requires burstSize >= MIN_NFFTS
    ensures plan.fftpower == FftPower(burstSize) && plan.fftsize == Pow2(plan.fftpower)
    ensures plan.nffts >= MIN_NFFTS
    ensures plan.copySize == plan.nffts * plan.fftsize
    ensures plan.copySize <= burstSize < plan.copySize + plan.fftsize
    ensures 2 * plan.offset <= burstSize - plan.copySize <= 2 * plan.offset + 1
  {
    var p := FftPower(burstSize);
    var fftsize := Pow2(p);
    var nffts := burstSize / fftsize;
    SegmentCount(burstSize, fftsize);
    var copySize := nffts * fftsize;
    Plan(p, fftsize, nffts, copySize, (burstSize - copySize) / 2)
  }

  /** Segment `ii` of the plan, `fftsize` samples from `offset + ii*fftsize`, lies inside the burst. */
  lemma {:induction false} SegmentInBounds(burstSize: nat, ii: nat)
    requires burstSize >= MIN_NFFTS
    requires ii < PlanSegments(burstSize).nffts
    ensures var plan := PlanSegments(burstSize);
      0 <= ii * plan.fftsize && plan.offset + ii * plan.fftsize + plan.fftsize <= burstSize
  {
    var plan := PlanSegments(burstSize);
    SegmentFits(plan.offset, ii, plan.nffts, plan.fftsize, burstSize);
  }

  lemma {:induction false} SegmentFits(offset: nat, ii: nat, nffts: nat, fftsize: nat, burstSize: nat)
    requires ii < nffts && offset + nffts * fftsize <= burstSize
    ensures 0 <= ii * fftsize && offset + ii * fftsize + fftsize <= burstSize
  {
    MulMonotone(ii + 1, nffts, fftsize);
    MulSucc(ii, fftsize);
    MulMonotone(0, ii, fftsize);
  }

  lemma {:induction false} MulSucc(a: nat, b: nat)
    ensures (a + 1) * b == a * b + b
  {
  }

  lemma {:induction false} MulCancel(c: nat, a: nat, b: nat)
    requires c * a < c * b
    ensures a < b
  {
  }

  lemma {:induction false} MulMonotone(a: nat, b: nat, c: nat)
    requires a <= b
    ensures a * c <= b * c
  {
  }

  /** A 1024-sample burst: exponent 8, four 256-point segments, no offset. */
  lemma PlanFor1024()
    ensures PlanSegments(1024) == Plan(8, 256, 4, 1024, 0)
  {
    assert Pow2(8) == 256;
    FloorLog2Unique(256, 8);
  }
}
