/** Complex baseband samples (gr_complex) over the reals. */
module ComplexSamples {

  datatype Complex = Complex(re: real, im: real)

  const One: Complex := Complex(1.0, 0.0)

  /** Complex product. */
  function Mul(a: Complex, b: Complex): Complex
  {
    Complex(a.re * b.re - a.im * b.im, a.re * b.im + a.im * b.re)
  }

  /** A complex sample multiplied by a real window weight. */
  function Scale(a: Complex, w: real): Complex
  {
    Complex(a.re * w, a.im * w)
  }

  /** `incr` multiplied into `One` n times: the rotator's phase before sample n. */
  function Power(incr: Complex, n: nat): Complex
  {
    if n == 0 then One else Mul(Power(incr, n - 1), incr)
  }

  lemma {:induction false} MulOne(a: Complex)
    ensures Mul(a, One) == a
  {
  }

  /** A unit increment keeps the phase at 1 for every sample. */
  lemma {:induction false} PowerOfOne(n: nat)
    ensures Power(One, n) == One
  {
    var k := 0;
    while k < n
      invariant k <= n && Power(One, k) == One
    {
      MulOne(Power(One, k));
      k := k + 1;
    }
  }
}
