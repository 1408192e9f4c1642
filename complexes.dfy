/** Complex numbers over the reals, as far as the sinusoid's fields need them:
    products (numpy's `*` on complex arrays), scaling by a real, and the squared
    modulus. */
module Complexes {

  datatype Complex = Complex(re: real, im: real)

  /** The complex product a * b. */
  function Mul(a: Complex, b: Complex): Complex {
    Complex(a.re * b.re - a.im * b.im, a.re * b.im + a.im * b.re)
  }

  /** The product of a real k and a complex a. */
  function Scale(k: real, a: Complex): Complex {
    Complex(k * a.re, k * a.im)
  }

  /** |a|^2, the squared modulus. */
  function NormSq(a: Complex): real {
    a.re * a.re + a.im * a.im
  }

  lemma MulScaleLeft(k: real, a: Complex, b: Complex)
    ensures Mul(Scale(k, a), b) == Scale(k, Mul(a, b))
  {
    assert (k * a.re) * b.re - (k * a.im) * b.im == k * (a.re * b.re - a.im * b.im);
    assert (k * a.re) * b.im + (k * a.im) * b.re == k * (a.re * b.im + a.im * b.re);
  }

  lemma NormSqScale(k: real, a: Complex)
    ensures NormSq(Scale(k, a)) == k * k * NormSq(a)
  {
    assert (k * a.re) * (k * a.re) == k * k * (a.re * a.re);
    assert (k * a.im) * (k * a.im) == k * k * (a.im * a.im);
  }

  /** The modulus is multiplicative (Lagrange's identity for two squares). */
  lemma NormSqMul(a: Complex, b: Complex)
    ensures NormSq(Mul(a, b)) == NormSq(a) * NormSq(b)
  {
    var x, y, u, v := a.re, a.im, b.re, b.im;
    assert (x * u - y * v) * (x * u - y * v) == x * x * u * u - 2.0 * x * u * y * v + y * y * v * v;
    assert (x * v + y * u) * (x * v + y * u) == x * x * v * v + 2.0 * x * u * y * v + y * y * u * u;
    assert (x * x + y * y) * (u * u + v * v) == x * x * u * u + x * x * v * v + y * y * u * u + y * y * v * v;
  }
}
