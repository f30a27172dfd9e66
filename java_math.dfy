/** The java.lang.Math functions the library calls, which the model takes as parameters. */
module JavaMath {

  /** Stand-in for Math.pow(base, exponent). */
  type Power = (real, real) -> real
}
