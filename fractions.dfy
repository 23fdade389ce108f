/** Facts about division by a non-zero real used when shares are renormalised. */
module Fractions {

  /** Dividing by a non-zero t and multiplying back gives x again. */
  lemma DivMul(x: real, t: real)
    requires t != 0.0
    ensures (x / t) * t == x
  {
  }

  /** Three parts divided by their non-zero sum add up to 1. */
  lemma DivSum(x: real, y: real, z: real, t: real)
    requires t != 0.0 && t == x + y + z
    ensures x / t + y / t + z / t == 1.0
  {
  }

  /** 0 <= x <= t with t > 0 gives 0 <= x / t <= 1. */
  lemma DivideInUnit(x: real, t: real)
    requires 0.0 <= x <= t && t > 0.0
    ensures 0.0 <= x / t <= 1.0
  {
    DivMul(x, t);
  }

  /** Three parts divided by their positive sum: the quotients add up to 1, each one
      times the sum gives its part back, and non-negative parts give quotients in [0,1]. */
  lemma Proportions(x: real, y: real, z: real, t: real)
    requires t == x + y + z && t > 0.0
    ensures x / t + y / t + z / t == 1.0
    ensures (x / t) * t == x && (y / t) * t == y && (z / t) * t == z
    ensures x >= 0.0 && y >= 0.0 && z >= 0.0 ==>
      0.0 <= x / t <= 1.0 && 0.0 <= y / t <= 1.0 && 0.0 <= z / t <= 1.0
  {
    DivSum(x, y, z, t);
    DivMul(x, t);
    DivMul(y, t);
    DivMul(z, t);
    if x >= 0.0 && y >= 0.0 && z >= 0.0 {
      DivideInUnit(x, t);
      DivideInUnit(y, t);
      DivideInUnit(z, t);
    }
  }
}
