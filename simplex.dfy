/** Power shares of the three actors, clamping to an interval, and renormalisation
    onto the probability simplex. */
module Simplex {
  import opened Fractions

  /** The decision-making power of Individuals (a), Corporations (c) and the State (s). */
  datatype Shares = Shares(a: real, c: real, s: real)

  function Total(sh: Shares): real {
    sh.a + sh.c + sh.s
  }

  predicate InUnit(x: real) {
    0.0 <= x <= 1.0
  }

  /** Every share lies in [0,1]. */
  predicate SharesInUnit(sh: Shares) {
    InUnit(sh.a) && InUnit(sh.c) && InUnit(sh.s)
  }

  predicate NonNegative(sh: Shares) {
    sh.a >= 0.0 && sh.c >= 0.0 && sh.s >= 0.0
  }

  /** Non-negative shares that add up to exactly 1. */
  predicate OnSimplex(sh: Shares) {
    NonNegative(sh) && Total(sh) == 1.0
  }

  /** Distance between two reals on the line. */
  function Dist(x: real, y: real): real {
    if x < y then y - x else x - y
  }

  /** Clipping of a scalar to [lo, hi]: the point of the interval nearest to x. */
  function Clamp(x: real, lo: real, hi: real): (r: real)
    requires lo <= hi
    ensures lo <= r <= hi
    ensures lo <= x <= hi ==> r == x
    ensures forall y :: lo <= y <= hi ==> Dist(r, x) <= Dist(y, x)
  {
    if x < lo then lo else if x > hi then hi else x
  }

  /** Clipping three values with a positive sum to [0,1] each keeps the sum positive. */
  lemma ClampKeepsPositiveSum(x: real, y: real, z: real)
    requires x + y + z > 0.0
    ensures Clamp(x, 0.0, 1.0) + Clamp(y, 0.0, 1.0) + Clamp(z, 0.0, 1.0) > 0.0
  {
  }

  /** Renormalisation of the shares a, c, s: each is divided by their total when the
      total is positive; otherwise they are left as they are. */
  function Renormalise(a: real, c: real, s: real): Shares {
    var total := a + c + s;
    if total > 0.0 then Shares(a / total, c / total, s / total) else Shares(a, c, s)
  }

  /** With a positive total the renormalised shares add up to 1 and keep the proportions
      of a, c and s; otherwise nothing changes. Non-negative inputs end up on the simplex,
      or stay all zero. */
  lemma RenormaliseSpec(a: real, c: real, s: real)
    ensures a + c + s > 0.0 ==> Total(Renormalise(a, c, s)) == 1.0
    ensures a + c + s > 0.0 ==>
      Renormalise(a, c, s).a * (a + c + s) == a
      && Renormalise(a, c, s).c * (a + c + s) == c
      && Renormalise(a, c, s).s * (a + c + s) == s
    ensures !(a + c + s > 0.0) ==> Renormalise(a, c, s) == Shares(a, c, s)
    ensures NonNegative(Shares(a, c, s)) ==>
      SharesInUnit(Renormalise(a, c, s))
      && (OnSimplex(Renormalise(a, c, s)) || Renormalise(a, c, s) == Shares(0.0, 0.0, 0.0))
  {
    var total := a + c + s;
    if total > 0.0 {
      Proportions(a, c, s, total);
    }
  }
}
