/** One step of the power-share dynamics: zero-sum power transfers driven by the four
    policy dials, per-share clipping, renormalisation, and the drift of PET adoption. */
module Dynamics {
  import opened Simplex

  /** The dials held constant for one run: the dynamics speed (step) and the four
      dial-up factors. */
  datatype Params = Params(
    step: real,
    regStrength: real,
    secPressure: real,
    innovation: real,
    petEfficiency: real)

  /** The state rebound on every pass: the three power shares and PET adoption. */
  datatype State = State(shares: Shares, pet: real)

  /** Transfer towards Corporations at PET adoption `pet`. */
  function DeltaCorporate(prm: Params, pet: real): real {
    (prm.innovation * (1.0 - pet * prm.petEfficiency)
      - prm.regStrength * 0.4
      - prm.secPressure * 0.3) * prm.step
  }

  /** Transfer towards the State at PET adoption `pet`. */
  function DeltaState(prm: Params, pet: real): real {
    (prm.secPressure * 0.6
      + prm.regStrength * 0.4
      - pet * 0.1) * prm.step
  }

  /** The three transfers of one step; Individuals receive what the other two do not. */
  function ShareDeltas(prm: Params, pet: real): (d: Shares)
    ensures d.c == DeltaCorporate(prm, pet) && d.s == DeltaState(prm, pet)
    ensures Total(d) == 0.0
  {
    var dC := DeltaCorporate(prm, pet);
    var dS := DeltaState(prm, pet);
    Shares(-dC - dS, dC, dS)
  }

  /** Drift of PET adoption given the shares of Individuals (a) and Corporations (c). */
  function DeltaPet(prm: Params, a: real, c: real): real {
    (prm.regStrength * 0.5
      + a * 0.3
      - prm.innovation * 0.2
      - prm.secPressure * 0.2
      - c * 0.3) * prm.step
  }

  /** The shares after the transfers of one step and the clipping of each share to [0,1],
      before renormalisation. */
  function Clamped(prm: Params, st: State): (r: Shares)
    ensures SharesInUnit(r)
  {
    var d := ShareDeltas(prm, st.pet);
    Shares(Clamp(st.shares.a + d.a, 0.0, 1.0),
           Clamp(st.shares.c + d.c, 0.0, 1.0),
           Clamp(st.shares.s + d.s, 0.0, 1.0))
  }

  /** One update of the state: transfer, clip, renormalise, then drift PET adoption using
      the renormalised shares. */
  function Step(prm: Params, st: State): State {
    var k := Clamped(prm, st);
    var shares := Renormalise(k.a, k.c, k.s);
    State(shares, Clamp(st.pet + DeltaPet(prm, shares.a, shares.c), 0.0, 1.0))
  }

  /** Whatever the state it starts from, a step leaves every share and PET adoption in
      [0,1], and the shares either on the simplex or all zero. */
  lemma StepInUnit(prm: Params, st: State)
    ensures SharesInUnit(Step(prm, st).shares) && InUnit(Step(prm, st).pet)
    ensures OnSimplex(Step(prm, st).shares) || Step(prm, st).shares == Shares(0.0, 0.0, 0.0)
  {
    var k := Clamped(prm, st);
    RenormaliseSpec(k.a, k.c, k.s);
  }

  /** The transfers are zero-sum, so shares with a positive total keep a positive total
      after clipping. */
  lemma ClampedTotalPositive(prm: Params, st: State)
    requires Total(st.shares) > 0.0
    ensures Total(Clamped(prm, st)) > 0.0
  {
    var d := ShareDeltas(prm, st.pet);
    ClampKeepsPositiveSum(st.shares.a + d.a, st.shares.c + d.c, st.shares.s + d.s);
  }

  /** Shares that enter a step with a positive total leave it on the simplex: the clipped
      total stays positive, so the division by the total is never skipped. */
  lemma StepFromPositiveTotal(prm: Params, st: State)
    requires Total(st.shares) > 0.0
    ensures OnSimplex(Step(prm, st).shares)
  {
    var k := Clamped(prm, st);
    ClampedTotalPositive(prm, st);
    RenormaliseSpec(k.a, k.c, k.s);
  }

  /** The state after n updates. */
  function Iterate(prm: Params, st: State, n: nat): State
    decreases n
  {
    if n == 0 then st else Step(prm, Iterate(prm, st, n - 1))
  }

  /** From shares with a positive total, every later state is on the simplex, and every
      state after at least one update lies in [0,1]. */
  lemma {:induction false} IterateOnSimplex(prm: Params, st: State, n: nat)
    requires Total(st.shares) > 0.0
    requires n > 0
    ensures OnSimplex(Iterate(prm, st, n).shares)
    ensures SharesInUnit(Iterate(prm, st, n).shares) && InUnit(Iterate(prm, st, n).pet)
    decreases n
  {
    if n == 1 {
      StepFromPositiveTotal(prm, st);
      StepInUnit(prm, st);
    } else {
      IterateOnSimplex(prm, st, n - 1);
      StepFromPositiveTotal(prm, Iterate(prm, st, n - 1));
      StepInUnit(prm, Iterate(prm, st, n - 1));
    }
  }

  /** With the default dials (speed 0.05, regulation 0.3, security 0.2, innovation 0.6,
      PET efficiency 0.8) and the default start (0.4, 0.4, 0.2, PET 0.3), one step moves
      about 2.4 points of power away from Individuals and lowers PET adoption slightly;
      the clipped total is already 1, so the division leaves the shares unchanged. */
  lemma DefaultFirstStep()
    ensures Step(Params(0.05, 0.3, 0.2, 0.6, 0.8), State(Shares(0.4, 0.4, 0.2), 0.3))
         == State(Shares(0.3757, 0.4138, 0.2105), 0.2989285)
  {
    var prm := Params(0.05, 0.3, 0.2, 0.6, 0.8);
    assert DeltaCorporate(prm, 0.3) == 0.0138;
    assert DeltaState(prm, 0.3) == 0.0105;
    assert Renormalise(0.3757, 0.4138, 0.2105) == Shares(0.3757, 0.4138, 0.2105);
    assert DeltaPet(prm, 0.3757, 0.4138) == -0.0010715;
  }
}
