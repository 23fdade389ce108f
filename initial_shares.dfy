/** The sanity normalisation applied to the initial shares chosen on the sliders before a
    run, and what it guarantees for the whole run. */
module InitialShares {
  import opened Simplex
  import opened Dynamics
  import opened Simulation

  /** Divide the initial shares by their sum, or fall back to 0.34 / 0.33 / 0.33 when the
      sum is exactly zero. */
  function SanityNormalise(indiv0: real, corp0: real, state0: real): Shares {
    var norm := indiv0 + corp0 + state0;
    if norm == 0.0 then Shares(0.34, 0.33, 0.33)
    else Shares(indiv0 / norm, corp0 / norm, state0 / norm)
  }

  /** The normalised initial shares always add up to 1; with a non-zero sum they keep the
      proportions of the inputs, with a zero sum they are the fallback; non-negative inputs
      give shares on the simplex. */
  lemma SanityNormaliseSpec(indiv0: real, corp0: real, state0: real)
    ensures Total(SanityNormalise(indiv0, corp0, state0)) == 1.0
    ensures indiv0 + corp0 + state0 != 0.0 ==>
      SanityNormalise(indiv0, corp0, state0).a * (indiv0 + corp0 + state0) == indiv0
      && SanityNormalise(indiv0, corp0, state0).c * (indiv0 + corp0 + state0) == corp0
      && SanityNormalise(indiv0, corp0, state0).s * (indiv0 + corp0 + state0) == state0
    ensures indiv0 + corp0 + state0 == 0.0 ==>
      SanityNormalise(indiv0, corp0, state0) == Shares(0.34, 0.33, 0.33)
    ensures NonNegative(Shares(indiv0, corp0, state0)) ==>
      OnSimplex(SanityNormalise(indiv0, corp0, state0))
      && SharesInUnit(SanityNormalise(indiv0, corp0, state0))
  {
  }

  /** A run started from slider values (initial shares and PET adoption in [0,1]) after the
      sanity normalisation reports only values in [0,1], and the three power shares it
      reports at each timestep add up to 1. */
  lemma SliderRunStaysOnSimplex(
    indiv0: real, corp0: real, state0: real, pet0: real, timesteps: int, prm: Params)
    requires InUnit(indiv0) && InUnit(corp0) && InUnit(state0) && InUnit(pet0)
    ensures forall i :: 0 <= i < 4 * Passes(timesteps) ==>
      InUnit(Trace(prm, State(SanityNormalise(indiv0, corp0, state0), pet0), Passes(timesteps))[i].value)
    ensures forall t :: 0 <= t < Passes(timesteps) ==>
      Trace(prm, State(SanityNormalise(indiv0, corp0, state0), pet0), Passes(timesteps))[4 * t].value
      + Trace(prm, State(SanityNormalise(indiv0, corp0, state0), pet0), Passes(timesteps))[4 * t + 1].value
      + Trace(prm, State(SanityNormalise(indiv0, corp0, state0), pet0), Passes(timesteps))[4 * t + 2].value
      == 1.0
  {
    var st0 := State(SanityNormalise(indiv0, corp0, state0), pet0);
    var n := Passes(timesteps);
    SanityNormaliseSpec(indiv0, corp0, state0);
    forall i | 0 <= i < 4 * n
      ensures InUnit(Trace(prm, st0, n)[i].value)
    {
      TraceInUnit(prm, st0, n, i);
    }
    forall t | 0 <= t < n
      ensures Trace(prm, st0, n)[4 * t].value + Trace(prm, st0, n)[4 * t + 1].value
            + Trace(prm, st0, n)[4 * t + 2].value == 1.0
    {
      TraceSharesSumToOne(prm, st0, n, t);
    }
  }
}
