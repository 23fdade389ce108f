# Power-dynamics simulator — a Dafny model

This project models the core of the privacy/power toy simulator in `privacysim.py`. The
core is made up of two parts:

- The function `simulate`. It takes three initial power shares, for Individuals (A),
  Corporations (C) and the State (S), an initial PET-adoption rate P and five dials (step,
  regulation strength, security pressure, innovation dividend and PET efficiency). It
  then runs `timesteps + 1` passes of one loop, and each pass does two things:
  1. It emits the current values as four rows `(t, metric, value)`.
  2. It updates the state:
     - compute a zero-sum transfer of power between the three actors;
     - clip each share to [0,1] (`np.clip`);
     - divide by the total when the total is positive;
     - drift PET adoption using the new shares, and clip it to [0,1].
- The "sanity normalisation". Before a run, the user interface applies it to the initial
  shares chosen on the sliders.

The files are:

- `fractions.dfy` (module `Fractions`) holds facts about dividing by a sum, used by the
  two normalisations.
- `simplex.dfy` (module `Simplex`) covers the `Shares` triple and `Clamp`, which models
  `np.clip(x, 0, 1)`. It also has `Renormalise`, the guarded division by the total.
- `dynamics.dfy` (module `Dynamics`) covers the dials, the state, the three transfers, the
  PET drift, one update `Step` and its n-fold iterate `Iterate`.
- `simulation.dfy` (module `Simulation`) has the rows and their specification `Trace`. It
  also has the loop itself, `Simulate`, which is a method with a `while` loop. Each pass
  of the loop emits four rows and then calls `Advance`, which performs the update in
  place on the four loop variables.
- `initial_shares.dfy` (module `InitialShares`) has the sanity normalisation. It also
  states what a run started from slider values guarantees, end to end.

`Simulate` is proved to return exactly `Trace(prm, start, Passes(timesteps))`. The lemmas
about `Trace` then give the following properties:

- Row layout: row `i` belongs to timestep `i / 4` and names metric `i % 4` in the fixed
  order. Its value is a reading of the state after `i / 4` updates.
- The first four rows are the initial values.
- From a start in [0,1], every reported value lies in [0,1].
- From shares that add up to 1, the three power shares reported at every timestep add up
  to 1.

The last property holds because the transfers are zero-sum. Clipping therefore cannot
drive a positive total to zero, so the division is never skipped once the shares start
with a positive total.

## Model

| member | source | states |
|---|---|---|
| Simplex.Clamp | privacysim.py:74-76 | `np.clip` to [lo, hi]: the result lies in the interval, it is x itself when x is inside, and no point of the interval is nearer to x |
| Simplex.Renormalise | privacysim.py:77-79 | definition of the guarded division by the total; its properties are stated by Simplex.RenormaliseSpec |
| Simplex.ClampKeepsPositiveSum | privacysim.py:74-77 | clipping three values with a positive sum to [0,1] each leaves a positive total |
| Simplex.RenormaliseSpec | privacysim.py:77-79 | with a positive total, the renormalised shares add up to 1 and keep the proportions of the clipped shares (r.a * total == a, and likewise for c and s); otherwise the shares are left unchanged; non-negative shares end on the simplex or all zero, each in [0,1] |
| Dynamics.ShareDeltas | privacysim.py:59-71 | the corporate and state transfers are the two formulas, and the three transfers sum to zero |
| Dynamics.DeltaPet | privacysim.py:82-88 | definition of the PET drift; it is used by Dynamics.Step, whose properties are stated by Dynamics.StepInUnit and Dynamics.DefaultFirstStep |
| Dynamics.Step | privacysim.py:58-89 | definition of one update; its properties are stated by Dynamics.StepInUnit, Dynamics.StepFromPositiveTotal and Dynamics.DefaultFirstStep, and Simulation.Advance is proved equal to it |
| Dynamics.Clamped | privacysim.py:74-76 | each share after the transfer and the clipping lies in [0,1] |
| Dynamics.StepInUnit | privacysim.py:74-89 | from any state, one update leaves every share and PET adoption in [0,1], and the shares either on the simplex or all zero |
| Dynamics.ClampedTotalPositive | privacysim.py:71-77 | because the transfers are zero-sum, shares entering with a positive total keep a positive total after clipping |
| Dynamics.StepFromPositiveTotal | privacysim.py:71-79 | when the entering shares have a positive total, the division is taken and the new shares lie on the simplex |
| Dynamics.Iterate | privacysim.py:50-89 | definition of the state after n passes; its properties are stated by Dynamics.IterateOnSimplex and Simulation.RunAt |
| Dynamics.IterateOnSimplex | privacysim.py:50-89 | from shares with a positive total, every state after one or more updates has its shares on the simplex and all values in [0,1] |
| Dynamics.DefaultFirstStep | privacysim.py:58-89 | with the default slider values, one update gives shares (0.3757, 0.4138, 0.2105) and PET adoption 0.2989285 |
| Simulation.Snapshot | privacysim.py:51-56 | the four rows of a timestep carry that timestep, the metrics in the fixed order, and the matching readings of the state |
| Simulation.Emit | privacysim.py:50-56 | four rows are emitted per state |
| Simulation.EmitAt | privacysim.py:50-56 | emitted row i is timestep i / 4, metric i % 4, reading state number i / 4 |
| Simulation.Run | privacysim.py:50-89 | the states seen by the loop are one per pass |
| Simulation.RunAt | privacysim.py:50-89 | the state seen at pass k is the start state after k updates (emission happens before the update) |
| Simulation.Trace | privacysim.py:50-56 | n passes emit 4 * n rows |
| Simulation.TraceAt | privacysim.py:50-56 | row i of a run is timestep i / 4, metric i % 4, and the reading of the state after i / 4 updates |
| Simulation.TraceRow | privacysim.py:51-56 | row 4t + k of a run reports metric k of the state after t updates, at timestep t |
| Simulation.Advance | privacysim.py:58-89 | the in-place update of A, C, S and P made at the end of each pass yields exactly one `Step` of the state |
| Simulation.Simulate | privacysim.py:32-92 | the loop returns exactly the specified trace of the `range(timesteps + 1)` passes starting from the given values: 4 * (timesteps + 1) rows when timesteps >= 0, and no rows when timesteps is negative |
| Simulation.TraceInUnit | privacysim.py:74-89 | from a start in [0,1], every reported value lies in [0,1] |
| Simulation.TraceSharesSumToOne | privacysim.py:44-79 | from shares that add up to 1, the three shares reported at every timestep add up to 1 |
| Simulation.TraceStartsAtInitial | privacysim.py:45-56 | the first four rows are timestep 0 and report the initial A, C, S and P unchanged |
| InitialShares.SanityNormalise | privacysim.py:117-121 | definition of the sanity normalisation; its properties are stated by InitialShares.SanityNormaliseSpec |
| InitialShares.SanityNormaliseSpec | privacysim.py:117-121 | the normalised initial shares always add up to 1; with a non-zero sum they keep the proportions of the inputs; with a zero sum they are (0.34, 0.33, 0.33); non-negative inputs give shares on the simplex, each in [0,1] |
| InitialShares.SliderRunStaysOnSimplex | privacysim.py:110-150 | a run started from slider values in [0,1], after the sanity normalisation, reports only values in [0,1], and its three shares add up to 1 at every timestep |

## Left out

- The Streamlit sidebar, the run button, the plots, the final-distribution display and
  the pandas `DataFrame` are left out. The output table is a sequence of `Row` values,
  and metric names are a datatype rather than strings.
- Numbers are exact reals, so the model has no IEEE-754 rounding. As a result, "sums to
  1" holds exactly here, whereas the program only promises it approximately.
- `timesteps` is an unbounded integer. Neither the code nor the model rejects negative
  timesteps or a non-positive step: a negative value gives no passes and an empty table,
  because `range` is empty.
- The sliders' ranges and granularity (for example, timesteps from 30 to 400 in steps
  of 10) are not modelled. Only the [0,1] bounds of the share and PET sliders are
  assumed, in `InitialShares.SliderRunStaysOnSimplex`.
