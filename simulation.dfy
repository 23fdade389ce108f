/** The simulation loop: a snapshot of four rows is emitted at each timestep, and then
    the state is updated, for `timesteps + 1` passes. */
module Simulation {
  import opened Simplex
  import opened Dynamics

  /** The four metrics of a snapshot. */
  datatype Metric = IndividualPower | CorporatePower | StatePower | PetAdoption

  /** One row of the tidy output table: timestep, metric name and value. */
  datatype Row = Row(t: int, metric: Metric, value: real)

  /** The fixed order of the metrics within one timestep. */
  function MetricAt(k: nat): Metric
    requires k < 4
  {
    [IndividualPower, CorporatePower, StatePower, PetAdoption][k]
  }

  /** The value a state reports for a metric. */
  function Reading(st: State, m: Metric): real {
    match m
    case IndividualPower => st.shares.a
    case CorporatePower => st.shares.c
    case StatePower => st.shares.s
    case PetAdoption => st.pet
  }

  /** The four rows emitted for state `st` at timestep t. */
  function Snapshot(t: int, st: State): (rows: seq<Row>)
    ensures |rows| == 4
    ensures forall k :: 0 <= k < 4 ==> rows[k] == Row(t, MetricAt(k), Reading(st, MetricAt(k)))
  {
    [Row(t, IndividualPower, st.shares.a),
     Row(t, CorporatePower, st.shares.c),
     Row(t, StatePower, st.shares.s),
     Row(t, PetAdoption, st.pet)]
  }

  /** The number of passes of a loop over `range(timesteps + 1)`, which is empty when
      timesteps is negative. */
  function Passes(timesteps: int): nat {
    if timesteps + 1 > 0 then timesteps + 1 else 0
  }

  /** The rows emitted for a sequence of states, the k-th state labelled timestep k. */
  function Emit(states: seq<State>): (rows: seq<Row>)
    ensures |rows| == 4 * |states|
    decreases |states|
  {
    if states == [] then []
    else Emit(states[..|states| - 1]) + Snapshot(|states| - 1, states[|states| - 1])
  }

  /** Row i of the emitted table belongs to timestep i / 4, names metric i % 4 in the fixed
      order, and reports state number i / 4. */
  lemma {:induction false} EmitAt(states: seq<State>, i: nat)
    requires i < 4 * |states|
    ensures Emit(states)[i] == Row(i / 4, MetricAt(i % 4), Reading(states[i / 4], MetricAt(i % 4)))
    decreases |states|
  {
    var n := |states|;
    if i < 4 * (n - 1) {
      EmitAt(states[..n - 1], i);
    } else {
      assert i / 4 == n - 1 && i % 4 == i - 4 * (n - 1);
    }
  }

  /** The states seen at timesteps 0 .. n-1: the start state and its successive updates. */
  function Run(prm: Params, st0: State, n: nat): (states: seq<State>)
    ensures |states| == n
    decreases n
  {
    if n == 0 then [] else Run(prm, st0, n - 1) + [Iterate(prm, st0, n - 1)]
  }

  /** State number k of a run is the start state after k updates. */
  lemma {:induction false} RunAt(prm: Params, st0: State, n: nat, k: nat)
    requires k < n
    ensures Run(prm, st0, n)[k] == Iterate(prm, st0, k)
    decreases n
  {
    if k < n - 1 {
      RunAt(prm, st0, n - 1, k);
    }
  }

  /** The rows emitted by the first n passes, starting from state st0. */
  function Trace(prm: Params, st0: State, n: nat): (rows: seq<Row>)
    ensures |rows| == 4 * n
  {
    Emit(Run(prm, st0, n))
  }

  /** Row i of a run belongs to timestep i / 4, names metric i % 4 in the fixed order, and
      reports the state after i / 4 updates. */
  lemma TraceAt(prm: Params, st0: State, n: nat, i: nat)
    requires i < 4 * n
    ensures Trace(prm, st0, n)[i]
         == Row(i / 4, MetricAt(i % 4), Reading(Iterate(prm, st0, i / 4), MetricAt(i % 4)))
  {
    EmitAt(Run(prm, st0, n), i);
    RunAt(prm, st0, n, i / 4);
  }

  /** The update made at the end of each pass: transfer power between the actors, clip each
      share to [0,1], divide by the total when it is positive, then drift PET adoption using
      the renormalised shares and clip it to [0,1]. */
  method Advance(prm: Params, a0: real, c0: real, s0: real, p0: real)
    returns (a: real, c: real, s: real, p: real)
    ensures State(Shares(a, c, s), p) == Step(prm, State(Shares(a0, c0, s0), p0))
  {
    var deltaC := DeltaCorporate(prm, p0);
    var deltaS := DeltaState(prm, p0);
    var deltaA := -deltaC - deltaS;

    c := Clamp(c0 + deltaC, 0.0, 1.0);
    s := Clamp(s0 + deltaS, 0.0, 1.0);
    a := Clamp(a0 + deltaA, 0.0, 1.0);
    var total := a + c + s;
    if total > 0.0 {
      a, c, s := a / total, c / total, s / total;
    }

    var deltaP := DeltaPet(prm, a, c);
    p := Clamp(p0 + deltaP, 0.0, 1.0);
  }

  /** The simulation: for each of the `timesteps + 1` passes, emit the current state as four
      rows and then update the shares and PET adoption. */
  method Simulate(
    indiv0: real, corp0: real, state0: real, pet0: real,
    timesteps: int, prm: Params) returns (rows: seq<Row>)
    ensures rows == Trace(prm, State(Shares(indiv0, corp0, state0), pet0), Passes(timesteps))
    ensures timesteps >= 0 ==> |rows| == 4 * (timesteps + 1)
    ensures timesteps < 0 ==> rows == []
  {
    ghost var init := State(Shares(indiv0, corp0, state0), pet0);
    var a, c, s, p := indiv0, corp0, state0, pet0;
    rows := [];
    var n := Passes(timesteps);
    var t := 0;
    ghost var states: seq<State> := [];
    while t < n
      invariant 0 <= t <= n
      invariant State(Shares(a, c, s), p) == Iterate(prm, init, t)
      invariant states == Run(prm, init, t)
      invariant rows == Emit(states)
    {
      rows := rows + [Row(t, IndividualPower, a), Row(t, CorporatePower, c),
                      Row(t, StatePower, s), Row(t, PetAdoption, p)];
      states := states + [State(Shares(a, c, s), p)];

      a, c, s, p := Advance(prm, a, c, s, p);
      t := t + 1;
    }
  }

  /** From a start inside [0,1], every reported value lies in [0,1]. */
  lemma {:induction false} TraceInUnit(prm: Params, st0: State, n: nat, i: nat)
    requires SharesInUnit(st0.shares) && InUnit(st0.pet)
    requires i < 4 * n
    ensures InUnit(Trace(prm, st0, n)[i].value)
  {
    TraceAt(prm, st0, n, i);
    var k := i / 4;
    if k > 0 {
      assert Iterate(prm, st0, k) == Step(prm, Iterate(prm, st0, k - 1));
      StepInUnit(prm, Iterate(prm, st0, k - 1));
    }
  }

  /** The four rows of timestep t report the state after t updates, metric by metric. */
  lemma TraceRow(prm: Params, st0: State, n: nat, t: nat, k: nat)
    requires t < n && k < 4
    ensures Trace(prm, st0, n)[4 * t + k] == Row(t, MetricAt(k), Reading(Iterate(prm, st0, t), MetricAt(k)))
  {
    assert (4 * t + k) / 4 == t && (4 * t + k) % 4 == k;
    TraceAt(prm, st0, n, 4 * t + k);
  }

  /** From shares that add up to 1, the three shares reported at every timestep add up
      to 1. */
  lemma {:induction false} TraceSharesSumToOne(prm: Params, st0: State, n: nat, t: nat)
    requires Total(st0.shares) == 1.0
    requires t < n
    ensures Trace(prm, st0, n)[4 * t].value
          + Trace(prm, st0, n)[4 * t + 1].value
          + Trace(prm, st0, n)[4 * t + 2].value == 1.0
  {
    TraceRow(prm, st0, n, t, 0);
    TraceRow(prm, st0, n, t, 1);
    TraceRow(prm, st0, n, t, 2);
    if t > 0 {
      IterateOnSimplex(prm, st0, t);
    }
  }

  /** The first four rows report the starting values, at timestep 0. */
  lemma TraceStartsAtInitial(prm: Params, st0: State, n: nat)
    requires n > 0
    ensures Trace(prm, st0, n)[..4]
         == [Row(0, IndividualPower, st0.shares.a), Row(0, CorporatePower, st0.shares.c),
             Row(0, StatePower, st0.shares.s), Row(0, PetAdoption, st0.pet)]
  {
    TraceRow(prm, st0, n, 0, 0);
    TraceRow(prm, st0, n, 0, 1);
    TraceRow(prm, st0, n, 0, 2);
    TraceRow(prm, st0, n, 0, 3);
  }
}
