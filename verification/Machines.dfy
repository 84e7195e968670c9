/** What every protocol below shares: an event-driven machine, its runs, and the object the reconcilers act on. */
module Machines {

  datatype Option<+T> = None | Some(value: T)

  /** `step` is what an event does; `enabled` says when it can happen; `external` marks events the operator does not
      cause. */
  datatype Machine<!S, !E> = Machine(start: S, enabled: (S, E) -> bool, step: (S, E) -> S, external: E -> bool)

  /** The states a run passes through, one more than it has events. */
  datatype Run<+S, +E> = Run(states: seq<S>, events: seq<E>)
  {
    ghost predicate Of(m: Machine<S, E>)
    {
      && |states| == |events| + 1
      && states[0] == m.start
      && forall i | 0 <= i < |events| :: m.enabled(states[i], events[i])
          && states[i + 1] == m.step(states[i], events[i])
    }

    function Last(): S
      requires states != []
    {
      states[|states| - 1]
    }

    /** From the same start, equal events lead through equal states. */
    ghost predicate Continues(earlier: Run<S, E>)
    {
      earlier.events <= events
    }
  }

  lemma Prolong<S, E>(m: Machine<S, E>, run: Run<S, E>, e: E) returns (longer: Run<S, E>)
    requires run.Of(m) && m.enabled(run.Last(), e)
    ensures longer.Of(m) && longer.Last() == m.step(run.Last(), e) && longer.events == run.events + [e]
  {
    longer := Run(run.states + [m.step(run.Last(), e)], run.events + [e]);
  }

  lemma {:induction false} Invariance<S(!new), E(!new)>(m: Machine<S, E>, inv: S -> bool, run: Run<S, E>, i: nat)
    requires inv(m.start)
    requires forall s, e :: inv(s) && m.enabled(s, e) ==> inv(m.step(s, e))
    requires run.Of(m) && i < |run.states|
    ensures inv(run.states[i])
  {
    if i > 0 {
      Invariance(m, inv, run, i - 1);
      assert m.enabled(run.states[i - 1], run.events[i - 1]);
    }
  }

  /** What every step keeps, a run keeps from any state on. */
  lemma {:induction false} Onward<S(!new), E(!new)>(m: Machine<S, E>, keep: S -> bool, run: Run<S, E>, i: nat, j: nat)
    requires run.Of(m) && i <= j < |run.states| && keep(run.states[i])
    requires forall s, e :: keep(s) && m.enabled(s, e) ==> keep(m.step(s, e))
    ensures keep(run.states[j])
  {
    if i < j {
      Onward(m, keep, run, i, j - 1);
      assert m.enabled(run.states[j - 1], run.events[j - 1]);
    }
  }

  /** What external events keep, a run keeps from state `n` on when only external events follow. */
  lemma {:induction false} ExternalInvariance<S(!new), E(!new)>(
      m: Machine<S, E>, keep: S -> bool, run: Run<S, E>, n: nat, i: nat)
    requires run.Of(m) && n <= i < |run.states| && keep(run.states[n])
    requires forall s, e :: keep(s) && m.enabled(s, e) && m.external(e) ==> keep(m.step(s, e))
    requires forall j | n <= j < |run.events| :: m.external(run.events[j])
    ensures keep(run.states[i])
  {
    if n < i {
      ExternalInvariance(m, keep, run, n, i - 1);
      assert m.enabled(run.states[i - 1], run.events[i - 1]);
    }
  }

  /** The stores a reconciler talks to, with the run that led to their present state. A request that takes effect is one
      `Do`; between any two requests `Others` lets everybody else act. `faults` counts what went wrong with requests. */
  class World<S(!new), E(!new)> {
    const machine: Machine<S, E>
    ghost var run: Run<S, E>
    ghost var faults: nat
    var state: S

    ghost predicate Runs(m: Machine<S, E>)
      reads `run, `state
    {
      machine == m && run.Of(m) && state == run.Last()
    }

    constructor (m: Machine<S, E>)
      ensures Runs(m) && state == m.start && run.events == [] && faults == 0
    {
      machine, run, state, faults := m, Run([m.start], []), m.start, 0;
    }

    /** Whether the next request fails or its answer gets lost. */
    method Fails() returns (failed: bool)
      modifies `faults
      ensures faults == old(faults) + if failed then 1 else 0
    {
      failed := *;
      if failed {
        Fault();
      }
    }

    ghost method Fault()
      modifies `faults
      ensures faults == old(faults) + 1
    {
      faults := faults + 1;
    }

    method Do(e: E)
      requires Runs(machine) && machine.enabled(state, e)
      modifies `run, `state
      ensures Runs(machine) && state == machine.step(old(state), e)
      ensures run.events == old(run.events) + [e] && run.states == old(run.states) + [state]
    {
      state := machine.step(state, e);
      run := Run(run.states + [state], run.events + [e]);
    }

    /** Any number of external events; the contract leaves open which. */
    method Others()
      requires Runs(machine)
      modifies `run, `state
      ensures Runs(machine) && run.Continues(old(run)) && run.states[|old(run.events)|] == old(state)
      ensures forall i | |old(run.events)| <= i < |run.events| :: machine.external(run.events[i])
    {
    }
  }
}
