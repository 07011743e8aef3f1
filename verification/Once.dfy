/** The run-once wrapper `once`: any number of threads call it, a lock guards the flag and the
    result, and the wrapped function may return or raise. */
module Once {
  import opened Wrappers

  type Thread = nat

  /** Where a thread is: outside, in front of the lock, inside it before looking at the flag, in
      the wrapped function, past the lock, or done with what it got. */
  datatype Place<V> = Idle | AtLock | Inside | Calling | Released | Returned(value: Option<V>) | Threw

  /** `result` is `None` until it is assigned. `started` counts the calls of the wrapped function,
      and `outcome` logs how the first one ended: with a value, or by raising (`Some(None)`). */
  datatype State<V> = State(
    executed: bool, result: Option<V>, owner: Option<Thread>, places: map<Thread, Place<V>>,
    started: nat, outcome: Option<Option<V>>)

  function Initial<V>(): State<V> {
    State(false, None, None, map[], 0, None)
  }

  datatype Step<V> =
    | Call(t: Thread)
    | Acquire(t: Thread)
    | Test(t: Thread)                       // look at the flag, and set it
    | Finish(t: Thread, outcome: Option<V>) // the wrapped function returns, or raises (`None`)
    | Return(t: Thread)                     // read the result after the lock is released

  function PlaceOf<V>(s: State<V>, t: Thread): Place<V> {
    if t in s.places then s.places[t] else Idle
  }

  function Apply<V>(s: State<V>, step: Step<V>): State<V> {
    var at := PlaceOf(s, step.t);
    match step
    case Call(t) => if at.Idle? || at.Returned? || at.Threw? then s.(places := s.places[t := AtLock]) else s
    case Acquire(t) =>
      if at.AtLock? && s.owner.None? then s.(owner := Some(t), places := s.places[t := Inside]) else s
    case Test(t) =>
      if !at.Inside? then s
      else if s.executed then s.(owner := None, places := s.places[t := Released])
      else s.(executed := true, started := s.started + 1, places := s.places[t := Calling])
    case Finish(t, outcome) =>
      if !at.Calling? then s
      else if outcome.Some? then
        s.(result := outcome, outcome := Some(outcome), owner := None, places := s.places[t := Released])
      else s.(outcome := Some(None), owner := None, places := s.places[t := Threw])
    case Return(t) => if at.Released? then s.(places := s.places[t := Returned(s.result)]) else s
  }

  function Trace<V>(steps: seq<Step<V>>): State<V> {
    if steps == [] then Initial() else Apply(Trace(steps[..|steps| - 1]), steps[|steps| - 1])
  }

  // ----- the invariant -----

  predicate Critical<V>(p: Place<V>) {
    p.Inside? || p.Calling?
  }

  ghost predicate Invariant<V(!new)>(s: State<V>) {
    // exactly the owner of the lock is in the critical section
    && (forall t: Thread :: Critical(PlaceOf(s, t)) <==> s.owner == Some(t))
    // the wrapped function has been started once the flag is set, and only then
    && s.started == (if s.executed then 1 else 0)
    // it is running until it has an outcome
    && (s.outcome.Some? ==> s.executed)
    && (s.executed && s.outcome.None? <==> exists t: Thread :: PlaceOf(s, t).Calling?)
    && (forall t: Thread, u: Thread :: PlaceOf(s, t).Calling? && PlaceOf(s, u).Calling? ==> t == u)
    // the result is the value of that one execution, and none if it raised
    && s.result == (if s.outcome.Some? then s.outcome.value else None)
    // whoever is past the lock finds the outcome decided
    && (forall t: Thread ::
          PlaceOf(s, t).Released? || PlaceOf(s, t).Returned? || PlaceOf(s, t).Threw? ==> s.outcome.Some?)
    && (forall t: Thread :: PlaceOf(s, t).Returned? ==> PlaceOf(s, t).value == s.result)
    && (forall t: Thread :: PlaceOf(s, t).Threw? ==> s.outcome == Some(None))
  }

  lemma StepKeeps<V(!new)>(s: State<V>, step: Step<V>)
    requires Invariant(s)
    ensures Invariant(Apply(s, step))
  {
    var s' := Apply(s, step);
    forall t: Thread ensures t != step.t ==> PlaceOf(s', t) == PlaceOf(s, t) {
    }
    var at, at' := PlaceOf(s, step.t), PlaceOf(s', step.t);
    if s.executed && s.outcome.None? {
      var c: Thread :| PlaceOf(s, c).Calling?;
      assert c == step.t || PlaceOf(s', c).Calling?;
    }
  }

  lemma {:induction false} AlwaysInvariant<V(!new)>(steps: seq<Step<V>>)
    ensures Invariant(Trace(steps))
  {
    hide Apply;
    if steps != [] {
      AlwaysInvariant(steps[..|steps| - 1]);
      StepKeeps(Trace(steps[..|steps| - 1]), steps[|steps| - 1]);
    }
  }

  /** At most one start, ever, and one thread at a time in the critical section. */
  lemma StartsAtMostOnce<V(!new)>(steps: seq<Step<V>>, t: Thread, u: Thread)
    ensures Trace(steps).started <= 1
    ensures Critical(PlaceOf(Trace(steps), t)) && Critical(PlaceOf(Trace(steps), u)) ==> t == u
  {
    AlwaysInvariant(steps);
  }

  /** The outcome of the one execution is never revised, so all returning calls agree for ever: on
      its value if it returned, and on the initial result if it raised. */
  lemma {:induction false} OutcomeIsFinal<V(!new)>(steps: seq<Step<V>>, more: seq<Step<V>>)
    requires Trace(steps).outcome.Some?
    ensures Trace(steps + more).outcome == Trace(steps).outcome
    decreases |more|
  {
    if more == [] {
      assert steps + more == steps;
    } else {
      var init := more[..|more| - 1];
      assert (steps + more)[..|steps + more| - 1] == steps + init;
      OutcomeIsFinal(steps, init);
      AlwaysInvariant(steps + init);
    }
  }

  lemma ReturnsAgree<V(!new)>(steps: seq<Step<V>>, more: seq<Step<V>>, t: Thread, u: Thread)
    requires PlaceOf(Trace(steps), t).Returned? && PlaceOf(Trace(steps + more), u).Returned?
    ensures PlaceOf(Trace(steps), t).value == PlaceOf(Trace(steps + more), u).value
    ensures Trace(steps + more).outcome == Some(PlaceOf(Trace(steps + more), u).value)
  {
    hide Trace, Apply;
    AlwaysInvariant(steps);
    AlwaysInvariant(steps + more);
    OutcomeIsFinal(steps, more);
  }

  /** If the one execution raised, the function is not tried again, and every call that returns
      gives the initial result. */
  lemma RaisingIsNeverRetried<V(!new)>(steps: seq<Step<V>>, more: seq<Step<V>>, t: Thread)
    requires Trace(steps).outcome == Some(None)
    ensures Trace(steps + more).started == 1 && Trace(steps + more).result == None
    ensures PlaceOf(Trace(steps + more), t).Returned? ==> PlaceOf(Trace(steps + more), t).value == None
  {
    hide Trace, Apply;
    OutcomeIsFinal(steps, more);
    AlwaysInvariant(steps + more);
  }

  // ----- whose value it is -----

  /** Step `i` ended the wrapped function, called by `t`, in the given way. */
  ghost predicate EndedAt<V(!new)>(steps: seq<Step<V>>, i: nat, t: Thread, outcome: Option<V>) {
    i < |steps| && steps[i] == Finish(t, outcome) && PlaceOf(Trace(steps[..i]), t).Calling?
  }

  /** The outcome is that of the step in which the wrapped function ended; before that there is none. */
  lemma {:induction false} OutcomeHasItsStep<V(!new)>(steps: seq<Step<V>>)
    ensures Trace(steps).outcome.Some? <==> exists i: nat, t: Thread, outcome :: EndedAt(steps, i, t, outcome)
    ensures forall i: nat, t: Thread, outcome ::
      EndedAt(steps, i, t, outcome) ==> Trace(steps).outcome == Some(outcome)
  {
    hide Apply, Invariant;
    if steps != [] {
      var n := |steps| - 1;
      OutcomeHasItsStep(steps[..n]);
      AlwaysInvariant(steps[..n]);
      OutcomeAfter(Trace(steps[..n]), steps[n]);
      forall i: nat, t: Thread, outcome | i < n
        ensures EndedAt(steps, i, t, outcome) <==> EndedAt(steps[..n], i, t, outcome)
      {
        assert steps[..n][..i] == steps[..i];
      }
      if Trace(steps[..n]).outcome.Some? {
        var i: nat, t: Thread, outcome :| EndedAt(steps[..n], i, t, outcome);
        assert EndedAt(steps, i, t, outcome);
      } else if Trace(steps).outcome.Some? {
        assert EndedAt(steps, n, steps[n].t, steps[n].outcome);
      }
    }
  }

  /** One step decides the outcome exactly by ending the wrapped function. */
  lemma OutcomeAfter<V(!new)>(s: State<V>, step: Step<V>)
    requires Invariant(s)
    ensures step.Finish? && PlaceOf(s, step.t).Calling? ==>
      s.outcome == None && Apply(s, step).outcome == Some(step.outcome)
    ensures !(step.Finish? && PlaceOf(s, step.t).Calling?) ==> Apply(s, step).outcome == s.outcome
  {
  }

  /** Every call that returns gives the value with which the wrapped function ended, and nothing if it
      ended by raising. */
  lemma ReturnsItsValue<V(!new)>(steps: seq<Step<V>>, t: Thread)
    requires PlaceOf(Trace(steps), t).Returned?
    ensures exists i: nat, u: Thread :: EndedAt(steps, i, u, PlaceOf(Trace(steps), t).value)
  {
    AlwaysInvariant(steps);
    hide Invariant, Apply, EndedAt;
    OutcomeHasItsStep(steps);
    ResultIsOutcome(Trace(steps), t);
    var i: nat, u: Thread, outcome :| EndedAt(steps, i, u, outcome);
    assert EndedAt(steps, i, u, PlaceOf(Trace(steps), t).value);
  }

  lemma ResultIsOutcome<V(!new)>(s: State<V>, t: Thread)
    requires Invariant(s) && PlaceOf(s, t).Returned?
    ensures s.outcome == Some(PlaceOf(s, t).value)
  {
  }

  lemma TraceStep<V>(steps: seq<Step<V>>, step: Step<V>)
    ensures Trace(steps + [step]) == Apply(Trace(steps), step)
  {
    assert (steps + [step])[..|steps|] == steps;
  }

  /** A call that finds the function not yet run, and is not disturbed, runs it and gives its value. */
  lemma FirstCallRuns<V(!new)>(steps: seq<Step<V>>, t: Thread, v: V)
    requires !Trace(steps).executed && Trace(steps).owner.None? && PlaceOf(Trace(steps), t).Idle?
    ensures var s, after := Trace(steps), Trace(steps + [Call(t), Acquire(t), Test(t), Finish(t, Some(v)), Return(t)]);
      && after.executed && after.started == s.started + 1 && after.owner == None
      && after.places == s.places[t := Returned(Some(v))]
  {
    hide Trace;
    TraceStep(steps, Call(t));
    TraceStep(steps + [Call(t)], Acquire(t));
    TraceStep(steps + [Call(t)] + [Acquire(t)], Test(t));
    TraceStep(steps + [Call(t)] + [Acquire(t)] + [Test(t)], Finish(t, Some(v)));
    TraceStep(steps + [Call(t)] + [Acquire(t)] + [Test(t)] + [Finish(t, Some(v))], Return(t));
    assert steps + [Call(t), Acquire(t), Test(t), Finish(t, Some(v)), Return(t)] ==
           steps + [Call(t)] + [Acquire(t)] + [Test(t)] + [Finish(t, Some(v))] + [Return(t)];
  }

  /** A call after that does not run it, and gives the value of the run that was. */
  lemma LaterCallsDoNot<V(!new)>(steps: seq<Step<V>>, t: Thread)
    requires Trace(steps).outcome.Some? && Trace(steps).owner.None?
    requires PlaceOf(Trace(steps), t) in {Idle, Threw} || PlaceOf(Trace(steps), t).Returned?
    ensures var s, after := Trace(steps), Trace(steps + [Call(t), Acquire(t), Test(t), Return(t)]);
      after == s.(places := s.places[t := Returned(s.outcome.value)])
  {
    AlwaysInvariant(steps);
    assert Trace(steps).executed && Trace(steps).result == Trace(steps).outcome.value;
    hide Trace, Invariant;
    TraceStep(steps, Call(t));
    TraceStep(steps + [Call(t)], Acquire(t));
    TraceStep(steps + [Call(t)] + [Acquire(t)], Test(t));
    TraceStep(steps + [Call(t)] + [Acquire(t)] + [Test(t)], Return(t));
    assert steps + [Call(t), Acquire(t), Test(t), Return(t)] ==
           steps + [Call(t)] + [Acquire(t)] + [Test(t)] + [Return(t)];
  }
}
