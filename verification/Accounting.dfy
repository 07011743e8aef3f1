/** Every component that a run starts is accounted for: it was deleted before it ran, or it was
    reported finished, or it waits, in order, in the queue of unread streams. */
module Accounting {
  import opened Components
  import opened Scheduler
  import opened SchedulerLemmas
  import opened Runs

  /** The components other than containers, in order. */
  function Work(g: Graph, ids: seq<Id>): seq<Id> {
    if ids == [] then []
    else
      var v := ids[|ids| - 1];
      Work(g, ids[..|ids| - 1]) + (if v in g.specs && !IsContainer(g.specs[v].kind) then [v] else [])
  }

  /** The components other than containers that the events report as finished, in order. */
  function Reports(g: Graph, events: seq<Event>): seq<Id> {
    if events == [] then []
    else
      var e := events[|events| - 1];
      Reports(g, events[..|events| - 1]) +
      (if e.NodeFinished? && e.v in g.specs && !IsContainer(g.specs[e.v].kind) then [e.v] else [])
  }

  /** The components reported out of the queue, in order. */
  function Late(events: seq<Event>): seq<Id> {
    if events == [] then []
    else
      var e := events[|events| - 1];
      Late(events[..|events| - 1]) + (if e.NodeFinished? && e.late then [e.v] else [])
  }

  function Starts(events: seq<Event>): seq<Id> {
    if events == [] then []
    else
      var e := events[|events| - 1];
      Starts(events[..|events| - 1]) + (if e.NodeStarted? then [e.v] else [])
  }

  lemma AddEvent(g: Graph, events: seq<Event>, e: Event)
    ensures Reports(g, events + [e]) ==
            Reports(g, events) +
            (if e.NodeFinished? && e.v in g.specs && !IsContainer(g.specs[e.v].kind) then [e.v] else [])
    ensures Late(events + [e]) == Late(events) + (if e.NodeFinished? && e.late then [e.v] else [])
    ensures Starts(events + [e]) == Starts(events) + (if e.NodeStarted? then [e.v] else [])
  {
    assert (events + [e])[..|events|] == events;
  }

  lemma AddWork(g: Graph, ids: seq<Id>, v: Id)
    ensures Work(g, ids + [v]) == Work(g, ids) + (if v in g.specs && !IsContainer(g.specs[v].kind) then [v] else [])
  {
    assert (ids + [v])[..|ids|] == ids;
  }

  lemma {:induction false} AddStarts(g: Graph, events: seq<Event>, ids: seq<Id>)
    ensures Reports(g, events + StartedEvents(ids)) == Reports(g, events)
    ensures Late(events + StartedEvents(ids)) == Late(events)
    ensures Starts(events + StartedEvents(ids)) == Starts(events) + ids
    decreases |ids|
  {
    hide Reports, Late, Starts;
    if ids == [] {
      assert events + StartedEvents(ids) == events;
    } else {
      var init, v := ids[..|ids| - 1], ids[|ids| - 1];
      AddStarts(g, events, init);
      StartedSplit(init, v);
      assert ids == init + [v];
      assert events + StartedEvents(ids) == events + StartedEvents(init) + [NodeStarted(v)];
      AddEvent(g, events + StartedEvents(init), NodeStarted(v));
      assert Starts(events) + init + [v] == Starts(events) + ids;
    }
  }

  lemma StartedSplit(ids: seq<Id>, v: Id)
    ensures StartedEvents(ids + [v]) == StartedEvents(ids) + [NodeStarted(v)]
  {
  }

  lemma LateSplit(ids: seq<Id>, v: Id)
    ensures LateEvents(ids + [v]) == LateEvents(ids) + [NodeFinished(v, true)]
  {
  }

  ghost predicate AllWork(g: Graph, ids: seq<Id>) {
    Known(g, ids) && forall i | 0 <= i < |ids| :: !IsContainer(g.specs[ids[i]].kind)
  }

  lemma {:induction false} AddLate(g: Graph, events: seq<Event>, ids: seq<Id>)
    requires AllWork(g, ids)
    ensures Reports(g, events + LateEvents(ids)) == Reports(g, events) + ids
    ensures Late(events + LateEvents(ids)) == Late(events) + ids
    ensures Starts(events + LateEvents(ids)) == Starts(events)
    decreases |ids|
  {
    hide Reports, Late, Starts;
    if ids == [] {
      assert events + LateEvents(ids) == events;
    } else {
      var init, v := ids[..|ids| - 1], ids[|ids| - 1];
      AddLate(g, events, init);
      LateSplit(init, v);
      assert ids == init + [v];
      assert events + LateEvents(ids) == events + LateEvents(init) + [NodeFinished(v, true)];
      AddEvent(g, events + LateEvents(init), NodeFinished(v, true));
      assert Late(events) + init + [v] == Late(events) + ids;
      assert Reports(g, events) + init + [v] == Reports(g, events) + ids;
    }
  }

  /** What was processed is what was reported plus what is held back, and the queue is served
      first in, first out. */
  ghost predicate Balanced(g: Graph, f: Flow) {
    && AllWork(g, f.partials)
    && multiset(Work(g, f.done)) == multiset(Reports(g, f.events)) + multiset(f.partials)
    && f.queued == Late(f.events) + f.partials
  }

  lemma Regroup(a: seq<Id>, b: seq<Id>, c: seq<Id>)
    ensures multiset(a) + multiset(b + c) == multiset(a + b) + multiset(c)
  {
  }

  lemma ServeBalances(g: Graph, f: Flow, out: seq<Id>, rest: seq<Id>)
    requires Balanced(g, f) && f.partials == out + rest
    ensures Balanced(g, f.(partials := rest, events := f.events + LateEvents(out)))
    ensures Starts(f.events + LateEvents(out)) == Starts(f.events)
  {
    hide Work, Reports, Late, Starts, LateEvents;
    assert forall i | 0 <= i < |out| :: out[i] == f.partials[i];
    assert forall i | 0 <= i < |rest| :: rest[i] == f.partials[|out| + i];
    AddLate(g, f.events, out);
    assert Late(f.events) + out + rest == Late(f.events) + (out + rest);
    Regroup(Reports(g, f.events), out, rest);
  }

  lemma DrainBalances(g: Graph, f: Flow)
    requires Balanced(g, f)
    ensures Balanced(g, Drain(f)) && Starts(Drain(f).events) == Starts(f.events) && Drain(f).done == f.done
  {
    hide Balanced, Drainable, Starts, LateEvents;
    var n := Drainable(f.partials, f.comps);
    assert f.partials == f.partials[..n] + f.partials[n..];
    ServeBalances(g, f, f.partials[..n], f.partials[n..]);
  }

  lemma MessageBalances(g: Graph, f: Flow, v: Id, r: Reply)
    requires Sound(g, f) && v in g.specs && Balanced(g, f)
    ensures Balanced(g, MessageStep(g, f, v, r))
    ensures Starts(MessageStep(g, f, v, r).events) == Starts(f.events)
    ensures MessageStep(g, f, v, r).done == f.done
  {
    hide Work, Reports, Late, Starts, Drain, Streamed, WellFormed;
    if g.specs[v].kind.Message? {
      if !f.comps[v].pending {
        DrainBalances(g, f);
      } else if !r.streaming.raises {
        var comps := Streamed(f.comps, r.streaming);
        DrainBalances(g, f.(comps := comps[v := comps[v].(pending := false)]));
      }
    }
  }

  lemma FinishBalances(g: Graph, f: Flow, v: Id)
    requires Sound(g, f) && v in g.specs && Balanced(g, f)
    ensures Balanced(g, FinishStep(g, f, v))
    ensures Starts(FinishStep(g, f, v).events) == Starts(f.events)
    ensures FinishStep(g, f, v).done == f.done + [v]
  {
    hide Work, Reports, Late, Starts, WellFormed;
    AddWork(g, f.done, v);
    if IsContainer(g.specs[v].kind) {
      assert Work(g, f.done) + [] == Work(g, f.done);
    } else if f.comps[v].pending && f.error == "" {
      assert Late(f.events) + (f.partials + [v]) == Late(f.events) + f.partials + [v];
    } else {
      AddEvent(g, f.events, NodeFinished(v, false));
      assert Late(f.events) + [] == Late(f.events);
    }
  }

  lemma EndBalances(g: Graph, f: Flow, v: Id, r: Reply)
    requires Sound(g, f) && v in g.specs && Balanced(g, f)
    ensures Balanced(g, EndStep(g, f, v, r))
    ensures Starts(EndStep(g, f, v, r).events) == Starts(f.events)
    ensures EndStep(g, f, v, r).done == f.done
  {
    hide Work, Reports, Late, Starts, LoopConditions.VerdictOf;
    assert WellFormedSpec(g, v);
    if IsItem(g.specs[v].kind) {
      AddEvent(g, f.events, NodeFinished(g.specs[v].parent.value, false));
    }
  }

  /** The bookkeeping after processing `v`: balanced, nothing newly started, and `v` logged unless
      reading its own content raised. */
  ghost predicate Booked(g: Graph, f: Flow, v: Id, after: Flow) {
    && Balanced(g, after)
    && Starts(after.events) == Starts(f.events)
    && (after.done == f.done + [v] || (after.crashed && after.done == f.done))
  }

  lemma PostBalances(g: Graph, f: Flow, v: Id, r: Reply)
    requires Sound(g, f) && v in g.specs && Balanced(g, f) && !f.crashed
    ensures Booked(g, f, v, Post(g, f, v, r))
  {
    hide Work, Reports, Late, Starts, MessageStep, FinishStep, EndStep, WellFormed, Successors, Extend;
    MessageBalances(g, f, v, r);
    var m := MessageStep(g, f, v, r);
    if !m.crashed {
      var h := ErrorStep(g, m, v);
      assert Balanced(g, h) && Starts(h.events) == Starts(m.events) && h.done == m.done;
      FinishBalances(g, h, v);
      EndBalances(g, FinishStep(g, h, v), v, r);
    }
  }

  lemma {:induction false} PostUpToBalances(g: Graph, o: Oracle, f: Flow, from: nat, hi: nat)
    requires Sound(g, f) && from <= hi <= |f.path| && Balanced(g, f) && !f.crashed
    ensures Balanced(g, PostUpTo(g, o, f, from, hi))
    ensures Starts(PostUpTo(g, o, f, from, hi).events) == Starts(f.events)
    ensures !PostUpTo(g, o, f, from, hi).crashed ==>
              PostUpTo(g, o, f, from, hi).done == f.done + f.path[from..hi]
    ensures PostUpTo(g, o, f, from, hi).done <= f.done + f.path[from..hi]
    decreases hi
  {
    hide Post, Balanced, Starts;
    if from < hi {
      PostUpToBalances(g, o, f, from, hi - 1);
      var before := PostUpTo(g, o, f, from, hi - 1);
      if !before.crashed {
        PostBalances(g, before, before.path[hi - 1], o(hi - 1));
      }
      assert f.path[from..hi] == f.path[from..hi - 1] + [before.path[hi - 1]];
    } else {
      assert f.path[from..hi] == [];
    }
  }

  lemma InvokedBalances(g: Graph, o: Oracle, s: RunState)
    requires s.status.Running? && Ready(g, s) && Balanced(g, s.flow)
    ensures Balanced(g, Invoked(g, o, s))
    ensures Starts(Invoked(g, o, s).events) == Starts(s.flow.events) + s.flow.path[s.idx..]
    ensures Invoked(g, o, s).done == s.flow.done && !Invoked(g, o, s).crashed
  {
    hide Work, Reports, Late, Starts, Kept, InvokeUpTo, StartedEvents, WellFormed;
    AddStarts(g, s.flow.events, s.flow.path[s.idx..]);
  }

  /** The log is the executed part of the path since `start`, and every start event belongs to an
      executed or to a deleted component. */
  ghost predicate Logged(s: RunState, start: nat)
  {
    && start <= s.idx <= |s.flow.path|
    && s.flow.done == s.flow.path[start..s.idx]
    && multiset(Starts(s.flow.events)) == multiset(s.flow.done) + s.dropped
  }

  /** The log when a run has failed: the failing batch is still counted, although the path has
      been rolled back. */
  ghost predicate LoggedAtEnd(s: RunState)
  {
    multiset(Starts(s.flow.events)) == multiset(s.flow.done) + s.dropped
  }

  /** The log when a run is cut short, by a cancellation or an exception: of the components that
      were started and not deleted, in path order, a first part has been processed. */
  ghost predicate CutShort(s: RunState, start: nat) {
    exists to: nat :: CutAt(s, start, to)
  }

  ghost predicate CutAt(s: RunState, start: nat, to: nat) {
    && start <= to <= |s.flow.path| && s.flow.done <= s.flow.path[start..to]
    && multiset(Starts(s.flow.events)) == multiset(s.flow.path[start..to]) + s.dropped
  }

  /** A cancellation comes before the batch: all that is pending was started and not processed. */
  ghost predicate CutBefore(s: RunState, start: nat) {
    CutAt(s, start, |s.flow.path|) && start <= s.idx <= |s.flow.path| && s.flow.done == s.flow.path[start..s.idx]
  }

  lemma DroppedSum(g: Graph, s: RunState)
    requires Ready(g, s)
    ensures s.dropped + multiset(s.flow.path[s.idx..]) == DroppedBy(g, s) + multiset(Kept(g, s)[s.idx..])
  {
    hide Keep, WellFormed;
    var before, pending := s.flow.path[..s.idx], s.flow.path[s.idx..];
    KeptAreAdmitted(g, before, pending);
    assert Kept(g, s)[s.idx..] == Keep(g, before, pending);
  }

  /** What a round from `s` to `r` leaves in the books. */
  ghost predicate Books(g: Graph, s: RunState, r: RunState, start: nat) {
    && Balanced(g, r.flow)
    && (r.status in {Running, Finished} ==> Logged(r, start))
    && (r.status in {Failed, Paused} ==> LoggedAtEnd(r))
    && (r.status.Canceled? ==> CutBefore(r, start))
    && (r.status.Crashed? ==> CutShort(r, start))
  }

  lemma RoundBalances(g: Graph, o: Oracle, s: RunState, start: nat)
    requires s.status.Running? && Ready(g, s) && Balanced(g, s.flow) && Logged(s, start)
    ensures Books(g, s, Round(g, o, s), start)
  {
    hide Balanced, Starts, Kept, Invoked, Processed, Conclude, DroppedBy, StartedEvents, WellFormed, Sound;
    if o(s.idx).canceled {
      StartBalances(g, s);
      CutBeforeBatch(g, s, start);
      return;
    }
    var kept, i, f := Kept(g, s), Invoked(g, o, s), Processed(g, o, s);
    InvokedBalances(g, o, s);
    ProcessedIs(g, o, s);
    PostUpToBalances(g, o, i, s.idx, |kept|);
    DroppedSum(g, s);
    assert i.path[s.idx..|kept|] == kept[s.idx..];
    if f.crashed {
      CutInBatch(s, f, kept, DroppedBy(g, s), start);
    } else {
      CloseBooks(g, s, f, kept, DroppedBy(g, s), start);
    }
  }

  lemma CutBeforeBatch(g: Graph, s: RunState, start: nat)
    requires Ready(g, s) && Logged(s, start)
    ensures CutBefore(RunState(s.flow.(events := s.flow.events + StartedEvents(s.flow.path[s.idx..])), s.idx, Canceled,
                               s.dropped), start)
  {
    hide Starts, StartedEvents, WellFormed;
    var pending := s.flow.path[s.idx..];
    AddStarts(g, s.flow.events, pending);
    SumStarts(Starts(s.flow.events), pending, s.flow.done, pending, s.dropped, s.dropped);
    assert s.flow.path[start..] == s.flow.path[start..s.idx] + pending;
    assert s.flow.path[start..|s.flow.path|] == s.flow.path[start..];
  }

  lemma CutInBatch(s: RunState, f: Flow, kept: seq<Id>, dropped: multiset<Id>, start: nat)
    requires Logged(s, start) && s.flow.path[..s.idx] <= kept <= f.path
    requires f.done <= s.flow.done + kept[s.idx..]
    requires Starts(f.events) == Starts(s.flow.events) + s.flow.path[s.idx..]
    requires s.dropped + multiset(s.flow.path[s.idx..]) == dropped + multiset(kept[s.idx..])
    ensures CutShort(RunState(f, s.idx, Crashed, dropped), start)
  {
    hide Starts;
    SumStarts(Starts(s.flow.events), s.flow.path[s.idx..], s.flow.done, kept[s.idx..], s.dropped, dropped);
    assert f.path[start..|kept|] == s.flow.path[start..s.idx] + kept[s.idx..];
    assert CutAt(RunState(f, s.idx, Crashed, dropped), start, |kept|);
  }

  lemma CloseBooks(g: Graph, s: RunState, f: Flow, kept: seq<Id>, dropped: multiset<Id>, start: nat)
    requires Sound(g, f) && !f.crashed && Balanced(g, f) && Logged(s, start)
    requires s.flow.path[..s.idx] <= kept <= f.path
    requires f.done == s.flow.done + kept[s.idx..]
    requires Starts(f.events) == Starts(s.flow.events) + s.flow.path[s.idx..]
    requires s.dropped + multiset(s.flow.path[s.idx..]) == dropped + multiset(kept[s.idx..])
    ensures Books(g, s, Conclude(g, f, s.idx, |kept|, dropped), start)
  {
    hide Balanced, Starts, WellFormed, OfKind, Known, Conclude;
    SumStarts(Starts(s.flow.events), s.flow.path[s.idx..], s.flow.done, kept[s.idx..], s.dropped, dropped);
    assert f.path[start..|kept|] == s.flow.path[start..s.idx] + kept[s.idx..];
    ConcludeBooks(g, f, s.idx, |kept|, dropped, start);
  }

  lemma SumStarts(starts: seq<Id>, pending: seq<Id>, done: seq<Id>, kept: seq<Id>,
                  before: multiset<Id>, after: multiset<Id>)
    requires multiset(starts) == multiset(done) + before
    requires before + multiset(pending) == after + multiset(kept)
    ensures multiset(starts + pending) == multiset(done + kept) + after
  {
    assert multiset(starts + pending) == multiset(starts) + multiset(pending);
    assert multiset(done + kept) == multiset(done) + multiset(kept);
    forall v ensures multiset(starts + pending)[v] == (multiset(done + kept) + after)[v] {
      assert (before + multiset(pending))[v] == (after + multiset(kept))[v];
    }
  }

  lemma ProcessedIs(g: Graph, o: Oracle, s: RunState)
    requires Ready(g, s)
    ensures Processed(g, o, s) == PostUpTo(g, o, Invoked(g, o, s), s.idx, |Kept(g, s)|)
  {
    hide Kept, PostUpTo, WellFormed;
  }

  lemma StartBalances(g: Graph, s: RunState)
    requires Ready(g, s) && Balanced(g, s.flow)
    ensures Balanced(g, s.flow.(events := s.flow.events + StartedEvents(s.flow.path[s.idx..])))
  {
    hide Work, Reports, Late, Starts, StartedEvents, WellFormed;
    AddStarts(g, s.flow.events, s.flow.path[s.idx..]);
  }

  /** The books do not depend on the path, and the events at the end of a run are not theirs. */
  lemma BalancedElsewhere(g: Graph, f: Flow, path: seq<Id>, e: Event)
    requires Balanced(g, f) && e in {UserInputs, WorkflowFinished}
    ensures Balanced(g, f.(path := path)) && Balanced(g, f.(path := path, events := f.events + [e]))
    ensures Balanced(g, f.(events := f.events + [e]))
    ensures Starts(f.events + [e]) == Starts(f.events)
  {
    hide Work, Reports, Late, Starts, Known;
    AddEvent(g, f.events, e);
  }

  lemma ConcludeBooks(g: Graph, f: Flow, idx: nat, hi: nat, dropped: multiset<Id>, start: nat)
    requires Sound(g, f) && !f.crashed && start <= idx <= hi <= |f.path| && Balanced(g, f)
    requires f.done == f.path[start..hi]
    requires multiset(Starts(f.events)) == multiset(f.done) + dropped
    ensures Books(g, RunState(f, idx, Running, dropped), Conclude(g, f, idx, hi, dropped), start)
  {
    hide Balanced, Starts, WellFormed, OfKind, Known;
    BalancedElsewhere(g, f, f.path[..idx], WorkflowFinished);
    assert f.events + [] == f.events;
    BalancedElsewhere(g, f, f.path, WorkflowFinished);
    var r := Conclude(g, f, idx, hi, dropped);
    if r.status.Paused? {
      BalancedElsewhere(g, f, r.flow.path, UserInputs);
    }
    if r.status.Crashed? {
      assert CutAt(r, start, hi);
    }
  }

  /** Accounting over a whole run, at every point where it can stop: processed components are
      reported or queued, the queue is first in first out, and every started component was
      executed or deleted, or was still to be processed when the run was cut short. */
  lemma {:induction false} EveryStartIsAccountedFor(g: Graph, o: Oracle, s: RunState, n: nat)
    requires s.status.Running? && Ready(g, s) && Balanced(g, s.flow) && Logged(s, s.idx)
    ensures Balanced(g, Rounds(g, o, s, n).flow)
    ensures Rounds(g, o, s, n).status in {Running, Finished} ==> Logged(Rounds(g, o, s, n), s.idx)
    ensures Rounds(g, o, s, n).status in {Failed, Paused} ==> LoggedAtEnd(Rounds(g, o, s, n))
    ensures Rounds(g, o, s, n).status.Canceled? ==> CutBefore(Rounds(g, o, s, n), s.idx)
    ensures Rounds(g, o, s, n).status.Crashed? ==> CutShort(Rounds(g, o, s, n), s.idx)
    decreases n
  {
    hide Round, Balanced, Logged, LoggedAtEnd, CutBefore, CutShort, Sound;
    if n > 0 {
      var t := Rounds(g, o, s, n - 1);
      EveryStartIsAccountedFor(g, o, s, n - 1);
      if t.status.Running? {
        RoundBalances(g, o, t, s.idx);
      } else {
        RoundOver(g, o, t);
      }
    }
  }

  /** A run enters its loop with clean books. */
  lemma EnterIsBalanced(g: Graph, path: seq<Id>, comps: Comps)
    requires WellFormed(g) && Known(g, path) && comps.Keys == g.specs.Keys
    ensures Balanced(g, Enter(g, path, comps, false).flow)
    ensures Logged(Enter(g, path, comps, false), Enter(g, path, comps, false).idx)
  {
    var s := Enter(g, path, comps, false);
    assert [WorkflowStarted] == [] + [WorkflowStarted];
    AddEvent(g, [], WorkflowStarted);
    assert s.flow.path[s.idx..s.idx] == [];
  }
}
