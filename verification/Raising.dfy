/** When post-processing raises. An exception there is not caught: it leaves the run, and neither
    the handler of the component nor the error it recorded is looked at any more. */
module Raising {
  import opened LoopConditions
  import opened Components
  import opened Scheduler
  import opened Runs

  /** A message whose stream raises or that has no content, a loop item whose test raises, or a
      router without a chosen route that does not jump. */
  predicate Raises(g: Graph, f: Flow, v: Id, r: Reply)
    requires Sound(g, f) && v in g.specs
  {
    assert WellFormedSpec(g, v);
    var c, s := g.specs[v], f.comps[v];
    if c.kind.Message? then (if s.pending then r.streaming.raises else s.blank)
    else if c.kind.LoopItem? then
      s.counter != -1 && VerdictOf(g.specs[c.parent.value].conditions, g.specs[c.parent.value].logic, r.readings).Abort?
    else IsRouter(c.kind) && s.next.Cleared? && !ReactionTo(c, s.error).Jump?
  }

  lemma MessageRaises(g: Graph, f: Flow, v: Id, r: Reply)
    requires Sound(g, f) && v in g.specs && !f.crashed
    ensures MessageStep(g, f, v, r).crashed <==> g.specs[v].kind.Message? && Raises(g, f, v, r)
    ensures !g.specs[v].kind.Message? ==> MessageStep(g, f, v, r) == f
  {
    hide WellFormed, Drainable, LateEvents, Streamed;
  }

  /** Reporting and the end test keep the chosen route and the counter, and only the test raises. */
  lemma StepsRaise(g: Graph, f: Flow, v: Id, r: Reply)
    requires Sound(g, f) && v in g.specs && !f.crashed
    ensures var e := EndStep(g, FinishStep(g, ErrorStep(g, f, v), v), v, r);
      && (e.crashed <==> g.specs[v].kind.LoopItem? && Raises(g, f, v, r))
      && e.comps[v].next == f.comps[v].next
  {
    assert WellFormedSpec(g, v);
    hide WellFormed, VerdictOf;
  }

  /** Exactly when post-processing a component raises. */
  lemma PostRaisesExactly(g: Graph, f: Flow, v: Id, r: Reply)
    requires Sound(g, f) && v in g.specs && !f.crashed
    ensures Post(g, f, v, r).crashed <==> Raises(g, f, v, r)
  {
    hide WellFormed, MessageStep, ErrorStep, FinishStep, EndStep, Extend, Successors, VerdictOf;
    MessageRaises(g, f, v, r);
    var m := MessageStep(g, f, v, r);
    if !m.crashed {
      StepsRaise(g, m, v, r);
    }
  }

  /** What an invocation that sets neither content nor route leaves of them. */
  lemma ForeignLeaves(g: Graph, comps: Comps, v: Id, r: Reply)
    requires v in g.specs && v in comps
    ensures var before, after := comps[v], InvokeForeign(g, comps, v, r)[v];
      && (r.content.Untouched? && !before.pending ==> !after.pending)
      && (r.content.Untouched? && !r.outcome.Fine? ==> after.blank == before.blank)
      && (r.route.None? ==> after.next == before.next)
  {
    var others := Written(Settled(comps, r.settled), r.writes);
    assert others[v].blank == comps[v].blank && others[v].next == comps[v].next;
    assert others[v].pending ==> comps[v].pending;
    hide Written, Settled;
  }

  /** A message that failed before it ever had content leaves the run, whatever its handler says. */
  lemma FailedMessageLeavesTheRun(g: Graph, comps: Comps, f: Flow, v: Id, r: Reply, later: Reply)
    requires Sound(g, f) && v in g.specs && g.specs[v].kind.Message? && comps.Keys == g.specs.Keys && !f.crashed
    requires comps[v].blank && !comps[v].pending
    requires !r.outcome.Fine? && r.content.Untouched? && f.comps == Invoke(g, comps, v, r)
    ensures Post(g, f, v, later).crashed
  {
    hide WellFormed, Post, InvokeForeign;
    ForeignLeaves(g, comps, v, r);
    PostRaisesExactly(g, f, v, later);
  }

  /** A router that failed before it chose a route leaves the run unless its handler jumps. */
  lemma FailedRouterLeavesTheRun(g: Graph, comps: Comps, f: Flow, v: Id, r: Reply, later: Reply)
    requires Sound(g, f) && v in g.specs && IsRouter(g.specs[v].kind) && comps.Keys == g.specs.Keys && !f.crashed
    requires comps[v].next.Cleared? && r.route.None? && f.comps == Invoke(g, comps, v, r)
    ensures Post(g, f, v, later).crashed <==> !ReactionTo(g.specs[v], f.comps[v].error).Jump?
  {
    hide WellFormed, Post, InvokeForeign;
    ForeignLeaves(g, comps, v, r);
    PostRaisesExactly(g, f, v, later);
  }

  /** A batch raises exactly at the first component that does. */
  ghost predicate RaisesAt(g: Graph, o: Oracle, f: Flow, from: nat, i: nat)
    requires Sound(g, f) && from <= i < |f.path|
  {
    var before := PostUpTo(g, o, f, from, i);
    !before.crashed && Raises(g, before, f.path[i], o(i))
  }

  lemma LastRaises(g: Graph, o: Oracle, f: Flow, from: nat, hi: nat)
    requires Sound(g, f) && from < hi <= |f.path|
    ensures PostUpTo(g, o, f, from, hi).crashed <==>
            PostUpTo(g, o, f, from, hi - 1).crashed || RaisesAt(g, o, f, from, hi - 1)
  {
    hide Post, WellFormed, Raises;
    var before := PostUpTo(g, o, f, from, hi - 1);
    assert before.path[hi - 1] == f.path[hi - 1];
    if !before.crashed {
      PostRaisesExactly(g, before, f.path[hi - 1], o(hi - 1));
    }
  }

  lemma {:induction false} PostUpToRaisesExactly(g: Graph, o: Oracle, f: Flow, from: nat, hi: nat)
    requires Sound(g, f) && from <= hi <= |f.path| && !f.crashed
    ensures PostUpTo(g, o, f, from, hi).crashed <==> exists i | from <= i < hi :: RaisesAt(g, o, f, from, i)
    decreases hi
  {
    hide PostUpTo, RaisesAt, WellFormed, Known;
    if from == hi {
      EmptyBatch(g, o, f, from);
    } else {
      PostUpToRaisesExactly(g, o, f, from, hi - 1);
      LastRaises(g, o, f, from, hi);
      if PostUpTo(g, o, f, from, hi - 1).crashed {
        var i :| from <= i < hi - 1 && RaisesAt(g, o, f, from, i);
        assert from <= i < hi && RaisesAt(g, o, f, from, i);
      }
    }
  }

  /** A round leaves the run by an exception exactly when post-processing a component of its batch
      raises, or when nothing at all is left on the path. */
  lemma RoundRaisesExactly(g: Graph, o: Oracle, s: RunState)
    requires s.status.Running? && Ready(g, s) && !o(s.idx).canceled
    ensures Round(g, o, s).status.Crashed? <==>
      Kept(g, s) == [] || exists i | s.idx <= i < |Kept(g, s)| :: RaisesAt(g, o, Invoked(g, o, s), s.idx, i)
  {
    assert OfKind(g, [], UserFillUp, true) == [];
    hide Keep, InvokeUpTo, PostUpTo, RaisesAt, WellFormed, StartedEvents, OfKind, DroppedBy;
    PostUpToRaisesExactly(g, o, Invoked(g, o, s), s.idx, |Kept(g, s)|);
    if Kept(g, s) == [] {
      assert Processed(g, o, s).path[|Kept(g, s)|..] == Processed(g, o, s).path;
      EmptyBatch(g, o, Invoked(g, o, s), s.idx);
    }
  }
}
