/** What holds of every run, whatever the components do: the executed part of the path never
    changes, a failing batch is rolled back, producers run before consumers, and control edges
    justify everything that is scheduled. */
module Runs {
  import opened Components
  import opened Scheduler
  import opened SchedulerLemmas

  // ----- the greedy filter -----

  lemma {:induction false} KeepAppend(g: Graph, before: seq<Id>, pending: seq<Id>, v: Id)
    requires Known(g, pending) && v in g.specs
    ensures Keep(g, before, pending + [v]) ==
            Keep(g, before, pending) + (if Admitted(g, before + Keep(g, before, pending), v) then [v] else [])
    decreases |pending|
  {
    hide Admitted;
    if pending == [] {
      assert pending + [v] == [v];
      assert before + [] == before;
    } else {
      var u, rest := pending[0], pending[1..];
      assert (pending + [v])[1..] == rest + [v];
      if Admitted(g, before, u) {
        KeepAppend(g, before + [u], rest, v);
        assert before + [u] + Keep(g, before + [u], rest) == before + ([u] + Keep(g, before + [u], rest));
      } else {
        KeepAppend(g, before, rest, v);
      }
    }
  }

  /** The batch filter is the greedy one: each pending component survives exactly when it is
      admitted after the survivors to its left, and survivors are never revised. */
  lemma {:induction false} BatchIsGreedy(g: Graph, before: seq<Id>, pending: seq<Id>, j: nat)
    requires Known(g, pending) && j < |pending|
    ensures Keep(g, before, pending[..j + 1]) <= Keep(g, before, pending)
    ensures Keep(g, before, pending[..j + 1]) ==
            Keep(g, before, pending[..j]) +
            (if Admitted(g, before + Keep(g, before, pending[..j]), pending[j]) then [pending[j]] else [])
    decreases |pending|
  {
    hide Admitted;
    assert pending[..j + 1] == pending[..j] + [pending[j]];
    KeepAppend(g, before, pending[..j], pending[j]);
    if j + 1 < |pending| {
      var shorter := pending[..|pending| - 1];
      assert pending == shorter + [pending[|pending| - 1]];
      assert shorter[..j + 1] == pending[..j + 1];
      BatchIsGreedy(g, before, shorter, j);
      KeepAppend(g, before, shorter, pending[|pending| - 1]);
    } else {
      assert pending[..j + 1] == pending;
    }
  }

  /** Every survivor is admitted by what precedes it, and none is invented. */
  lemma {:induction false} KeptAreAdmitted(g: Graph, before: seq<Id>, pending: seq<Id>)
    requires Known(g, pending)
    ensures forall k | 0 <= k < |Keep(g, before, pending)| ::
      Admitted(g, before + Keep(g, before, pending)[..k], Keep(g, before, pending)[k])
    ensures forall k | 0 <= k < |Keep(g, before, pending)| :: Keep(g, before, pending)[k] in pending
    ensures multiset(Keep(g, before, pending)) <= multiset(pending)
    decreases |pending|
  {
    hide Admitted;
    if pending != [] {
      var last := |pending| - 1;
      var kept := Keep(g, before, pending[..last]);
      assert pending == pending[..last] + [pending[last]];
      KeptAreAdmitted(g, before, pending[..last]);
      KeepAppend(g, before, pending[..last], pending[last]);
      forall k | 0 <= k < |Keep(g, before, pending)|
        ensures Admitted(g, before + Keep(g, before, pending)[..k], Keep(g, before, pending)[k])
        ensures Keep(g, before, pending)[k] in pending
      {
        if k < |kept| {
          assert Keep(g, before, pending)[..k] == kept[..k];
        } else {
          assert Keep(g, before, pending)[..k] == kept;
        }
      }
    }
  }

  // ----- rounds -----

  /** How a round from `s` to `r` may move the path, by outcome. */
  ghost predicate Shape(g: Graph, o: Oracle, s: RunState, r: RunState)
    requires Ready(g, s)
  {
    match r.status
    case Running =>
      Kept(g, s) <= r.flow.path && r.idx == |Kept(g, s)| && r.flow.path == Processed(g, o, s).path
    case Finished => r.flow.path == Kept(g, s) && r.idx == |r.flow.path| && r.flow.error == ""
    case Failed => r.flow.path == s.flow.path[..s.idx] && r.idx == s.idx && r.flow.error != ""
    case Paused => true
    case Canceled => r.flow.path == s.flow.path && r.idx == s.idx
    case Crashed => Kept(g, s) <= r.flow.path && s.idx <= r.idx
  }

  lemma RoundShape(g: Graph, o: Oracle, s: RunState)
    requires s.status.Running? && Ready(g, s)
    ensures Shape(g, o, s, Round(g, o, s))
  {
    hide Kept, Invoked, Processed, Conclude, DroppedBy, StartedEvents, Sound;
    var f := Processed(g, o, s);
    if !o(s.idx).canceled && !f.crashed {
      assert f.path[..s.idx] == Kept(g, s)[..s.idx] == s.flow.path[..s.idx];
      ConcludeShape(g, f, s.idx, Kept(g, s), DroppedBy(g, s));
    }
  }

  lemma ConcludeShape(g: Graph, f: Flow, idx: nat, kept: seq<Id>, dropped: multiset<Id>)
    requires Sound(g, f) && !f.crashed && idx <= |kept| && kept <= f.path
    ensures var r := Conclude(g, f, idx, |kept|, dropped);
      match r.status
      case Running => r.flow.path == f.path && r.idx == |kept|
      case Finished => r.flow.path == kept && r.idx == |kept| && r.flow.error == ""
      case Failed => r.flow.path == f.path[..idx] && r.idx == idx && r.flow.error != ""
      case Paused => true
      case Canceled => false
      case Crashed => r.flow.path == f.path && r.idx == |kept|
  {
    hide OfKind;
  }

  lemma EmptyBatch(g: Graph, o: Oracle, f: Flow, i: nat)
    requires Sound(g, f) && i <= |f.path|
    ensures PostUpTo(g, o, f, i, i) == f
  {
  }

  /** The executed part of the path. */
  function Executed(s: RunState): seq<Id>
    requires s.idx <= |s.flow.path|
  {
    s.flow.path[..s.idx]
  }

  /** What `s` had executed is still at the front of the path in `r`, which has not gone back. */
  ghost predicate Extends(s: RunState, r: RunState)
    requires s.idx <= |s.flow.path|
  {
    !r.status.Paused? ==> Executed(s) <= r.flow.path && s.idx <= r.idx
  }

  lemma RoundKeepsPrefix(g: Graph, o: Oracle, s: RunState)
    requires s.status.Running? && Ready(g, s)
    ensures Extends(s, Round(g, o, s))
  {
    hide Round, Keep, Processed;
    RoundShape(g, o, s);
  }

  /** Once executed, a position of the path is never edited again, up to the end of the run. */
  lemma {:induction false} ExecutedPrefixIsStable(g: Graph, o: Oracle, s: RunState, m: nat, n: nat)
    requires s.status.Running? && Ready(g, s) && m <= n
    requires Rounds(g, o, s, m).status.Running?
    ensures Extends(Rounds(g, o, s, m), Rounds(g, o, s, n))
    decreases n
  {
    hide Round;
    if m < n {
      var t := Rounds(g, o, s, n - 1);
      ExecutedPrefixIsStable(g, o, s, m, n - 1);
      if t.status.Running? {
        RoundKeepsPrefix(g, o, t);
        assert Executed(Rounds(g, o, s, m)) == t.flow.path[..Rounds(g, o, s, m).idx];
      } else {
        RoundOver(g, o, t);
      }
    }
  }

  /** How a run may end, when `before` was its last round head. */
  ghost predicate Ending(before: RunState, after: RunState)
    requires before.idx <= |before.flow.path|
  {
    && (after.status.Failed? ==> after.flow.path == Executed(before) && after.flow.error != "")
    && (after.status.Finished? ==> after.idx == |after.flow.path| && after.flow.error == "")
  }

  /** A run that fails ends with exactly what had been executed before the failing batch; a run
      that finishes ends with nothing pending. */
  lemma EndOfRun(g: Graph, o: Oracle, s: RunState, n: nat)
    requires s.status.Running? && Ready(g, s) && Rounds(g, o, s, n).status.Running?
    ensures Ending(Rounds(g, o, s, n), Rounds(g, o, s, n + 1))
  {
    hide Round, Kept, Processed;
    RoundShape(g, o, Rounds(g, o, s, n));
  }

  /** A run that pauses for a form leaves only what was pending, forms first, in an otherwise
      unchanged order: the executed part of the path is gone. */
  lemma PauseKeepsOnlyPending(g: Graph, o: Oracle, s: RunState)
    requires s.status.Running? && Ready(g, s) && Round(g, o, s).status.Paused?
    ensures Kept(g, s) <= Processed(g, o, s).path
    ensures var pending := Processed(g, o, s).path[|Kept(g, s)|..];
      && Round(g, o, s).flow.path == OfKind(g, pending, UserFillUp, true) + OfKind(g, pending, UserFillUp, false)
      && multiset(Round(g, o, s).flow.path) == multiset(pending)
  {
    hide Kept, Invoked, Processed, DroppedBy, StartedEvents, OfKind, WellFormed;
    OfKindSplits(g, Processed(g, o, s).path[|Kept(g, s)|..], UserFillUp);
  }

  lemma {:induction false} OfKindSplits(g: Graph, ids: seq<Id>, k: Kind)
    requires Known(g, ids)
    ensures multiset(OfKind(g, ids, k, true) + OfKind(g, ids, k, false)) == multiset(ids)
  {
    if ids != [] {
      var init, v := ids[..|ids| - 1], ids[|ids| - 1];
      OfKindSplits(g, init, k);
      assert ids == init + [v];
      var yes, no := OfKind(g, init, k, true), OfKind(g, init, k, false);
      assert OfKind(g, ids, k, true) == if g.specs[v].kind == k then yes + [v] else yes;
      assert OfKind(g, ids, k, false) == if g.specs[v].kind == k then no else no + [v];
      hide OfKind, Known;
      SplitMore(yes, no, v);
    }
  }

  lemma SplitMore(yes: seq<Id>, no: seq<Id>, v: Id)
    ensures multiset(yes + [v] + no) == multiset(yes + no) + multiset{v}
    ensures multiset(yes + (no + [v])) == multiset(yes + no) + multiset{v}
  {
    assert multiset(yes + [v] + no) == multiset(yes) + multiset{v} + multiset(no);
    assert multiset(yes + (no + [v])) == multiset(yes) + (multiset(no) + multiset{v});
  }

  // ----- dependencies -----

  /** Every position in `from..to` was admitted by what precedes it on the path. */
  ghost predicate AllAdmitted(g: Graph, path: seq<Id>, from: nat, to: nat) {
    Known(g, path) && to <= |path| && forall p | from <= p < to :: Admitted(g, path[..p], path[p])
  }

  lemma KeptExtends(g: Graph, s: RunState, start: nat)
    requires Ready(g, s) && start <= s.idx && AllAdmitted(g, s.flow.path, start, s.idx)
    ensures AllAdmitted(g, Kept(g, s), start, |Kept(g, s)|)
  {
    hide Admitted, Keep;
    var before, pending := s.flow.path[..s.idx], s.flow.path[s.idx..];
    var kept := Keep(g, before, pending);
    KeptAreAdmitted(g, before, pending);
    forall p | start <= p < |Kept(g, s)| ensures Admitted(g, Kept(g, s)[..p], Kept(g, s)[p]) {
      if p < s.idx {
        assert Kept(g, s)[..p] == s.flow.path[..p];
      } else {
        assert Kept(g, s)[..p] == before + kept[..p - s.idx];
      }
    }
  }

  lemma {:induction false} AdmittedThroughout(g: Graph, o: Oracle, s: RunState, n: nat)
    requires s.status.Running? && Ready(g, s)
    requires Rounds(g, o, s, n).status.Running? || Rounds(g, o, s, n).status.Finished?
    ensures AllAdmitted(g, Rounds(g, o, s, n).flow.path, s.idx, Rounds(g, o, s, n).idx)
    ensures s.idx <= Rounds(g, o, s, n).idx
  {
    hide Round, Keep, Admitted;
    if n > 0 {
      var t := Rounds(g, o, s, n - 1);
      if t.status.Running? {
        AdmittedThroughout(g, o, s, n - 1);
        RoundShape(g, o, t);
        KeptExtends(g, t, s.idx);
        var path := Rounds(g, o, s, n).flow.path;
        forall p | s.idx <= p < |Kept(g, t)| ensures Admitted(g, path[..p], path[p]) {
          assert path[..p] == Kept(g, t)[..p];
        }
      } else {
        RoundOver(g, o, t);
        AdmittedThroughout(g, o, s, n - 1);
      }
    }
  }

  /** Dependency order over a whole run: unless the path starts with a form, every executed
      component other than begin and forms has all its producers earlier on the path. */
  lemma ProducersComeFirst(g: Graph, o: Oracle, s: RunState, n: nat, p: nat, producer: Id)
    requires s.status.Running? && Ready(g, s)
    requires Rounds(g, o, s, n).status.Running? || Rounds(g, o, s, n).status.Finished?
    requires s.idx <= p < Rounds(g, o, s, n).idx <= |Rounds(g, o, s, n).flow.path|
    requires Known(g, Rounds(g, o, s, n).flow.path)
    requires var path := Rounds(g, o, s, n).flow.path;
      !NamesFillUp(path[0]) && g.specs[path[p]].kind !in {Begin, UserFillUp} &&
      producer in g.specs[path[p]].needs && producer != ""
    ensures producer in Rounds(g, o, s, n).flow.path[..p]
  {
    hide Round, NamesFillUp;
    AdmittedThroughout(g, o, s, n);
    var path := Rounds(g, o, s, n).flow.path;
    assert Admitted(g, path[..p], path[p]);
    assert (path[..p] + [path[p]])[0] == path[0];
  }

  // ----- control edges -----

  lemma SuccessorEdges(g: Graph, comps: Comps, v: Id)
    requires WellFormed(g) && v in g.specs && v in comps
    ensures forall x | x in Successors(g, v, Ended(g, comps, v), RouteOf(g.specs[v], comps[v])) :: Edge(g, v, x)
  {
    var ended := Ended(g, comps, v);
    var route := RouteOf(g.specs[v], comps[v]);
    forall x | x in Successors(g, v, ended, route) ensures Edge(g, v, x) {
      if IsRouter(g.specs[v].kind) {
        assert route in g.specs[v].routes;
      } else {
        assert Successors(g, v, ended, route) == Successors(g, v, ended, []);
      }
    }
  }

  /** Post-processing `v` appends only targets of control edges out of `v`. */
  lemma PostEdges(g: Graph, f: Flow, v: Id, r: Reply)
    requires Sound(g, f) && v in g.specs
    ensures forall x | x in Post(g, f, v, r).path[|f.path|..] :: Edge(g, v, x)
  {
    hide Edge, Successors, Drain, Streamed;
    var m := MessageStep(g, f, v, r);
    if m.crashed {
      return;
    }
    var h := ErrorStep(g, m, v);
    var e := EndStep(g, FinishStep(g, h, v), v, r);
    var added := h.path[|f.path|..];
    assert forall x | x in added :: Edge(g, v, x) by {
      if ReactionTo(g.specs[v], m.comps[v].error).Jump? {
        assert added == g.specs[v].excGoto;
        GotoEdges(g, v);
      }
    }
    if e.crashed || ReactionTo(g.specs[v], m.comps[v].error).Jump? {
      return;
    }
    assert h.path == f.path;
    var targets := Successors(g, v, Ended(g, e.comps, v), RouteOf(g.specs[v], e.comps[v]));
    SuccessorEdges(g, e.comps, v);
    ExtendIds(g, f.path, targets);
  }

  lemma GotoEdges(g: Graph, v: Id)
    requires WellFormed(g) && v in g.specs && g.specs[v].excMethod != ""
    ensures forall x | x in g.specs[v].excGoto :: Edge(g, v, x)
  {
  }

  lemma {:induction false} PostUpToEdges(g: Graph, o: Oracle, f: Flow, from: nat, hi: nat, j: nat)
    returns (q: nat)
    requires Sound(g, f) && from <= hi <= |f.path|
    requires |f.path| <= j < |PostUpTo(g, o, f, from, hi).path|
    ensures from <= q < hi && Edge(g, f.path[q], PostUpTo(g, o, f, from, hi).path[j])
    decreases hi
  {
    hide Post, Edge;
    var before := PostUpTo(g, o, f, from, hi - 1);
    if before.crashed || j < |before.path| {
      q := PostUpToEdges(g, o, f, from, hi - 1, j);
    } else {
      q := hi - 1;
      var v := before.path[q];
      PostEdges(g, before, v, o(q));
      var after := Post(g, before, v, o(q));
      assert after.path[|before.path|..][j - |before.path|] == after.path[j];
    }
  }

  /** Position `j` is justified by an edge from an executed position before it. */
  ghost predicate JustifiedAt(g: Graph, s: RunState, start: nat, j: nat)
    requires WellFormed(g) && j < |s.flow.path| && s.idx <= |s.flow.path|
  {
    exists q: nat :: start <= q < j && q < s.idx && Edge(g, s.flow.path[q], s.flow.path[j])
  }

  ghost predicate Justified(g: Graph, s: RunState, start: nat)
    requires WellFormed(g)
  {
    s.idx <= |s.flow.path| && (s.idx == start ==> |s.flow.path| <= start + 1) &&
    forall j | start < j < |s.flow.path| :: JustifiedAt(g, s, start, j)
  }

  lemma RoundJustified(g: Graph, o: Oracle, s: RunState, start: nat)
    requires s.status.Running? && Ready(g, s) && start <= s.idx && Justified(g, s, start)
    ensures Round(g, o, s).status in {Running, Finished} ==> Justified(g, Round(g, o, s), start)
  {
    hide Round, Keep, Edge, PostUpTo, InvokeUpTo, Admitted, WellFormed;
    var r := Round(g, o, s);
    RoundShape(g, o, s);
    if !(r.status.Running? || r.status.Finished?) {
      return;
    }
    var before, pending := s.flow.path[..s.idx], s.flow.path[s.idx..];
    var kept := Kept(g, s);
    KeptAreAdmitted(g, before, pending);
    EmptyBatch(g, o, Invoked(g, o, s), s.idx);
    forall j | start < j < |r.flow.path| ensures JustifiedAt(g, r, start, j) {
      if j < s.idx {
        assert JustifiedAt(g, s, start, j);
      } else if j < |kept| {
        assert r.flow.path[j] == kept[j] == Keep(g, before, pending)[j - s.idx];
        var k :| 0 <= k < |pending| && pending[k] == kept[j];
        assert |kept| - s.idx <= |pending|;
        assert JustifiedAt(g, s, start, s.idx + k);
      } else {
        var q := PostUpToEdges(g, o, Invoked(g, o, s), s.idx, |kept|, j);
        assert r.flow.path[q] == kept[q];
      }
    }
  }

  lemma {:induction false} AlwaysJustified(g: Graph, o: Oracle, s: RunState, n: nat)
    requires s.status.Running? && Ready(g, s) && |s.flow.path| == s.idx + 1
    requires Rounds(g, o, s, n).status.Running? || Rounds(g, o, s, n).status.Finished?
    ensures Justified(g, Rounds(g, o, s, n), s.idx) && s.idx <= Rounds(g, o, s, n).idx
  {
    hide Round, JustifiedAt;
    if n > 0 {
      var t := Rounds(g, o, s, n - 1);
      if t.status.Running? {
        AlwaysJustified(g, o, s, n - 1);
        RoundJustified(g, o, t, s.idx);
        RoundKeepsPrefix(g, o, t);
      } else {
        RoundOver(g, o, t);
        AlwaysJustified(g, o, s, n - 1);
      }
    }
  }

  ghost predicate Walk(g: Graph, w: seq<Id>)
    requires WellFormed(g)
  {
    w != [] && forall i | 0 < i < |w| :: Edge(g, w[i - 1], w[i])
  }

  ghost predicate Reaches(g: Graph, a: Id, b: Id)
    requires WellFormed(g)
  {
    exists w :: Walk(g, w) && w[0] == a && w[|w| - 1] == b
  }

  lemma ReachesStep(g: Graph, a: Id, b: Id, c: Id)
    requires WellFormed(g) && Reaches(g, a, b) && Edge(g, b, c)
    ensures Reaches(g, a, c)
  {
    hide Edge;
    var w :| Walk(g, w) && w[0] == a && w[|w| - 1] == b;
    assert Walk(g, w + [c]);
  }

  lemma {:induction false} JustifiedReaches(g: Graph, s: RunState, start: nat, j: nat)
    requires WellFormed(g) && Justified(g, s, start) && start <= j < |s.flow.path|
    ensures Reaches(g, s.flow.path[start], s.flow.path[j])
    decreases j
  {
    hide Edge;
    if j == start {
      assert Walk(g, [s.flow.path[start]]);
    } else {
      assert JustifiedAt(g, s, start, j);
      var q: nat :| start <= q < j && q < s.idx && Edge(g, s.flow.path[q], s.flow.path[j]);
      JustifiedReaches(g, s, start, q);
      ReachesStep(g, s.flow.path[start], s.flow.path[q], s.flow.path[j]);
    }
  }

  /** Everything a run has scheduled, executed or pending, is reachable over control edges from
      the component it started with. */
  lemma ScheduledIsReachable(g: Graph, o: Oracle, s: RunState, n: nat, j: nat)
    requires s.status.Running? && Ready(g, s) && |s.flow.path| == s.idx + 1
    requires Rounds(g, o, s, n).status.Running? || Rounds(g, o, s, n).status.Finished?
    requires s.idx <= j < |Rounds(g, o, s, n).flow.path|
    ensures Reaches(g, Rounds(g, o, s, n).flow.path[s.idx], Rounds(g, o, s, n).flow.path[j])
  {
    hide Round, Reaches;
    AlwaysJustified(g, o, s, n);
    JustifiedReaches(g, Rounds(g, o, s, n), s.idx, j);
  }
}
