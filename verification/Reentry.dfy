/** Why termination needs containers to be entered only so often: a loop whose successor is the loop
    itself never ends, although it allows no pass at all and all its other cycles are counted. */
module Reentry {
  import opened LoopConditions
  import opened Components
  import opened Scheduler
  import opened SchedulerLemmas
  import opened Unrolling
  import opened Loops

  /** A loop that hands control back to itself, with a maximum of no pass. */
  ghost predicate SelfFeeding(g: Graph, x: LoopSite) {
    && FitsLoop(g, x)
    && g.specs[x.p].downstream == [x.p] && g.specs[x.p].maxLoops == 0
  }

  /** Nothing ever goes wrong, and the loop's test never holds. */
  ghost predicate Undisturbed(g: Graph, o: Oracle, x: LoopSite)
    requires x.p in g.specs
  {
    forall i: nat :: UndisturbedAt(g, o, x, i)
  }

  ghost predicate UndisturbedAt(g: Graph, o: Oracle, x: LoopSite, i: nat)
    requires x.p in g.specs
  {
    Quiet(o(i), {}) && VerdictOf(g.specs[x.p].conditions, g.specs[x.p].logic, o(i).readings).Go?
  }

  /** Control is at the item, with everything in place for another turn. */
  ghost predicate Orbit(g: Graph, s: RunState, x: LoopSite, counter: int) {
    && Solo(g, s, x.item) && x.item in s.flow.comps && s.flow.comps[x.item].counter == counter
    && Stocked(g, s.flow.path, s.flow.comps, x)
  }

  ghost predicate Stocked(g: Graph, path: seq<Id>, comps: Comps, x: LoopSite) {
    && path != [] && Supplied(g, path[..|path| - 1], x.item) && Supplied(g, path, x.p) && BodySupplied(g, path, x.body)
    && NoErrors(comps, [x.item] + x.body) && NoErrors(comps, [x.p])
  }

  lemma StockedMore(g: Graph, path: seq<Id>, more: seq<Id>, before: Comps, after: Comps, x: LoopSite)
    requires Stocked(g, path, before, x) && path <= more
    requires NoErrors(after, [x.item] + x.body) && NoErrors(after, [x.p])
    ensures Stocked(g, more, after, x)
  {
    hide Supplied, BodySupplied, NoErrors;
    var a, b := path[..|path| - 1], more[..|more| - 1];
    forall e | e in a ensures e in b {
      var k :| 0 <= k < |a| && a[k] == e;
      assert b[k] == e;
    }
    SuppliedMore(g, a, b, x.item);
    assert forall e | e in path :: e in more;
    SuppliedMore(g, path, more, x.p);
    BodySuppliedMore(g, path, more, x.body);
  }

  /** The run moved on by the single component `w`. */
  ghost predicate Moved(g: Graph, s: RunState, t: RunState, w: Id) {
    Solo(g, t, w) && t.flow.path == s.flow.path + [w] && t.idx == s.idx + 1
  }

  // ----- the container's own round -----

  lemma ContainerRound(g: Graph, o: Oracle, s: RunState, x: LoopSite)
    requires FitsLoop(g, x) && Solo(g, s, x.p) && Supplied(g, s.flow.path[..s.idx], x.p)
    requires Quiet(o(s.idx), {}) && s.flow.comps[x.p].error == ""
    ensures OnwardDone(g, s, Round(g, o, s), {}, x.item)
  {
    hide Round, WellFormed, Supplied, Successors;
    ContainerOnward(g, x.p, x.item, x.body);
    OnwardRound(g, o, s, {}, x.p, x.item);
  }

  // ----- the item's rounds -----

  /** Invoked at counter 0 the item ends, invoked at -1 it starts over. */
  lemma ItemRound(g: Graph, o: Oracle, s: RunState, x: LoopSite, counter: int)
    requires SelfFeeding(g, x) && Undisturbed(g, o, x) && Orbit(g, s, x, counter) && counter in {0, -1}
    ensures Moved(g, s, Round(g, o, s), if counter == 0 then x.p else x.body[0])
    ensures Stocked(g, s.flow.path, Round(g, o, s).flow.comps, x)
    ensures x.item in Round(g, o, s).flow.comps
    ensures Round(g, o, s).flow.comps[x.item].counter == (if counter == 0 then -1 else 0)
  {
    hide Round, WellFormed, Straight, Processed, Invoked, InvokeLoopItem, Post, Supplied, BodySupplied, Alike,
      VerdictOf, Kept;
    LoopSiteFacts(g, x);
    assert UndisturbedAt(g, o, x, s.idx);
    assert s.flow.comps[([x.item] + x.body)[0]].error == "";
    hide NoErrors, Undisturbed;
    assert s.flow.path[..|s.flow.path| - 1] == s.flow.path[..s.idx];
    SoloProcessed(g, o, s, x.item);
    ItemInvoked(g, s.flow.comps, x);
    var i, f := Invoked(g, o, s), Processed(g, o, s);
    ItemPost(g, i, x.p, x.item, x.body, o(s.idx));
    AlikeCalm(s.flow.comps, i.comps, f.comps, x.item);
    ErrorFree(s.flow.comps, f.comps, x.item, [x.item] + x.body);
    ErrorFree(s.flow.comps, f.comps, x.item, [x.p]);
    AlikeKeys(i.comps, f.comps, x.item);
    if counter == 0 {
      AppendedOne(s.flow.path, x.item, x.p);
      ContainerIsNoForm(g, x);
      SoloMove(g, o, s, x.item, x.p);
    } else {
      SoloMove(g, o, s, x.item, x.body[0]);
    }
    StockedMore(g, s.flow.path, s.flow.path, s.flow.comps, f.comps, x);
  }

  lemma AlikeKeys(a: Comps, b: Comps, item: Id)
    requires item in a && Alike(a, b, item)
    ensures item in b
  {
  }

  lemma ContainerIsNoForm(g: Graph, x: LoopSite)
    requires FitsLoop(g, x)
    ensures x.p in g.specs && g.specs[x.p].kind.Loop?
  {
  }

  lemma ItemInvoked(g: Graph, comps: Comps, x: LoopSite)
    requires SelfFeeding(g, x) && comps.Keys == g.specs.Keys && comps[x.item].counter in {0, -1}
    ensures g.specs[x.item].kind.LoopItem?
    ensures var after := InvokeLoopItem(g, comps, x.item);
      Calm(comps, after, x.item) && after[x.item].counter == (if comps[x.item].counter == 0 then -1 else 0)
  {
    assert WellFormedSpec(g, x.item);
    hide WellFormed;
  }

  // ----- one turn, and all turns -----

  /** From counter 0 through the container back to the item. */
  lemma FirstHalf(g: Graph, o: Oracle, s: RunState, x: LoopSite)
    requires SelfFeeding(g, x) && Undisturbed(g, o, x) && Orbit(g, s, x, 0)
    ensures var t := Round(g, o, s); t.status.Running? && Ready(g, t) && Orbit(g, Round(g, o, t), x, -1)
  {
    hide Round, WellFormed, Straight, Supplied, BodySupplied, Steady, VerdictOf, Kept;
    LoopSiteFacts(g, x);
    ItemRound(g, o, s, x, 0);
    var t := Round(g, o, s);
    assert UndisturbedAt(g, o, x, t.idx);
    assert t.flow.path[..t.idx] == s.flow.path;
    assert t.flow.comps[[x.p][0]].error == "";
    ContainerRound(g, o, t, x);
    var u := Round(g, o, t);
    SteadyErrors(t.flow.comps, u.flow.comps, {}, [x.item] + x.body);
    SteadyErrors(t.flow.comps, u.flow.comps, {}, [x.p]);
    SteadyAt(t.flow.comps, u.flow.comps, {}, x.item);
    StockedMore(g, s.flow.path, u.flow.path, t.flow.comps, u.flow.comps, x);
  }

  /** From counter -1 through the body back to the item. */
  lemma SecondHalf(g: Graph, o: Oracle, s: RunState, x: LoopSite)
    requires SelfFeeding(g, x) && Undisturbed(g, o, x) && Orbit(g, s, x, -1)
    ensures var t := Round(g, o, s); t.status.Running? && Ready(g, t) && Orbit(g, Rounds(g, o, t, |x.body|), x, 0)
  {
    hide Round, Rounds, WellFormed, Straight, Supplied, Steady, VerdictOf, Kept;
    LoopSiteFacts(g, x);
    ItemRound(g, o, s, x, -1);
    var t := Round(g, o, s);
    assert t.flow.path[..t.idx] == s.flow.path;
    TailErrors(t.flow.comps, x.item, x.body);
    QuietForever(g, o, x, t.idx, t.idx + |x.body|);
    BodyRun(g, o, t, x.p, {}, x.item, x.body, |x.body|);
    assert x.body[..|x.body|] == x.body;
    var u := Rounds(g, o, t, |x.body|);
    SteadyErrors(t.flow.comps, u.flow.comps, {}, [x.item] + x.body);
    SteadyErrors(t.flow.comps, u.flow.comps, {}, [x.p]);
    SteadyAt(t.flow.comps, u.flow.comps, {}, x.item);
    StockedMore(g, s.flow.path, u.flow.path, t.flow.comps, u.flow.comps, x);
  }

  lemma QuietForever(g: Graph, o: Oracle, x: LoopSite, lo: nat, hi: nat)
    requires x.p in g.specs && Undisturbed(g, o, x)
    ensures QuietBetween(o, {}, lo, hi)
  {
    forall i: nat | lo <= i < hi ensures Quiet(o(i), {}) {
      assert UndisturbedAt(g, o, x, i);
    }
  }

  /** Rounds of one turn. */
  function TurnLength(x: LoopSite): nat {
    |x.body| + 3
  }

  lemma OneTurn(g: Graph, o: Oracle, s: RunState, x: LoopSite)
    requires SelfFeeding(g, x) && Undisturbed(g, o, x) && Orbit(g, s, x, 0)
    ensures Orbit(g, Rounds(g, o, s, TurnLength(x)), x, 0)
  {
    hide Round, WellFormed, Stocked, FitsLoop, Undisturbed;
    FirstHalf(g, o, s, x);
    var t := Round(g, o, s);
    var u := Round(g, o, t);
    SecondHalf(g, o, u, x);
    assert Rounds(g, o, s, 0) == s;
    OneMoreRound(g, o, s, 0);
    OneMoreRound(g, o, s, 1);
    OneMoreRound(g, o, s, 2);
    RoundsAdd(g, o, s, 3, |x.body|);
  }

  lemma {:induction false} TurnsOn(g: Graph, o: Oracle, s: RunState, x: LoopSite, n: nat)
    requires SelfFeeding(g, x) && Undisturbed(g, o, x) && Orbit(g, s, x, 0)
    ensures Orbit(g, Rounds(g, o, s, n * TurnLength(x)), x, 0)
    decreases n
  {
    hide Round, WellFormed, Stocked, SelfFeeding, Undisturbed, TurnLength;
    if n == 0 {
      assert Rounds(g, o, s, 0) == s;
    } else {
      TurnsOn(g, o, s, x, n - 1);
      OneTurn(g, o, Rounds(g, o, s, (n - 1) * TurnLength(x)), x);
      RoundsAdd(g, o, s, (n - 1) * TurnLength(x), TurnLength(x));
      assert n * TurnLength(x) == (n - 1) * TurnLength(x) + TurnLength(x);
    }
  }

  /** The run never ends. */
  lemma SelfFeedingLoopNeverEnds(g: Graph, o: Oracle, s: RunState, x: LoopSite, n: nat)
    requires SelfFeeding(g, x) && Undisturbed(g, o, x) && Orbit(g, s, x, 0)
    ensures Rounds(g, o, s, n).status.Running?
  {
    hide Round, WellFormed, Stocked, SelfFeeding, Undisturbed;
    TurnsOn(g, o, s, x, n);
    assert n * TurnLength(x) >= n;
    RunningBefore(g, o, s, n, n * TurnLength(x));
  }
}
