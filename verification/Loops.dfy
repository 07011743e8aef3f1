/** A loop with a straight-line body runs its body exactly as often as the smaller of its maximum
    count and the number of passes after which its termination test first holds. */
module Loops {
  import opened LoopConditions
  import opened Components
  import opened Scheduler
  import opened Unrolling

  datatype LoopSite = LoopSite(p: Id, item: Id, body: seq<Id>) {
    function Period(): nat {
      |body| + 1
    }
  }

  ghost predicate FitsLoop(g: Graph, x: LoopSite) {
    Straight(g, x.p, x.item, x.body) && g.specs[x.p].kind.Loop?
  }

  /** The configured maximum; no pass at all when it is not positive. */
  function Cap(g: Graph, x: LoopSite): nat
    requires x.p in g.specs
  {
    if g.specs[x.p].maxLoops < 0 then 0 else g.specs[x.p].maxLoops
  }

  /** The outcome of the termination test after `n` completed passes, when the item first runs at
      position `lo`. */
  function TestAfter(g: Graph, o: Oracle, x: LoopSite, lo: nat, n: nat): Verdict
    requires x.p in g.specs
  {
    VerdictOf(g.specs[x.p].conditions, g.specs[x.p].logic, o(lo + n * x.Period()).readings)
  }

  /** `n` is the number of passes: the first at which the maximum is reached or the test holds. */
  ghost predicate Passes(g: Graph, o: Oracle, x: LoopSite, lo: nat, n: nat)
    requires x.p in g.specs
  {
    && n <= Cap(g, x)
    && (forall k: nat | k < n :: TestAfter(g, o, x, lo, k).Go?)
    && (n == Cap(g, x) || TestAfter(g, o, x, lo, n).Stop?)
  }

  /** The smallest number of passes, up to `bound`, after which the test does not say to go on. */
  function FirstHalt(g: Graph, o: Oracle, x: LoopSite, lo: nat, n: nat, bound: nat): (k: nat)
    requires x.p in g.specs && n <= bound
    ensures n <= k <= bound
    ensures k < bound ==> !TestAfter(g, o, x, lo, k).Go?
    ensures forall j | n <= j < k :: TestAfter(g, o, x, lo, j).Go?
    decreases bound - n
  {
    if n == bound || !TestAfter(g, o, x, lo, n).Go? then n else FirstHalt(g, o, x, lo, n + 1, bound)
  }

  /** The number of passes is the minimum of the maximum count and the first pass count at which
      the test holds; it exists and is unique unless the test raises first. */
  lemma PassesIsMinimum(g: Graph, o: Oracle, x: LoopSite, lo: nat, n: nat)
    requires x.p in g.specs
    ensures var k := FirstHalt(g, o, x, lo, 0, Cap(g, x));
      Passes(g, o, x, lo, n) <==> n == k && (k == Cap(g, x) || TestAfter(g, o, x, lo, k).Stop?)
  {
    var k := FirstHalt(g, o, x, lo, 0, Cap(g, x));
    var atN, atK := TestAfter(g, o, x, lo, n), TestAfter(g, o, x, lo, k);
    assert n < k ==> atN.Go?;
  }

  /** Nothing goes wrong in the first `n` passes and in the item's run after them. */
  ghost predicate QuietPasses(o: Oracle, x: LoopSite, lo: nat, n: nat) {
    QuietBetween(o, {}, lo, lo + n * x.Period() + 1)
  }

  ghost predicate EnteringLoop(g: Graph, s: RunState, x: LoopSite) {
    && Solo(g, s, x.item)
    && Supplied(g, s.flow.path[..s.idx], x.item)
    && BodySupplied(g, s.flow.path, x.body)
    && NoErrors(s.flow.comps, [x.item] + x.body)
    && x.item in s.flow.comps && s.flow.comps[x.item].counter == 0
  }

  /** `n` passes are complete in state `r`, and the item is about to run. */
  ghost predicate LoopHead(g: Graph, s: RunState, x: LoopSite, r: RunState, n: nat)
    requires Ready(g, s) && x.item in g.specs
  {
    && Solo(g, r, x.item)
    && r.flow.path == s.flow.path[..s.idx] + Unroll(x.item, x.body, n) + [x.item]
    && r.idx == s.idx + n * x.Period()
    && r.flow.comps[x.item].counter == n
    && NoErrors(r.flow.comps, [x.item] + x.body)
  }

  lemma LoopHeadSupplied(g: Graph, s: RunState, x: LoopSite, r: RunState, n: nat)
    requires Ready(g, s) && FitsLoop(g, x) && EnteringLoop(g, s, x) && LoopHead(g, s, x, r, n)
    ensures Supplied(g, r.flow.path[..r.idx], x.item) && BodySupplied(g, r.flow.path, x.body)
    ensures r.flow.comps[x.item].error == ""
  {
    hide FitsLoop, WellFormed, BodySupplied, Supplied;
    assert r.flow.comps[([x.item] + x.body)[0]].error == "";
    assert r.flow.path[..r.idx] == s.flow.path[..s.idx] + Unroll(x.item, x.body, n);
    SuppliedMore(g, s.flow.path[..s.idx], r.flow.path[..r.idx], x.item);
    assert s.flow.path == s.flow.path[..s.idx] + [x.item];
    BodySuppliedMore(g, s.flow.path, r.flow.path, x.body);
  }

  /** The verdict on the item's run after `n` passes. */
  function VerdictAfter(g: Graph, o: Oracle, x: LoopSite, lo: nat, n: nat): Verdict
    requires x.p in g.specs
  {
    if n >= g.specs[x.p].maxLoops then Stop else TestAfter(g, o, x, lo, n)
  }

  lemma LoopItemInvoked(g: Graph, comps: Comps, x: LoopSite)
    requires FitsLoop(g, x) && comps.Keys == g.specs.Keys && comps[x.item].counter >= 0
    ensures g.specs[x.item].kind.LoopItem?
    ensures var after := InvokeLoopItem(g, comps, x.item);
      && Calm(comps, after, x.item)
      && after[x.item].counter ==
         (if comps[x.item].counter >= g.specs[x.p].maxLoops then -1 else comps[x.item].counter + 1)
  {
    assert WellFormedSpec(g, x.item);
    hide WellFormed;
  }

  /** The run of the item after `n` passes. */
  lemma LoopItemProcessed(g: Graph, o: Oracle, s: RunState, x: LoopSite, r: RunState, n: nat)
    requires s.status.Running? && Ready(g, s) && FitsLoop(g, x) && EnteringLoop(g, s, x)
    requires LoopHead(g, s, x, r, n)
    ensures ItemDone(g, Invoked(g, o, r), Processed(g, o, r), x.p, x.item, x.body, VerdictAfter(g, o, x, s.idx, n))
    ensures Invoked(g, o, r).path == r.flow.path && Calm(r.flow.comps, Invoked(g, o, r).comps, x.item)
    ensures Invoked(g, o, r).comps[x.item].counter == (if n >= g.specs[x.p].maxLoops then -1 else n + 1)
  {
    hide Round, WellFormed, Kept, Processed, Invoked, InvokeLoopItem, Post, ItemDone, Supplied, BodySupplied,
      NoErrors, Straight, VerdictOf;
    LoopHeadSupplied(g, s, x, r, n);
    SoloProcessed(g, o, r, x.item);
    LoopItemInvoked(g, r.flow.comps, x);
    ItemPost(g, Invoked(g, o, r), x.p, x.item, x.body, o(r.idx));
  }

  /** The item's round when the loop goes on. */
  ghost predicate GoesOn(s: RunState, x: LoopSite, r: RunState, t: RunState, g: Graph, n: nat)
    requires x.body != []
  {
    && Solo(g, t, x.body[0])
    && t.flow.path == r.flow.path + [x.body[0]] && t.idx == r.idx + 1
    && NoErrors(t.flow.comps, [x.item] + x.body)
    && x.item in t.flow.comps && t.flow.comps[x.item].counter == n + 1
  }

  lemma LoopGoRound(g: Graph, o: Oracle, s: RunState, x: LoopSite, r: RunState, n: nat, total: nat)
    requires s.status.Running? && Ready(g, s) && FitsLoop(g, x) && EnteringLoop(g, s, x)
    requires LoopHead(g, s, x, r, n) && n < total && QuietPasses(o, x, s.idx, total)
    requires VerdictAfter(g, o, x, s.idx, n).Go?
    ensures GoesOn(s, x, r, Round(g, o, r), g, n)
  {
    hide Round, WellFormed, Kept, Processed, Invoked, Supplied, BodySupplied, Calm, NoErrors, Straight, VerdictAfter,
      EnteringLoop, QuietPasses, Alike;
    LoopSiteFacts(g, x);
    InsideLoop(x, n, total);
    LoopHeadSupplied(g, s, x, r, n);
    LoopItemProcessed(g, o, s, x, r, n);
    var i, f := Invoked(g, o, r), Processed(g, o, r);
    LoopVerdictCounter(g, o, x, s.idx, n);
    AlikeCalm(r.flow.comps, i.comps, f.comps, x.item);
    ErrorFree(r.flow.comps, f.comps, x.item, [x.item] + x.body);
    AlikeItself(i.comps, f.comps, x.item);
    QuietAt(o, x, s.idx, total, r.idx);
    SoloMove(g, o, r, x.item, x.body[0]);
  }

  lemma AlikeItself(a: Comps, b: Comps, item: Id)
    requires item in a && Alike(a, b, item)
    ensures item in b
  {
  }

  lemma LoopBodyPhase(g: Graph, o: Oracle, s: RunState, x: LoopSite, r: RunState, t: RunState, n: nat, total: nat)
    requires s.status.Running? && Ready(g, s) && FitsLoop(g, x) && EnteringLoop(g, s, x)
    requires LoopHead(g, s, x, r, n) && n < total && QuietPasses(o, x, s.idx, total)
    requires x.body != [] && GoesOn(s, x, r, t, g, n)
    ensures LoopHead(g, s, x, Rounds(g, o, t, |x.body|), n + 1)
  {
    hide Round, WellFormed, Rounds, Supplied, BodySupplied, NoErrors, Straight, Steady, Quiet;
    InsideLoop(x, n, total);
    LoopHeadSupplied(g, s, x, r, n);
    assert t.flow.path[..t.idx] == r.flow.path;
    TailErrors(t.flow.comps, x.item, x.body);
    BodyRun(g, o, t, x.p, {}, x.item, x.body, |x.body|);
    assert x.body[..|x.body|] == x.body;
    var r' := Rounds(g, o, t, |x.body|);
    SteadyErrors(t.flow.comps, r'.flow.comps, {}, [x.item] + x.body);
    SteadyAt(t.flow.comps, r'.flow.comps, {}, x.item);
    PassPath(s.flow.path[..s.idx], x.item, x.body, n, r.flow.path);
  }

  lemma LoopPassOnce(g: Graph, o: Oracle, s: RunState, x: LoopSite, r: RunState, n: nat, total: nat)
    requires s.status.Running? && Ready(g, s) && FitsLoop(g, x) && EnteringLoop(g, s, x)
    requires LoopHead(g, s, x, r, n) && n < total && QuietPasses(o, x, s.idx, total)
    requires VerdictAfter(g, o, x, s.idx, n).Go?
    ensures LoopHead(g, s, x, Rounds(g, o, Round(g, o, r), |x.body|), n + 1)
  {
    hide Round, WellFormed, Rounds, GoesOn, QuietPasses, EnteringLoop, VerdictAfter;
    LoopSiteFacts(g, x);
    LoopGoRound(g, o, s, x, r, n, total);
    LoopBodyPhase(g, o, s, x, r, Round(g, o, r), n, total);
  }

  lemma LoopSiteFacts(g: Graph, x: LoopSite)
    requires FitsLoop(g, x)
    ensures x.body != [] && x.p in g.specs && x.item in g.specs && x.item != x.p
    ensures x.body[0] in g.specs && g.specs[x.body[0]].kind != UserFillUp
  {
    hide WellFormed;
    assert BodyAt(g, x.p, x.body, 0);
  }

  lemma LoopVerdictCounter(g: Graph, o: Oracle, x: LoopSite, lo: nat, n: nat)
    requires x.p in g.specs && VerdictAfter(g, o, x, lo, n).Go?
    ensures n < g.specs[x.p].maxLoops
  {
  }

  lemma QuietAt(o: Oracle, x: LoopSite, lo: nat, total: nat, i: nat)
    requires QuietPasses(o, x, lo, total) && lo <= i <= lo + total * x.Period()
    ensures !o(i).canceled
  {
  }

  lemma InsideLoop(x: LoopSite, n: nat, total: nat)
    requires n < total
    ensures n * x.Period() + x.Period() <= total * x.Period()
  {
    assert (n + 1) * x.Period() <= total * x.Period();
  }

  /** After `n` passes, none of which met the test or the maximum, the path has grown by exactly
      `n` copies of item and body. */
  lemma {:induction false} LoopPasses(g: Graph, o: Oracle, s: RunState, x: LoopSite, n: nat, total: nat)
    requires s.status.Running? && Ready(g, s) && FitsLoop(g, x) && EnteringLoop(g, s, x)
    requires n <= total && QuietPasses(o, x, s.idx, total)
    requires forall k: nat | k < n :: VerdictAfter(g, o, x, s.idx, k).Go?
    ensures LoopHead(g, s, x, Rounds(g, o, s, n * x.Period()), n)
    decreases n
  {
    hide Round, WellFormed, Kept, Supplied, BodySupplied, NoErrors, FitsLoop, QuietPasses, VerdictAfter;
    if n == 0 {
      assert Rounds(g, o, s, 0) == s;
      assert s.flow.path == s.flow.path[..s.idx] + [] + [x.item];
    } else {
      LoopPasses(g, o, s, x, n - 1, total);
      RoundsOfPass(g, o, s, n - 1, x.Period());
      LoopPassOnce(g, o, s, x, Rounds(g, o, s, (n - 1) * x.Period()), n - 1, total);
    }
  }

  /** How the run leaves the loop: control goes to the successors of the container, and the item's
      counter is -1, which is what `end()` tests. */
  ghost predicate Left(g: Graph, x: LoopSite, r: RunState, f: Flow)
    requires x.p in g.specs
  {
    && f.path == Extend(r.flow.path, g.specs[x.p].downstream)
    && f.error == "" && !f.crashed && x.item in f.comps && f.comps[x.item].counter == -1
  }

  /** The whole loop: the body is executed exactly as often as `Passes` says, and then the run
      leaves the loop in the item's next round. */
  lemma LoopRunsItsPasses(g: Graph, o: Oracle, s: RunState, x: LoopSite, n: nat)
    requires s.status.Running? && Ready(g, s) && FitsLoop(g, x) && EnteringLoop(g, s, x)
    requires x.p in g.specs && Passes(g, o, x, s.idx, n) && QuietPasses(o, x, s.idx, n)
    ensures var r := Rounds(g, o, s, n * x.Period());
      && r.status.Running? && Ready(g, r)
      && r.flow.path == s.flow.path[..s.idx] + Unroll(x.item, x.body, n) + [x.item]
      && Left(g, x, r, Processed(g, o, r))
  {
    hide Round, WellFormed, Rounds, Kept, Processed, Invoked, Supplied, BodySupplied, NoErrors, Straight, QuietPasses,
      VerdictOf;
    LoopPasses(g, o, s, x, n, n);
    var r := Rounds(g, o, s, n * x.Period());
    LoopItemProcessed(g, o, s, x, r, n);
    LoopSiteFacts(g, x);
  }

  /** When the test raises before the maximum is reached, the exception leaves the run. */
  lemma RaisingTestLeavesTheRun(g: Graph, o: Oracle, s: RunState, x: LoopSite, n: nat)
    requires s.status.Running? && Ready(g, s) && FitsLoop(g, x) && EnteringLoop(g, s, x)
    requires x.p in g.specs && n < Cap(g, x) && QuietPasses(o, x, s.idx, n)
    requires forall k: nat | k < n :: TestAfter(g, o, x, s.idx, k).Go?
    requires TestAfter(g, o, x, s.idx, n).Abort?
    ensures Rounds(g, o, s, n * x.Period() + 1).status.Crashed?
  {
    hide WellFormed, Rounds, Kept, Processed, Invoked, Supplied, BodySupplied, NoErrors, Straight, VerdictOf, Conclude;
    InsideEnd(o, x, s.idx, n);
    LoopPasses(g, o, s, x, n, n);
    var r := Rounds(g, o, s, n * x.Period());
    LoopItemProcessed(g, o, s, x, r, n);
    OneMoreRound(g, o, s, n * x.Period());
  }

  lemma InsideEnd(o: Oracle, x: LoopSite, lo: nat, n: nat)
    requires QuietPasses(o, x, lo, n)
    ensures !o(lo + n * x.Period()).canceled
  {
  }

  /** An empty list of conditions under `and` gives no pass at all. */
  lemma NoConditionsNoPass(g: Graph, o: Oracle, x: LoopSite, lo: nat)
    requires x.p in g.specs && g.specs[x.p].conditions == [] && g.specs[x.p].logic == "and"
    ensures Passes(g, o, x, lo, 0)
  {
    EmptyList(o(lo).readings);
    assert lo + 0 * x.Period() == lo;
  }
}
