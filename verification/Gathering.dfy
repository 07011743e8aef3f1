/** What an iteration collects amid others: if nobody else writes the outputs of the iteration, each
    of them grows by the current value of the component it refers to on every visit of the item
    after its first element, whatever else the run executes. */
module Gathering {
  import opened Wrappers
  import opened Values
  import opened Components
  import opened Scheduler
  import opened SchedulerLemmas
  import opened Runs
  import opened Collating
  import opened Unrolling
  import opened Termination
  import opened Threads
  import opened Iterations
  import opened Loops
  import opened Weaving

  /** An iteration whose collated outputs have different names, do not refer to itself, and are not
      replaced by an error handler of the iteration. */
  ghost predicate Collects(g: Graph, x: LoopSite) {
    && Isolated(g, x) && g.specs[x.p].kind.Iteration? && RefsFit(g, x.p)
    && !(g.specs[x.p].excMethod == "comment" && g.specs[x.p].excDefault != "")
  }

  /** No component that is executed between two positions writes the outputs of the iteration. */
  ghost predicate Private(o: Oracle, x: LoopSite, lo: nat, hi: nat) {
    forall i: nat | lo <= i < hi :: x.p !in o(i).writes
  }

  // ----- who leaves the outputs alone -----

  lemma {:induction false} CollateRefsElsewhere(comps: Comps, p: Id, source: Id, refs: seq<Ref>, w: Id)
    requires p in comps && source in comps && w in comps && w != p
    ensures CollateRefs(comps, p, source, refs).comps[w] == comps[w]
    decreases |refs|
  {
    if refs != [] {
      CollateRefsElsewhere(comps, p, source, refs[..|refs| - 1], w);
    }
  }

  lemma {:induction false} CollateElsewhere(g: Graph, comps: Comps, p: Id, ids: seq<Id>, w: Id)
    requires p in comps && p in g.specs && Known(g, ids) && comps.Keys == g.specs.Keys && w in comps && w != p
    ensures Collate(g, comps, p, ids).comps[w] == comps[w]
    decreases |ids|
  {
    hide CollateRefs;
    if ids != [] {
      var before := Collate(g, comps, p, ids[..|ids| - 1]);
      CollateElsewhere(g, comps, p, ids[..|ids| - 1], w);
      CollateRefsElsewhere(before.comps, p, ids[|ids| - 1], g.specs[p].refs, w);
    }
  }

  lemma AdvanceElsewhere(c: Spec, comps: Comps, v: Id, vs: seq<Val>, w: Id)
    requires v in comps && w in comps && w != v
    ensures Advance(c, comps, v, vs)[w] == comps[w]
  {
    hide ElementAt, Excepted;
  }

  lemma ForeignOutputs(g: Graph, comps: Comps, v: Id, r: Reply, w: Id)
    requires v in g.specs && v in comps && w in comps && w !in r.writes
    requires v == w ==> !(g.specs[v].excMethod == "comment" && g.specs[v].excDefault != "")
    ensures InvokeForeign(g, comps, v, r)[w].outs == comps[w].outs
  {
  }

  /** A component other than the item leaves the outputs of the iteration as they are. */
  lemma OthersLeaveOutputs(g: Graph, x: LoopSite, comps: Comps, v: Id, r: Reply)
    requires Collects(g, x) && v in g.specs && comps.Keys == g.specs.Keys && v != x.item && x.p !in r.writes
    ensures x.p in comps && Invoke(g, comps, v, r)[x.p].outs == comps[x.p].outs
  {
    hide WellFormed, Isolated, RefsFit, Collate, Advance, InvokeForeign, Straight, SingleThread, Excepted, Members;
    ItemFits(g, x);
    IsolatedFits(g, x);
    if g.specs[v].kind.IterationItem? {
      OtherContainer(g, x, v);
      var p := g.specs[v].parent.value;
      CollateElsewhere(g, comps, p, g.order, x.p);
      if r.read.Array? {
        AdvanceElsewhere(g.specs[v], comps, v, r.read.vs, x.p);
        AdvanceElsewhere(g.specs[v], Collate(g, comps, p, g.order).comps, v, r.read.vs, x.p);
      }
    } else if !g.specs[v].kind.LoopItem? {
      ForeignOutputs(g, comps, v, r, x.p);
    }
  }

  /** The item is the only item of its container. */
  lemma OtherContainer(g: Graph, x: LoopSite, v: Id)
    requires Isolated(g, x) && v in g.specs && g.specs[v].kind.IterationItem? && v != x.item
    ensures g.specs[v].parent.Some? && g.specs[v].parent.value != x.p && v != x.p
    ensures g.specs[v].parent.value in g.specs
  {
    IsolatedFits(g, x);
    assert WellFormedSpec(g, v) by { SpecFits(g, v); }
    hide WellFormed, Edge;
    if g.specs[v].parent == Some(x.p) {
      DirectMembers(g, v);
      BodyIsOrdinary(g, x);
    }
  }

  lemma BodyIsOrdinary(g: Graph, x: LoopSite)
    requires Isolated(g, x)
    ensures forall v | v in x.body :: v in g.specs && g.specs[v].kind in {Plain, Message}
  {
    hide WellFormed, Edge;
    forall j | 0 <= j < |x.body| ensures x.body[j] in g.specs && g.specs[x.body[j]].kind in {Plain, Message} {
      assert BodyAt(g, x.p, x.body, j);
    }
  }

  /** Post-processing touches no outputs. */
  lemma PostOutputs(g: Graph, f: Flow, v: Id, r: Reply, w: Id)
    requires Sound(g, f) && v in g.specs && w in g.specs
    ensures Post(g, f, v, r).comps[w].outs == f.comps[w].outs
  {
    hide WellFormed, MessageStep, FinishStep, EndStep, Extend, Successors;
    MessageOutputs(g, f, v, r, w);
    var m := MessageStep(g, f, v, r);
    if !m.crashed {
      FinishOutputs(g, ErrorStep(g, m, v), v, w);
      EndOutputs(g, FinishStep(g, ErrorStep(g, m, v), v), v, r, w);
    }
  }

  lemma MessageOutputs(g: Graph, f: Flow, v: Id, r: Reply, w: Id)
    requires Sound(g, f) && v in g.specs && w in g.specs
    ensures MessageStep(g, f, v, r).comps[w].outs == f.comps[w].outs
  {
    hide WellFormed, Drainable, LateEvents;
  }

  lemma FinishOutputs(g: Graph, f: Flow, v: Id, w: Id)
    requires Sound(g, f) && v in g.specs && w in g.specs
    ensures FinishStep(g, f, v).comps[w].outs == f.comps[w].outs
  {
    hide WellFormed;
  }

  lemma EndOutputs(g: Graph, f: Flow, v: Id, r: Reply, w: Id)
    requires Sound(g, f) && v in g.specs && w in g.specs
    ensures EndStep(g, f, v, r).comps[w].outs == f.comps[w].outs
  {
    hide LoopConditions.VerdictOf, WellFormed;
    assert WellFormedSpec(g, v) by { SpecFits(g, v); }
  }

  lemma {:induction false} PostUpToOutputs(g: Graph, o: Oracle, f: Flow, from: nat, hi: nat, w: Id)
    requires Sound(g, f) && from <= hi <= |f.path| && w in g.specs
    ensures PostUpTo(g, o, f, from, hi).comps[w].outs == f.comps[w].outs
    decreases hi
  {
    hide Post, WellFormed;
    if from < hi {
      PostUpToOutputs(g, o, f, from, hi - 1, w);
      var before := PostUpTo(g, o, f, from, hi - 1);
      if !before.crashed {
        PostOutputs(g, before, before.path[hi - 1], o(hi - 1), w);
      }
    }
  }

  /** From position `mid` to `hi` of a batch the item is not executed. */
  lemma {:induction false} BatchLeavesOutputs(g: Graph, o: Oracle, x: LoopSite, comps: Comps, path: seq<Id>, from: nat,
                                              mid: nat, hi: nat)
    requires Collects(g, x) && Known(g, path) && comps.Keys == g.specs.Keys && from <= mid <= hi <= |path|
    requires x.item !in path[mid..hi] && Private(o, x, mid, hi)
    ensures x.p in g.specs
    ensures InvokeUpTo(g, o, comps, path, from, hi)[x.p].outs == InvokeUpTo(g, o, comps, path, from, mid)[x.p].outs
    decreases hi
  {
    hide Invoke, InvokeUpTo, WellFormed, Isolated, RefsFit;
    ItemFits(g, x);
    if mid < hi {
      assert path[mid..hi] == path[mid..hi - 1] + [path[hi - 1]];
      BatchLeavesOutputs(g, o, x, comps, path, from, mid, hi - 1);
      InvokeUpToLast(g, o, comps, path, from, hi);
      OthersLeaveOutputs(g, x, InvokeUpTo(g, o, comps, path, from, hi - 1), path[hi - 1], o(hi - 1));
    }
  }

  // ----- what a visit collects -----

  /** Each output that is collated holds the values `vals` gives for it. */
  ghost predicate Holding(g: Graph, x: LoopSite, comps: Comps, vals: Ref -> seq<Val>)
    requires x.p in g.specs && x.p in comps
  {
    forall k | 0 <= k < |g.specs[x.p].refs| && Serves(g, x.p, g.specs[x.p].refs[k]) ::
      HoldingAt(g, x, comps, vals, k)
  }

  ghost predicate HoldingAt(g: Graph, x: LoopSite, comps: Comps, vals: Ref -> seq<Val>, k: nat)
    requires x.p in g.specs && x.p in comps && k < |g.specs[x.p].refs|
  {
    Collected(Out(comps[x.p], g.specs[x.p].refs[k].name), vals(g.specs[x.p].refs[k]))
  }

  /** What a visit of the item in state `comps` adds for a reference. */
  function VisitGathers(x: LoopSite, comps: Comps, r: Reply, ref: Ref): seq<Val> {
    if x.item in comps && ref.source in comps && comps[x.item].counter > 0 && r.read.Array?
    then [Out(comps[ref.source], ref.variable)] else []
  }

  /** `more` is `vals` and what a visit adds. */
  ghost predicate Grown(x: LoopSite, comps: Comps, r: Reply, vals: Ref -> seq<Val>, more: Ref -> seq<Val>) {
    forall ref :: more(ref) == vals(ref) + VisitGathers(x, comps, r, ref)
  }

  lemma VisitCollects(g: Graph, x: LoopSite, comps: Comps, r: Reply, vals: Ref -> seq<Val>, more: Ref -> seq<Val>)
    requires Collects(g, x) && comps.Keys == g.specs.Keys && x.p in g.specs && Holding(g, x, comps, vals)
    requires Grown(x, comps, r, vals, more)
    ensures Holding(g, x, Invoke(g, comps, x.item, r), more)
  {
    hide WellFormed, Isolated, RefsFit, Invoke, Straight, SingleThread, Holding;
    ItemFits(g, x);
    IsolatedFits(g, x);
    if comps[x.item].counter > 0 && r.read.Array? {
      VisitAppends(g, x, comps, r, vals, more);
    } else {
      IdleVisit(g, x, comps, r);
      forall ref ensures more(ref) == vals(ref) {
        assert vals(ref) + [] == vals(ref);
      }
      SameOutputs(g, x, comps, Invoke(g, comps, x.item, r), vals, more);
    }
  }

  /** At its first element, or without a list, the item collects nothing. */
  lemma IdleVisit(g: Graph, x: LoopSite, comps: Comps, r: Reply)
    requires Collects(g, x) && comps.Keys == g.specs.Keys && x.item in comps && x.p in comps
    requires !(comps[x.item].counter > 0 && r.read.Array?)
    ensures Invoke(g, comps, x.item, r)[x.p].outs == comps[x.p].outs
  {
    ItemFits(g, x);
    IsolatedFits(g, x);
    hide WellFormed, Isolated, RefsFit, Collate, Advance, Straight, SingleThread, Excepted, InvokeForeign;
    if r.read.Array? {
      AdvanceElsewhere(g.specs[x.item], comps, x.item, r.read.vs, x.p);
    }
  }

  lemma VisitAppends(g: Graph, x: LoopSite, comps: Comps, r: Reply, vals: Ref -> seq<Val>, more: Ref -> seq<Val>)
    requires Collects(g, x) && comps.Keys == g.specs.Keys && x.p in g.specs && Holding(g, x, comps, vals)
    requires x.item in comps && comps[x.item].counter > 0 && r.read.Array? && Grown(x, comps, r, vals, more)
    ensures Holding(g, x, Invoke(g, comps, x.item, r), more)
  {
    hide WellFormed, Isolated, Collate, Advance, Straight, SingleThread, Excepted, InvokeForeign, ListsAll;
    ItemFits(g, x);
    IsolatedFits(g, x);
    var refs := g.specs[x.p].refs;
    forall k | 0 <= k < |refs| && Serves(g, x.p, refs[k]) ensures Appendable(comps, x.p, refs[k]) {
      assert HoldingAt(g, x, comps, vals, k);
      AppendedCollects(Out(comps[x.p], refs[k].name), vals(refs[k]), Out(comps[refs[k].source], refs[k].variable));
    }
    CollationAppendsEach(g, comps, x.p);
    var c := Collate(g, comps, x.p, g.order);
    AdvanceElsewhere(g.specs[x.item], c.comps, x.item, r.read.vs, x.p);
    var after := Invoke(g, comps, x.item, r);
    assert after[x.p] == c.comps[x.p];
    forall k | 0 <= k < |refs| && Serves(g, x.p, refs[k]) ensures HoldingAt(g, x, after, more, k) {
      assert HoldingAt(g, x, comps, vals, k);
      assert Effect(comps, c.comps, x.p, refs[k], true);
      AppendedCollects(Out(comps[x.p], refs[k].name), vals(refs[k]), Out(comps[refs[k].source], refs[k].variable));
    }
  }

  // ----- rounds and runs -----

  /** What a round adds for a reference: the value right before the item's invocation. */
  ghost function RoundGathers(g: Graph, o: Oracle, x: LoopSite, s: RunState, ref: Ref): seq<Val>
    requires Ready(g, s)
  {
    var kept := Kept(g, s);
    var at := Visits(kept, s.idx, |kept|, x.item);
    if |at| != 1 then []
    else VisitGathers(x, InvokeUpTo(g, o, s.flow.comps, kept, s.idx, at[0]), o(at[0]), ref)
  }

  /** What the first `n` rounds add. */
  ghost function Gathered(g: Graph, o: Oracle, x: LoopSite, s: RunState, n: nat, ref: Ref): seq<Val>
    requires s.status.Running? ==> Ready(g, s)
  {
    if n == 0 then []
    else
      var t := Rounds(g, o, s, n - 1);
      Gathered(g, o, x, s, n - 1, ref) + (if t.status.Running? then RoundGathers(g, o, x, t, ref) else [])
  }

  lemma GatheredLast(g: Graph, o: Oracle, x: LoopSite, s: RunState, n: nat, ref: Ref)
    requires (s.status.Running? ==> Ready(g, s)) && n > 0
    ensures var t := Rounds(g, o, s, n - 1);
      Gathered(g, o, x, s, n, ref) ==
        Gathered(g, o, x, s, n - 1, ref) + if t.status.Running? then RoundGathers(g, o, x, t, ref) else []
  {
    hide Rounds, RoundGathers, WellFormed;
  }

  lemma SameOutputs(g: Graph, x: LoopSite, a: Comps, b: Comps, vals: Ref -> seq<Val>, more: Ref -> seq<Val>)
    requires x.p in g.specs && x.p in a && x.p in b && a[x.p].outs == b[x.p].outs
    requires Holding(g, x, a, vals) && forall ref :: more(ref) == vals(ref)
    ensures Holding(g, x, b, more)
  {
    forall k | 0 <= k < |g.specs[x.p].refs| && Serves(g, x.p, g.specs[x.p].refs[k])
      ensures HoldingAt(g, x, b, more, k)
    {
      assert HoldingAt(g, x, a, vals, k);
    }
  }

  /** `more` is `vals` and what a round adds. */
  ghost predicate GrownBy(g: Graph, o: Oracle, x: LoopSite, s: RunState, vals: Ref -> seq<Val>, more: Ref -> seq<Val>)
    requires Ready(g, s)
  {
    forall ref :: more(ref) == vals(ref) + RoundGathers(g, o, x, s, ref)
  }

  /** One round, in which the item is executed at most once. */
  lemma RoundCollects(g: Graph, o: Oracle, x: LoopSite, s: RunState, vals: Ref -> seq<Val>, more: Ref -> seq<Val>)
    requires s.status.Running? && Ready(g, s) && Unbroken(Round(g, o, s)) && Collects(g, x) && x.p in g.specs
    requires multiset(Kept(g, s)[s.idx..])[x.item] <= 1 && Private(o, x, s.idx, |Kept(g, s)|)
    requires Holding(g, x, s.flow.comps, vals) && GrownBy(g, o, x, s, vals, more)
    ensures x.p in Round(g, o, s).flow.comps && Holding(g, x, Round(g, o, s).flow.comps, more)
  {
    hide Round, WellFormed, Keep, Isolated, RefsFit, Collects, Holding, Visits, Kept, GrownBy;
    RoundOutcome(g, o, s);
    BatchCollects(g, o, x, s, vals, more);
    var kept, i := Kept(g, s), Invoked(g, o, s);
    PostUpToOutputs(g, o, i, s.idx, |kept|, x.p);
    SameOutputs(g, x, i.comps, Round(g, o, s).flow.comps, more, more);
  }

  lemma BatchCollects(g: Graph, o: Oracle, x: LoopSite, s: RunState, vals: Ref -> seq<Val>, more: Ref -> seq<Val>)
    requires s.status.Running? && Ready(g, s) && Collects(g, x) && x.p in g.specs
    requires multiset(Kept(g, s)[s.idx..])[x.item] <= 1 && Private(o, x, s.idx, |Kept(g, s)|)
    requires Holding(g, x, s.flow.comps, vals) && GrownBy(g, o, x, s, vals, more)
    ensures Holding(g, x, Invoked(g, o, s).comps, more)
  {
    hide WellFormed, Keep, Isolated, RefsFit, Collects, Holding, Visits, Kept, InvokeUpTo, Invoke, RoundGathers, Grown;
    var kept := Kept(g, s);
    var batch, lo, hi := kept[s.idx..], s.idx, |kept|;
    assert kept[lo..hi] == batch;
    var at := Visits(kept, lo, hi, x.item);
    if |at| == 1 {
      GrownByVisit(g, o, x, s, vals, more);
      BatchWithVisit(g, o, x, s.flow.comps, kept, lo, at[0], vals, more);
    } else {
      forall ref ensures more(ref) == vals(ref) {
        NoVisitGathers(g, o, x, s, ref);
      }
      assert x.item !in multiset(batch);
      StartOfBatch(g, o, s.flow.comps, kept, lo);
      BatchLeavesOutputs(g, o, x, s.flow.comps, kept, lo, lo, hi);
      SameOutputs(g, x, s.flow.comps, Invoked(g, o, s).comps, vals, more);
    }
  }

  lemma NoVisitGathers(g: Graph, o: Oracle, x: LoopSite, s: RunState, ref: Ref)
    requires Ready(g, s) && |Visits(Kept(g, s), s.idx, |Kept(g, s)|, x.item)| != 1
    ensures RoundGathers(g, o, x, s, ref) == []
  {
    hide WellFormed, Visits, Kept;
  }

  lemma GrownByVisit(g: Graph, o: Oracle, x: LoopSite, s: RunState, vals: Ref -> seq<Val>, more: Ref -> seq<Val>)
    requires Ready(g, s) && |Visits(Kept(g, s), s.idx, |Kept(g, s)|, x.item)| == 1 && GrownBy(g, o, x, s, vals, more)
    ensures var i := Visits(Kept(g, s), s.idx, |Kept(g, s)|, x.item)[0];
      Grown(x, InvokeUpTo(g, o, s.flow.comps, Kept(g, s), s.idx, i), o(i), vals, more)
  {
    hide WellFormed, Visits, Kept, InvokeUpTo, VisitGathers;
  }

  /** The batch in which the item is executed, once, at position `i`. */
  lemma BatchWithVisit(g: Graph, o: Oracle, x: LoopSite, comps: Comps, kept: seq<Id>, lo: nat, i: nat,
                       vals: Ref -> seq<Val>, more: Ref -> seq<Val>)
    requires Collects(g, x) && Known(g, kept) && comps.Keys == g.specs.Keys && lo <= i < |kept| && x.p in g.specs
    requires kept[i] == x.item && multiset(kept[lo..])[x.item] <= 1 && Private(o, x, lo, |kept|)
    requires Holding(g, x, comps, vals) && Grown(x, InvokeUpTo(g, o, comps, kept, lo, i), o(i), vals, more)
    ensures Holding(g, x, InvokeUpTo(g, o, comps, kept, lo, |kept|), more)
  {
    hide WellFormed, Isolated, RefsFit, Collects, Holding, InvokeUpTo, Invoke, Grown;
    CollectsIsolated(g, x);
    ItemFits(g, x);
    OnlyThere(kept, lo, i);
    StartOfBatch(g, o, comps, kept, lo);
    BatchLeavesOutputs(g, o, x, comps, kept, lo, lo, i);
    var before := InvokeUpTo(g, o, comps, kept, lo, i);
    SameOutputs(g, x, comps, before, vals, vals);
    VisitCollects(g, x, before, o(i), vals, more);
    InvokeUpToLast(g, o, comps, kept, lo, i + 1);
    BatchLeavesOutputs(g, o, x, comps, kept, lo, i + 1, |kept|);
    SameOutputs(g, x, InvokeUpTo(g, o, comps, kept, lo, i + 1), InvokeUpTo(g, o, comps, kept, lo, |kept|), more, more);
  }

  lemma OnlyThere(ids: seq<Id>, lo: nat, i: nat)
    requires lo <= i < |ids| && multiset(ids[lo..])[ids[i]] <= 1
    ensures ids[i] !in ids[lo..i] && ids[i] !in ids[i + 1..|ids|]
  {
    assert ids[lo..] == ids[lo..i] + [ids[i]] + ids[i + 1..|ids|];
  }

  lemma StartOfBatch(g: Graph, o: Oracle, comps: Comps, path: seq<Id>, from: nat)
    requires WellFormed(g) && Known(g, path) && comps.Keys == g.specs.Keys && from <= |path|
    ensures InvokeUpTo(g, o, comps, path, from, from) == comps
  {
  }

  /** In each round the item is executed at most once. */
  lemma OneVisit(g: Graph, o: Oracle, x: LoopSite, base: int, t: RunState, start: nat)
    requires t.status.Running? && Ready(g, t) && Unbroken(Round(g, o, t)) && Isolated(g, x)
    requires start <= t.idx && x.p in g.specs && x.item in t.flow.comps && WovenIn(g, o, x, base, t, start)
    requires multiset(Since(t, start) + Kept(g, t)[t.idx..])[x.p] <= 1
    ensures multiset(Kept(g, t)[t.idx..])[x.item] <= 1
    ensures x.item in Kept(g, t)[t.idx..] ==>
      t.flow.comps[x.item].counter == base + |Visits(t.flow.path, start, t.idx, x.item)|
  {
    hide Round, WellFormed, Keep, Isolated, Members, CountIn, Kept, Strand, Visits, Weaving.Walk, DecidedAt, EndedAt,
      SingleThread, Straight;
    IsolatedFits(g, x);
    var batch, pending, m := Kept(g, t)[t.idx..], t.flow.path[t.idx..], Members(g, x.p);
    WovenBounds(g, o, x, base, t, start);
    EntersHere(g, o, x, base, t, start, batch);
    BatchOfOne(g, x, t);
    CountInSplit(batch, Home(g, x.p), x.item);
    StrandHas(batch, m, x.item);
  }

  /** Over a run that enters the iteration at most once, the outputs hold what was gathered. */
  lemma {:induction false} CollectsThroughout(g: Graph, o: Oracle, x: LoopSite, s: RunState, n: nat,
                                              vals: Ref -> seq<Val>)
    requires s.status.Running? && Ready(g, s) && Unbroken(Rounds(g, o, s, n))
    requires Collects(g, x) && x.p in g.specs && NotEntered(g, x, s) && Holding(g, x, s.flow.comps, vals)
    requires Private(o, x, s.idx, Rounds(g, o, s, n).idx)
    requires EnteredOnceIn(x, Rounds(g, o, s, n), s.idx)
    ensures x.p in Rounds(g, o, s, n).flow.comps
    ensures Holding(g, x, Rounds(g, o, s, n).flow.comps, ref => vals(ref) + Gathered(g, o, x, s, n, ref))
    decreases n
  {
    hide Round, WellFormed, Isolated, Collects, Holding, NotEntered, RoundGathers, Kept, EnteredOnceIn;
    CollectsIsolated(g, x);
    var more := ref => vals(ref) + Gathered(g, o, x, s, n, ref);
    if n == 0 {
      SameOutputs(g, x, s.flow.comps, s.flow.comps, vals, more);
    } else {
      var t := Rounds(g, o, s, n - 1);
      var before := ref => vals(ref) + Gathered(g, o, x, s, n - 1, ref);
      if t.status.Running? {
        EarlierRound(g, o, x, s, n);
        CollectsThroughout(g, o, x, s, n - 1, vals);
        VisitsOnce(g, o, x, s, n);
        forall ref ensures more(ref) == before(ref) + RoundGathers(g, o, x, t, ref) {
          GatheredLast(g, o, x, s, n, ref);
          assert vals(ref) + (Gathered(g, o, x, s, n - 1, ref) + RoundGathers(g, o, x, t, ref)) ==
                 before(ref) + RoundGathers(g, o, x, t, ref);
        }
        RoundCollects(g, o, x, t, before, more);
      } else {
        RoundOver(g, o, t);
        CollectsThroughout(g, o, x, s, n - 1, vals);
        forall ref ensures more(ref) == before(ref) {
          GatheredLast(g, o, x, s, n, ref);
        }
        SameOutputs(g, x, t.flow.comps, t.flow.comps, before, more);
      }
    }
  }

  ghost predicate EnteredOnceIn(x: LoopSite, r: RunState, start: nat) {
    start <= r.idx <= |r.flow.path| ==> multiset(Since(r, start))[x.p] <= 1
  }

  lemma CollectsIsolated(g: Graph, x: LoopSite)
    requires Collects(g, x)
    ensures Isolated(g, x) && g.specs[x.p].kind.Iteration?
  {
  }

  /** What holds of the `n`-th round head holds of the one before. */
  lemma EarlierRound(g: Graph, o: Oracle, x: LoopSite, s: RunState, n: nat)
    requires s.status.Running? && Ready(g, s) && n > 0 && Unbroken(Rounds(g, o, s, n))
    requires Rounds(g, o, s, n - 1).status.Running?
    requires Isolated(g, x) && x.p in g.specs && NotEntered(g, x, s) && EnteredOnceIn(x, Rounds(g, o, s, n), s.idx)
    ensures s.idx <= Rounds(g, o, s, n - 1).idx <= |Rounds(g, o, s, n - 1).flow.path|
    ensures EnteredOnceIn(x, Rounds(g, o, s, n - 1), s.idx)
    ensures |Kept(g, Rounds(g, o, s, n - 1))| == Rounds(g, o, s, n).idx
    ensures Rounds(g, o, s, n - 1).idx <= Rounds(g, o, s, n).idx <= |Rounds(g, o, s, n).flow.path|
    ensures Kept(g, Rounds(g, o, s, n - 1)) == Rounds(g, o, s, n).flow.path[..Rounds(g, o, s, n).idx]
    ensures var t := Rounds(g, o, s, n - 1);
      Since(t, s.idx) + Kept(g, t)[t.idx..] == Since(Rounds(g, o, s, n), s.idx)
  {
    hide Round, WellFormed, Isolated, WovenIn, NotEntered, Processed, Kept;
    var t, r := Rounds(g, o, s, n - 1), Rounds(g, o, s, n);
    WovenThroughout(g, o, x, s, n - 1);
    RoundKeepsPrefix(g, o, t);
    RoundShape(g, o, t);
    RoundOutcome(g, o, t);
    SinceGrows(t, r, Kept(g, t), s.idx);
    FewerInPrefix(Since(t, s.idx), Since(r, s.idx), x.p);
  }

  lemma SinceGrows(t: RunState, r: RunState, kept: seq<Id>, start: nat)
    requires start <= t.idx <= |t.flow.path| && t.flow.path[..t.idx] <= kept <= r.flow.path && r.idx == |kept|
    ensures Since(t, start) + kept[t.idx..] == Since(r, start) && Since(t, start) <= Since(r, start)
    ensures kept == r.flow.path[..r.idx]
  {
    assert r.flow.path[start..r.idx] == kept[start..];
    assert kept[start..] == kept[start..t.idx] + kept[t.idx..];
    assert kept[start..t.idx] == t.flow.path[..t.idx][start..];
  }

  lemma VisitsOnce(g: Graph, o: Oracle, x: LoopSite, s: RunState, n: nat)
    requires s.status.Running? && Ready(g, s) && n > 0 && Unbroken(Rounds(g, o, s, n))
    requires Rounds(g, o, s, n - 1).status.Running?
    requires Isolated(g, x) && x.p in g.specs && NotEntered(g, x, s) && EnteredOnceIn(x, Rounds(g, o, s, n), s.idx)
    ensures x.item in s.flow.comps
    ensures var t := Rounds(g, o, s, n - 1);
      && s.idx <= t.idx <= |t.flow.path| && x.item in t.flow.comps && multiset(Kept(g, t)[t.idx..])[x.item] <= 1
      && var visits := |Visits(t.flow.path, s.idx, t.idx, x.item)|;
         x.item in Kept(g, t)[t.idx..] ==> t.flow.comps[x.item].counter == s.flow.comps[x.item].counter + visits
  {
    hide Round, WellFormed, Isolated, WovenIn, Kept, Visits, Members;
    EarlierRound(g, o, x, s, n);
    WovenThroughout(g, o, x, s, n - 1);
    OneVisit(g, o, x, s.flow.comps[x.item].counter, Rounds(g, o, s, n - 1), s.idx);
  }

  // ----- how many -----

  /** How many of the first `n` visits are at a positive counter, if the first is at `base`. */
  function Positive(base: int, n: nat): nat {
    if n == 0 then 0 else Positive(base, n - 1) + (if base + n - 1 > 0 then 1 else 0)
  }

  lemma {:induction false} PositiveFrom(base: int, n: nat)
    requires base in {0, -1}
    ensures Positive(base, n) == if n + base <= 1 then 0 else n + base - 1
  {
    if n > 0 {
      PositiveFrom(base, n - 1);
    }
  }

  /** The round gathers one value exactly when the item is executed at a positive counter. */
  lemma GatheredNext(g: Graph, o: Oracle, x: LoopSite, s: RunState, n: nat, arr: seq<Val>, ref: Ref)
    requires s.status.Running? && Ready(g, s) && n > 0 && Unbroken(Rounds(g, o, s, n))
    requires Rounds(g, o, s, n - 1).status.Running?
    requires Isolated(g, x) && x.p in g.specs && NotEntered(g, x, s) && EnteredOnceIn(x, Rounds(g, o, s, n), s.idx)
    requires Rounds(g, o, s, n).idx <= |Rounds(g, o, s, n).flow.path| && ref.source in g.specs
    requires ReadsList(o, x, Rounds(g, o, s, n).flow.path, s.idx, Rounds(g, o, s, n).idx, arr)
    ensures x.item in s.flow.comps
    ensures Adds(x, Rounds(g, o, s, n - 1), Rounds(g, o, s, n), s.idx, s.flow.comps[x.item].counter,
                 |Gathered(g, o, x, s, n - 1, ref)|, |Gathered(g, o, x, s, n, ref)|)
  {
    hide Round, WellFormed, Isolated, RoundGathers, Visits, Kept, ReadsList, EnteredOnceIn, NotEntered;
    var t := Rounds(g, o, s, n - 1);
    EarlierRound(g, o, x, s, n);
    ReadsEarlier(g, o, x, s, n, arr);
    VisitsOnce(g, o, x, s, n);
    VisitsOfRound(g, o, x, s, n);
    RoundGathersOne(g, o, x, t, arr, ref);
    assert Kept(g, t)[t.idx..|Kept(g, t)|] == Kept(g, t)[t.idx..];
    assert multiset(Kept(g, t)[t.idx..])[x.item] == 1 ==> x.item in multiset(Kept(g, t)[t.idx..]);
  }

  /** From round head `t` to `r` at most one visit has come, and one value if its counter was positive. */
  ghost predicate Adds(x: LoopSite, t: RunState, r: RunState, start: nat, base: int, before: nat, after: nat) {
    && start <= t.idx <= |t.flow.path| && start <= r.idx <= |r.flow.path|
    && var a, b := |Visits(t.flow.path, start, t.idx, x.item)|, |Visits(r.flow.path, start, r.idx, x.item)|;
       (b == a && after == before) || (b == a + 1 && after == before + if base + a > 0 then 1 else 0)
  }

  /** Each visit after the first element gathers one value. */
  lemma {:induction false} GatheredPerVisit(g: Graph, o: Oracle, x: LoopSite, s: RunState, n: nat, arr: seq<Val>,
                                            ref: Ref)
    requires s.status.Running? && Ready(g, s) && Unbroken(Rounds(g, o, s, n))
    requires Isolated(g, x) && x.p in g.specs && NotEntered(g, x, s) && ref.source in g.specs
    requires EnteredOnceIn(x, Rounds(g, o, s, n), s.idx)
    requires Rounds(g, o, s, n).idx <= |Rounds(g, o, s, n).flow.path|
    requires ReadsList(o, x, Rounds(g, o, s, n).flow.path, s.idx, Rounds(g, o, s, n).idx, arr)
    ensures x.item in s.flow.comps
    ensures PerVisit(x, Rounds(g, o, s, n), s.idx, s.flow.comps[x.item].counter, |Gathered(g, o, x, s, n, ref)|)
    decreases n
  {
    hide Round, Rounds, Gathered, WellFormed, Isolated, NotEntered, Kept, ReadsList, EnteredOnceIn, Adds, PerVisit;
    ItemHasState(g, x, s);
    if n == 0 {
      NothingYet(g, o, x, s, s.flow.comps[x.item].counter, ref);
    } else {
      var t, r := Rounds(g, o, s, n - 1), Rounds(g, o, s, n);
      OneMoreRound(g, o, s, n - 1);
      if t.status.Running? {
        EarlierRound(g, o, x, s, n);
        ReadsEarlier(g, o, x, s, n, arr);
        GatheredPerVisit(g, o, x, s, n - 1, arr, ref);
        GatheredNext(g, o, x, s, n, arr, ref);
        AddsUp(x, t, r, s.idx, s.flow.comps[x.item].counter, |Gathered(g, o, x, s, n - 1, ref)|,
               |Gathered(g, o, x, s, n, ref)|);
      } else {
        RoundOver(g, o, t);
        GatheredLast(g, o, x, s, n, ref);
        GatheredPerVisit(g, o, x, s, n - 1, arr, ref);
      }
    }
  }

  lemma ItemHasState(g: Graph, x: LoopSite, s: RunState)
    requires Ready(g, s) && NotEntered(g, x, s)
    ensures x.item in s.flow.comps
  {
    hide WellFormed, Members;
  }

  ghost predicate PerVisit(x: LoopSite, r: RunState, start: nat, base: int, count: nat) {
    && start <= r.idx <= |r.flow.path|
    && count == Positive(base, |Visits(r.flow.path, start, r.idx, x.item)|)
  }

  lemma NothingYet(g: Graph, o: Oracle, x: LoopSite, s: RunState, base: int, ref: Ref)
    requires s.status.Running? && Ready(g, s)
    ensures PerVisit(x, Rounds(g, o, s, 0), s.idx, base, |Gathered(g, o, x, s, 0, ref)|)
  {
    hide Round, WellFormed, Visits;
    assert s.flow.path[s.idx..s.idx] == [];
  }

  lemma AddsUp(x: LoopSite, t: RunState, r: RunState, start: nat, base: int, before: nat, after: nat)
    requires Adds(x, t, r, start, base, before, after) && PerVisit(x, t, start, base, before)
    ensures PerVisit(x, r, start, base, after)
  {
    hide Visits;
  }

  lemma ReadsEarlier(g: Graph, o: Oracle, x: LoopSite, s: RunState, n: nat, arr: seq<Val>)
    requires s.status.Running? && Ready(g, s) && n > 0 && Unbroken(Rounds(g, o, s, n))
    requires Rounds(g, o, s, n - 1).status.Running?
    requires Isolated(g, x) && x.p in g.specs && NotEntered(g, x, s) && EnteredOnceIn(x, Rounds(g, o, s, n), s.idx)
    requires Rounds(g, o, s, n).idx <= |Rounds(g, o, s, n).flow.path|
    requires ReadsList(o, x, Rounds(g, o, s, n).flow.path, s.idx, Rounds(g, o, s, n).idx, arr)
    ensures Rounds(g, o, s, n - 1).idx <= |Rounds(g, o, s, n - 1).flow.path|
    ensures ReadsList(o, x, Rounds(g, o, s, n - 1).flow.path, s.idx, Rounds(g, o, s, n - 1).idx, arr)
    ensures ReadsList(o, x, Kept(g, Rounds(g, o, s, n - 1)), Rounds(g, o, s, n - 1).idx,
                      |Kept(g, Rounds(g, o, s, n - 1))|, arr)
  {
    hide Round, WellFormed, Isolated, WovenIn, NotEntered, Kept;
    EarlierRound(g, o, x, s, n);
    var t, r := Rounds(g, o, s, n - 1), Rounds(g, o, s, n);
    RoundKeepsPrefix(g, o, t);
    RoundOutcome(g, o, t);
    assert t.flow.path[..t.idx] == r.flow.path[..t.idx];
    forall i: nat | s.idx <= i < t.idx && t.flow.path[i] == x.item ensures o(i).read == Array(arr) {
      assert t.flow.path[..t.idx][i] == r.flow.path[..t.idx][i];
    }
  }

  lemma VisitsOfRound(g: Graph, o: Oracle, x: LoopSite, s: RunState, n: nat)
    requires s.status.Running? && Ready(g, s) && n > 0 && Unbroken(Rounds(g, o, s, n))
    requires Rounds(g, o, s, n - 1).status.Running?
    requires Isolated(g, x) && x.p in g.specs && NotEntered(g, x, s) && EnteredOnceIn(x, Rounds(g, o, s, n), s.idx)
    ensures var t, r := Rounds(g, o, s, n - 1), Rounds(g, o, s, n);
      && s.idx <= t.idx <= |t.flow.path| && s.idx <= r.idx <= |r.flow.path| && t.idx <= |Kept(g, t)|
      && |Visits(r.flow.path, s.idx, r.idx, x.item)| ==
           |Visits(t.flow.path, s.idx, t.idx, x.item)| + |Visits(Kept(g, t), t.idx, |Kept(g, t)|, x.item)|
  {
    hide Round, WellFormed, Isolated, WovenIn, NotEntered, Kept, Visits;
    EarlierRound(g, o, x, s, n);
    var t, r := Rounds(g, o, s, n - 1), Rounds(g, o, s, n);
    var kept := Kept(g, t);
    assert kept[t.idx..|kept|] == kept[t.idx..];
    assert r.flow.path[s.idx..r.idx] == Since(r, s.idx);
    assert t.flow.path[s.idx..t.idx] == Since(t, s.idx);
  }

  lemma RoundGathersOne(g: Graph, o: Oracle, x: LoopSite, t: RunState, arr: seq<Val>, ref: Ref)
    requires t.status.Running? && Ready(g, t) && Isolated(g, x) && ref.source in g.specs
    requires x.item in t.flow.comps && multiset(Kept(g, t)[t.idx..])[x.item] <= 1
    requires ReadsList(o, x, Kept(g, t), t.idx, |Kept(g, t)|, arr)
    ensures var at := |Visits(Kept(g, t), t.idx, |Kept(g, t)|, x.item)|;
      at <= 1 && |RoundGathers(g, o, x, t, ref)| == if at == 1 && t.flow.comps[x.item].counter > 0 then 1 else 0
  {
    hide WellFormed, Isolated, Kept, Visits, InvokeUpTo;
    var kept := Kept(g, t);
    assert kept[t.idx..|kept|] == kept[t.idx..];
    var at := Visits(kept, t.idx, |kept|, x.item);
    if |at| == 1 {
      assert kept[t.idx..] == kept[t.idx..at[0]] + [x.item] + kept[at[0] + 1..];
      InvokeElsewhere(g, o, t.flow.comps, kept, t.idx, at[0], x.item);
    }
  }

  /** Exactness amid others: an iteration that has ended, and that was entered with a fresh counter
      or after an earlier end, has added one value for each element of its list to each output that
      it collates: the values its body had when the item was executed the next time, in order. */
  lemma CollectsAmidOthers(g: Graph, o: Oracle, x: LoopSite, s: RunState, m: nat, arr: seq<Val>, vals: Ref -> seq<Val>)
    requires s.status.Running? && Ready(g, s) && Unbroken(Rounds(g, o, s, m))
    requires Collects(g, x) && x.p in g.specs && NotEntered(g, x, s) && Holding(g, x, s.flow.comps, vals)
    requires s.flow.comps[x.item].counter in {0, -1} && EndedOnce(x, Rounds(g, o, s, m), s.idx)
    requires Private(o, x, s.idx, Rounds(g, o, s, m).idx)
    requires ReadsList(o, x, Rounds(g, o, s, m).flow.path, s.idx, Rounds(g, o, s, m).idx, arr)
    ensures x.p in Rounds(g, o, s, m).flow.comps
    ensures Holding(g, x, Rounds(g, o, s, m).flow.comps, ref => vals(ref) + Gathered(g, o, x, s, m, ref))
    ensures forall ref: Ref | ref.source in g.specs :: |Gathered(g, o, x, s, m, ref)| == |arr|
  {
    hide Round, Rounds, WellFormed, Isolated, Holding, Collects, NotEntered, ReadsList, Private, Gathered, Visits,
      RanPasses;
    ItemHasState(g, x, s);
    CollectsIsolated(g, x);
    var base, r := s.flow.comps[x.item].counter, Rounds(g, o, s, m);
    CollectsThroughout(g, o, x, s, m, vals);
    IterationAmidOthers(g, o, x, s, m, arr);
    RanVisits(g, o, x, base, r, s.idx, ListPasses(arr, base));
    PositiveFrom(base, ListPasses(arr, base) + 1);
    forall ref: Ref | ref.source in g.specs ensures |Gathered(g, o, x, s, m, ref)| == |arr| {
      GatheredPerVisit(g, o, x, s, m, arr, ref);
    }
  }

  lemma RanVisits(g: Graph, o: Oracle, x: LoopSite, base: int, r: RunState, start: nat, n: nat)
    requires x.p in g.specs && start <= r.idx <= |r.flow.path| && RanPasses(g, o, x, base, r, start, n)
    ensures |Visits(r.flow.path, start, r.idx, x.item)| == n + 1
  {
    hide Strand, Visits, Members;
  }
}
