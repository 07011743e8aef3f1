/** When a run ends. The only cycles of control that the engine is meant to have go through the
    item of an iteration or a loop, whose counter limits how often it passes. */
module Termination {
  import opened Values
  import opened Components
  import opened Scheduler
  import opened SchedulerLemmas
  import opened Runs

  predicate ItemAt(g: Graph, v: Id) {
    v in g.specs && IsItem(g.specs[v].kind)
  }

  /** Control edges between components that are not items climb a rank of at most `top`. */
  ghost predicate Ranked(g: Graph, rank: map<Id, nat>, top: nat) {
    && WellFormed(g)
    && rank.Keys == g.specs.Keys
    && (forall v | v in rank :: rank[v] <= top)
    && (forall u, v | Edge(g, u, v) && u in rank && v in rank && !ItemAt(g, u) && !ItemAt(g, v) :: rank[u] < rank[v])
  }

  /** Items count as higher than every rank. */
  function Level(g: Graph, rank: map<Id, nat>, top: nat, v: Id): nat
    requires v in rank
  {
    if ItemAt(g, v) then top + 1 else rank[v]
  }

  function ItemCount(g: Graph, ids: seq<Id>): nat {
    if ids == [] then 0
    else ItemCount(g, ids[..|ids| - 1]) + (if ItemAt(g, ids[|ids| - 1]) then 1 else 0)
  }

  lemma {:induction false} ItemCountSplit(g: Graph, a: seq<Id>, b: seq<Id>)
    ensures ItemCount(g, a + b) == ItemCount(g, a) + ItemCount(g, b)
    decreases |b|
  {
    if b == [] {
      assert a + b == a;
    } else {
      assert (a + b)[..|a + b| - 1] == a + b[..|b| - 1];
      ItemCountSplit(g, a, b[..|b| - 1]);
    }
  }

  lemma {:induction false} SomeItem(g: Graph, ids: seq<Id>, k: nat)
    requires k < |ids| && ItemAt(g, ids[k])
    ensures ItemCount(g, ids) >= 1
    decreases |ids|
  {
    if k < |ids| - 1 {
      SomeItem(g, ids[..|ids| - 1], k);
    }
  }

  /** After `k` rounds: every pending component is at least this high, given how many items the
      run has executed since `start`. */
  ghost predicate Climbed(g: Graph, rank: map<Id, nat>, top: nat, s: RunState, start: nat, k: nat)
    requires Known(g, s.flow.path) && rank.Keys == g.specs.Keys
  {
    && start <= s.idx <= |s.flow.path|
    && forall p | s.idx <= p < |s.flow.path| ::
         k <= ItemCount(g, s.flow.path[start..s.idx]) * (top + 2) + Level(g, rank, top, s.flow.path[p])
  }

  lemma Lift(e: nat, e': nat, top: nat, k: nat, low: nat, high: nat)
    requires k <= e * (top + 2) + low && low <= top + 1
    requires e' > e || (e' == e && high > low)
    ensures k + 1 <= e' * (top + 2) + high
  {
    if e' > e {
      assert e' * (top + 2) >= (e + 1) * (top + 2) == e * (top + 2) + (top + 2);
    }
  }

  /** What is pending after a round came from a component of the batch, which was pending before. */
  lemma ComesFrom(g: Graph, o: Oracle, s: RunState, p: nat) returns (q: nat, j: nat)
    requires s.status.Running? && Ready(g, s) && |Kept(g, s)| <= p < |Processed(g, o, s).path|
    ensures s.idx <= q < |Kept(g, s)| && Edge(g, Kept(g, s)[q], Processed(g, o, s).path[p])
    ensures s.idx <= j < |s.flow.path| && s.flow.path[j] == Kept(g, s)[q]
  {
    hide Keep, Edge, PostUpTo, InvokeUpTo, Admitted, WellFormed;
    var kept, pending := Kept(g, s), s.flow.path[s.idx..];
    q := PostUpToEdges(g, o, Invoked(g, o, s), s.idx, |kept|, p);
    KeptAreAdmitted(g, s.flow.path[..s.idx], pending);
    var u := kept[q];
    assert u == Keep(g, s.flow.path[..s.idx], pending)[q - s.idx];
    var d :| 0 <= d < |pending| && pending[d] == u;
    j := s.idx + d;
  }

  lemma RoundClimbs(g: Graph, o: Oracle, rank: map<Id, nat>, top: nat, s: RunState, start: nat, k: nat)
    requires s.status.Running? && Ready(g, s) && Ranked(g, rank, top)
    requires Climbed(g, rank, top, s, start, k)
    requires Round(g, o, s).status.Running?
    ensures Climbed(g, rank, top, Round(g, o, s), start, k + 1)
  {
    hide Round, Kept, Processed, Edge, WellFormed, ItemCount;
    var r := Round(g, o, s);
    RoundShape(g, o, s);
    var kept := Kept(g, s);
    var e, e' := ItemCount(g, s.flow.path[start..s.idx]), ItemCount(g, r.flow.path[start..r.idx]);
    assert r.flow.path[start..r.idx] == s.flow.path[start..s.idx] + kept[s.idx..];
    ItemCountSplit(g, s.flow.path[start..s.idx], kept[s.idx..]);
    forall p | r.idx <= p < |r.flow.path|
      ensures k + 1 <= e' * (top + 2) + Level(g, rank, top, r.flow.path[p])
    {
      var q, j := ComesFrom(g, o, s, p);
      if ItemAt(g, kept[q]) {
        SomeItem(g, kept[s.idx..], q - s.idx);
      }
      Lift(e, e', top, k, Level(g, rank, top, s.flow.path[j]), Level(g, rank, top, r.flow.path[p]));
    }
  }

  lemma {:induction false} ClimbsThroughout(g: Graph, o: Oracle, rank: map<Id, nat>, top: nat, s: RunState, n: nat)
    requires s.status.Running? && Ready(g, s) && Ranked(g, rank, top)
    requires Rounds(g, o, s, n).status.Running?
    ensures Climbed(g, rank, top, Rounds(g, o, s, n), s.idx, n)
    decreases n
  {
    hide Round, Climbed, Level, ItemCount, WellFormed, Edge;
    if n == 0 {
      ClimbedAtStart(g, rank, top, s);
    } else {
      var t := Rounds(g, o, s, n - 1);
      if !t.status.Running? {
        RoundOver(g, o, t);
      }
      ClimbsThroughout(g, o, rank, top, s, n - 1);
      RoundClimbs(g, o, rank, top, t, s.idx, n - 1);
    }
  }

  lemma ClimbedAtStart(g: Graph, rank: map<Id, nat>, top: nat, s: RunState)
    requires Ready(g, s) && rank.Keys == g.specs.Keys
    ensures Climbed(g, rank, top, s, s.idx, 0)
  {
    hide ItemCount, WellFormed;
  }

  /** The executed part of the path since `start`. */
  function Since(s: RunState, start: nat): seq<Id>
    requires start <= s.idx <= |s.flow.path|
  {
    s.flow.path[start..s.idx]
  }

  /** When control cycles only through items, a run that is still going after `n` rounds has
      executed at least about `n / (top + 2)` items. */
  lemma RoundsAreBoundedByItems(g: Graph, o: Oracle, rank: map<Id, nat>, top: nat, s: RunState, n: nat)
    requires s.status.Running? && Ready(g, s) && Ranked(g, rank, top)
    requires Rounds(g, o, s, n).status.Running?
    ensures s.idx <= Rounds(g, o, s, n).idx
    ensures n <= ItemCount(g, Since(Rounds(g, o, s, n), s.idx)) * (top + 2) + top + 1
  {
    hide Round, WellFormed, ItemCount;
    ClimbsThroughout(g, o, rank, top, s, n);
    var r := Rounds(g, o, s, n);
    assert Level(g, rank, top, r.flow.path[r.idx]) <= top + 1;
  }

  /** A graph without iterations and loops, whose control edges climb a rank of at most `top`:
      every component of the `n`-th batch has a rank of at least `n`. */
  lemma AcyclicBatchesClimb(g: Graph, o: Oracle, rank: map<Id, nat>, top: nat, s: RunState, n: nat, p: nat)
    requires s.status.Running? && Ready(g, s) && Ranked(g, rank, top)
    requires forall v | v in g.specs :: !ItemAt(g, v)
    requires Rounds(g, o, s, n).status.Running?
    requires Rounds(g, o, s, n).idx <= p < |Rounds(g, o, s, n).flow.path|
    ensures Rounds(g, o, s, n).flow.path[p] in rank && rank[Rounds(g, o, s, n).flow.path[p]] >= n
  {
    hide Round, WellFormed, ItemCount;
    ClimbsThroughout(g, o, rank, top, s, n);
    NoItems(g, Rounds(g, o, s, n).flow.path[s.idx..Rounds(g, o, s, n).idx]);
  }

  /** So the run is over after as many rounds as there are ranks. */
  lemma AcyclicRunsEnd(g: Graph, o: Oracle, rank: map<Id, nat>, top: nat, s: RunState, n: nat)
    requires s.status.Running? && Ready(g, s) && Ranked(g, rank, top)
    requires forall v | v in g.specs :: !ItemAt(g, v)
    requires n >= top + 1
    ensures !Rounds(g, o, s, n).status.Running?
  {
    hide Round, WellFormed, Edge;
    if Rounds(g, o, s, n).status.Running? {
      AcyclicBatchesClimb(g, o, rank, top, s, n, Rounds(g, o, s, n).idx);
    }
  }

  lemma {:induction false} NoItems(g: Graph, ids: seq<Id>)
    requires forall v | v in g.specs :: !ItemAt(g, v)
    ensures ItemCount(g, ids) == 0
  {
    if ids != [] {
      NoItems(g, ids[..|ids| - 1]);
    }
  }

  // ----- how often an item can be executed -----

  lemma {:induction false} CollateRefsCounters(comps: Comps, p: Id, source: Id, refs: seq<Ref>, w: Id)
    requires p in comps && source in comps && w in comps
    ensures CollateRefs(comps, p, source, refs).comps[w].counter == comps[w].counter
    decreases |refs|
  {
    if refs != [] {
      CollateRefsCounters(comps, p, source, refs[..|refs| - 1], w);
    }
  }

  lemma {:induction false} CollateCounters(g: Graph, comps: Comps, p: Id, ids: seq<Id>, w: Id)
    requires p in comps && p in g.specs && Known(g, ids) && comps.Keys == g.specs.Keys && w in comps
    ensures Collate(g, comps, p, ids).comps[w].counter == comps[w].counter
    decreases |ids|
  {
    hide CollateRefs;
    if ids != [] {
      var before := Collate(g, comps, p, ids[..|ids| - 1]);
      CollateCounters(g, comps, p, ids[..|ids| - 1], w);
      CollateRefsCounters(before.comps, p, ids[|ids| - 1], g.specs[p].refs, w);
    }
  }

  /** What an item may find, if its list or its loop count is at most `limit`. */
  ghost predicate Within(g: Graph, v: Id, r: Reply, limit: nat)
    requires WellFormed(g)
  {
    ItemAt(g, v) ==>
      (assert WellFormedSpec(g, v);
       if g.specs[v].kind.IterationItem? then r.read.Array? ==> |r.read.vs| <= limit
       else g.specs[g.specs[v].parent.value].maxLoops <= limit)
  }

  /** Invoking a component moves no counter but its own, and an item's own counter only one up,
      at most to the limit, or to -1. */
  lemma InvokeCounters(g: Graph, comps: Comps, v: Id, r: Reply, w: Id, limit: nat)
    requires WellFormed(g) && v in g.specs && w in g.specs && comps.Keys == g.specs.Keys && Within(g, v, r, limit)
    ensures var before, after := comps[w].counter, Invoke(g, comps, v, r)[w].counter;
      after == before || (v == w && ItemAt(g, v) && (after == -1 || (after == before + 1 && after <= limit)))
  {
    hide InvokeIterationItem, InvokeForeign, WellFormed;
    assert WellFormedSpec(g, v) by { SpecFits(g, v); }
    if g.specs[v].kind.IterationItem? {
      ItemCounters(g, comps, v, r, w, limit);
    } else if !g.specs[v].kind.LoopItem? {
      ForeignCounters(g, comps, v, r, w);
    }
  }

  lemma SpecFits(g: Graph, v: Id)
    requires WellFormed(g) && v in g.specs
    ensures WellFormedSpec(g, v)
  {
  }

  lemma ItemCounters(g: Graph, comps: Comps, v: Id, r: Reply, w: Id, limit: nat)
    requires WellFormed(g) && v in g.specs && w in g.specs && comps.Keys == g.specs.Keys && Within(g, v, r, limit)
    requires g.specs[v].kind.IterationItem?
    ensures var before, after := comps[w].counter, InvokeIterationItem(g, comps, v, r.read)[w].counter;
      after == before || (v == w && (after == -1 || (after == before + 1 && after <= limit)))
  {
    assert WellFormedSpec(g, v);
    hide Collate, Excepted, WellFormed, Advance;
    var p := g.specs[v].parent.value;
    CollateCounters(g, comps, p, g.order, w);
    ExceptedCounter(g.specs[v]);
    if r.read.Array? {
      AdvanceCounters(g.specs[v], comps, v, r.read.vs, w);
      AdvanceCounters(g.specs[v], Collate(g, comps, p, g.order).comps, v, r.read.vs, w);
    }
  }

  lemma AdvanceCounters(c: Spec, comps: Comps, v: Id, vs: seq<Val>, w: Id)
    requires v in comps && w in comps
    ensures var before, after := comps[w].counter, Advance(c, comps, v, vs)[w].counter;
      after == before || (v == w && (after == -1 || (after == before + 1 && after <= |vs|)))
  {
    hide ElementAt, Excepted;
    ExceptedCounter(c);
  }

  lemma ExceptedCounter(c: Spec)
    ensures forall s: Comp, msg: string :: Excepted(c, s, msg).counter == s.counter
  {
  }

  lemma ForeignCounters(g: Graph, comps: Comps, v: Id, r: Reply, w: Id)
    requires v in g.specs && v in comps && w in comps
    ensures InvokeForeign(g, comps, v, r)[w].counter == comps[w].counter
  {
  }

  /** Post-processing moves a counter only to -1. */
  lemma PostCounters(g: Graph, f: Flow, v: Id, r: Reply, w: Id)
    requires Sound(g, f) && v in g.specs && w in g.specs
    ensures Post(g, f, v, r).comps[w].counter in {f.comps[w].counter, -1}
  {
    hide WellFormed, MessageStep, FinishStep, EndStep, Extend, Successors;
    MessageCounter(g, f, v, r, w);
    var m := MessageStep(g, f, v, r);
    if !m.crashed {
      FinishCounter(g, ErrorStep(g, m, v), v, w);
      EndCounter(g, FinishStep(g, ErrorStep(g, m, v), v), v, r, w);
    }
  }

  lemma MessageCounter(g: Graph, f: Flow, v: Id, r: Reply, w: Id)
    requires Sound(g, f) && v in g.specs && w in g.specs
    ensures MessageStep(g, f, v, r).comps[w].counter == f.comps[w].counter
  {
    hide WellFormed, Drainable, LateEvents;
  }

  lemma FinishCounter(g: Graph, f: Flow, v: Id, w: Id)
    requires Sound(g, f) && v in g.specs && w in g.specs
    ensures FinishStep(g, f, v).comps[w].counter == f.comps[w].counter
  {
    hide WellFormed;
  }

  lemma EndCounter(g: Graph, f: Flow, v: Id, r: Reply, w: Id)
    requires Sound(g, f) && v in g.specs && w in g.specs
    ensures EndStep(g, f, v, r).comps[w].counter in {f.comps[w].counter, -1}
  {
    hide LoopConditions.VerdictOf;
    assert WellFormedSpec(g, v);
  }

  lemma {:induction false} PostUpToCounters(g: Graph, o: Oracle, f: Flow, from: nat, hi: nat, w: Id)
    requires Sound(g, f) && from <= hi <= |f.path| && w in g.specs
    ensures PostUpTo(g, o, f, from, hi).comps[w].counter in {f.comps[w].counter, -1}
    decreases hi
  {
    hide Post, WellFormed;
    if from < hi {
      PostUpToCounters(g, o, f, from, hi - 1, w);
      var before := PostUpTo(g, o, f, from, hi - 1);
      if !before.crashed {
        PostCounters(g, before, before.path[hi - 1], o(hi - 1), w);
      }
    }
  }

  /** Item `w` has run `count` times, and its counter shows it. */
  predicate Counted(counter: int, count: nat, limit: nat) {
    -1 <= counter <= limit && count <= (if counter == -1 then limit + 1 else counter)
  }

  /** At every invocation of an item in this round the item has not ended yet and its counter
      moves: it is not entered again, and it can read its list. */
  ghost predicate ItemsAdvance(g: Graph, o: Oracle, s: RunState)
    requires Ready(g, s)
  {
    forall i | s.idx <= i < |Kept(g, s)| :: AdvancesAt(g, o, s, i)
  }

  ghost predicate AdvancesAt(g: Graph, o: Oracle, s: RunState, i: nat)
    requires Ready(g, s) && s.idx <= i < |Kept(g, s)|
  {
    var v := Kept(g, s)[i];
    ItemAt(g, v) ==>
      var before := InvokeUpTo(g, o, s.flow.comps, Kept(g, s), s.idx, i);
      before[v].counter >= 0 && Invoke(g, before, v, o(i))[v].counter != before[v].counter
  }

  ghost predicate AllWithin(g: Graph, o: Oracle, limit: nat)
    requires WellFormed(g)
  {
    forall v, i: nat | v in g.specs :: Within(g, v, o(i), limit)
  }

  lemma {:induction false} BatchCounted(g: Graph, o: Oracle, s: RunState, i: nat, w: Id, limit: nat, count: nat)
    requires Ready(g, s) && s.idx <= i <= |Kept(g, s)| && ItemAt(g, w)
    requires ItemsAdvance(g, o, s) && AllWithin(g, o, limit)
    requires Counted(s.flow.comps[w].counter, count, limit)
    ensures Counted(InvokeUpTo(g, o, s.flow.comps, Kept(g, s), s.idx, i)[w].counter,
                    count + multiset(Kept(g, s)[s.idx..i])[w], limit)
    decreases i
  {
    hide Invoke, Kept, WellFormed, Within;
    var kept := Kept(g, s);
    if i == s.idx {
      assert kept[s.idx..i] == [];
    } else {
      BatchCounted(g, o, s, i - 1, w, limit, count);
      var before := InvokeUpTo(g, o, s.flow.comps, kept, s.idx, i - 1);
      var v := kept[i - 1];
      assert AdvancesAt(g, o, s, i - 1);
      assert kept[s.idx..i] == kept[s.idx..i - 1] + [v];
      assert Within(g, v, o(i - 1), limit);
      InvokeCounters(g, before, v, o(i - 1), w, limit);
    }
  }

  lemma RoundCounted(g: Graph, o: Oracle, s: RunState, w: Id, limit: nat, count: nat)
    requires s.status.Running? && Ready(g, s) && ItemAt(g, w) && Round(g, o, s).status.Running?
    requires ItemsAdvance(g, o, s) && AllWithin(g, o, limit)
    requires Counted(s.flow.comps[w].counter, count, limit)
    ensures Counted(Round(g, o, s).flow.comps[w].counter, count + multiset(Kept(g, s)[s.idx..])[w], limit)
  {
    hide ItemsAdvance, AllWithin, WellFormed, Keep, PostUpTo, InvokeUpTo, StartedEvents, OfKind, DroppedBy;
    var kept := Kept(g, s);
    BatchCounted(g, o, s, |kept|, w, limit, count);
    assert kept[s.idx..|kept|] == kept[s.idx..];
    PostUpToCounters(g, o, Invoked(g, o, s), s.idx, |kept|, w);
  }

  /** Every round up to the `n`-th lets its items advance. */
  ghost predicate AdvancesUpTo(g: Graph, o: Oracle, s: RunState, n: nat)
    requires s.status.Running? && Ready(g, s)
  {
    forall k: nat | k < n && Rounds(g, o, s, k).status.Running? :: ItemsAdvance(g, o, Rounds(g, o, s, k))
  }

  lemma CountedAtStart(limit: nat)
    ensures Counted(0, 0, limit)
  {
  }

  lemma ItemRunsStep(g: Graph, o: Oracle, t: RunState, start: nat, w: Id, limit: nat)
    requires t.status.Running? && Ready(g, t) && ItemAt(g, w) && AllWithin(g, o, limit) && start <= t.idx
    requires ItemsAdvance(g, o, t) && Round(g, o, t).status.Running?
    requires Counted(t.flow.comps[w].counter, multiset(Since(t, start))[w], limit)
    ensures start <= Round(g, o, t).idx
    ensures Counted(Round(g, o, t).flow.comps[w].counter, multiset(Since(Round(g, o, t), start))[w], limit)
  {
    hide Round, ItemsAdvance, AllWithin, WellFormed, Keep, Counted, Processed;
    RoundShape(g, o, t);
    RoundCounted(g, o, t, w, limit, multiset(Since(t, start))[w]);
    assert Since(Round(g, o, t), start) == Since(t, start) + Kept(g, t)[t.idx..];
  }

  lemma {:induction false} ItemRuns(g: Graph, o: Oracle, s: RunState, n: nat, w: Id, limit: nat)
    requires s.status.Running? && Ready(g, s) && ItemAt(g, w) && AllWithin(g, o, limit)
    requires s.flow.comps[w].counter == 0
    requires AdvancesUpTo(g, o, s, n) && Rounds(g, o, s, n).status.Running?
    ensures s.idx <= Rounds(g, o, s, n).idx
    ensures Counted(Rounds(g, o, s, n).flow.comps[w].counter, multiset(Since(Rounds(g, o, s, n), s.idx))[w], limit)
    decreases n
  {
    hide Round, ItemsAdvance, AllWithin, WellFormed, Kept, Counted, ItemAt;
    if n == 0 {
      CountedAtStart(limit);
      assert Since(s, s.idx) == [];
    } else {
      var t := Rounds(g, o, s, n - 1);
      if !t.status.Running? {
        RoundOver(g, o, t);
      }
      ItemRuns(g, o, s, n - 1, w, limit);
      ItemRunsStep(g, o, t, s.idx, w, limit);
    }
  }

  // ----- the bound -----

  function CountIn(ids: seq<Id>, among: set<Id>): nat {
    if ids == [] then 0
    else CountIn(ids[..|ids| - 1], among) + (if ids[|ids| - 1] in among then 1 else 0)
  }

  lemma {:induction false} CountInSplit(ids: seq<Id>, among: set<Id>, w: Id)
    requires w in among
    ensures CountIn(ids, among) == CountIn(ids, among - {w}) + multiset(ids)[w]
    decreases |ids|
  {
    if ids != [] {
      CountInSplit(ids[..|ids| - 1], among, w);
      assert ids == ids[..|ids| - 1] + [ids[|ids| - 1]];
    }
  }

  lemma {:induction false} CountInBound(ids: seq<Id>, among: set<Id>, each: nat)
    requires forall w | w in among :: multiset(ids)[w] <= each
    ensures CountIn(ids, among) <= |among| * each
    decreases |among|
  {
    if among == {} {
      CountInNone(ids);
    } else {
      var w :| w in among;
      CountInSplit(ids, among, w);
      CountInBound(ids, among - {w}, each);
      assert |among| == |among - {w}| + 1;
      assert |among| * each == |among - {w}| * each + each;
    }
  }

  lemma {:induction false} CountInNone(ids: seq<Id>)
    ensures CountIn(ids, {}) == 0
  {
    if ids != [] {
      CountInNone(ids[..|ids| - 1]);
    }
  }

  function Items(g: Graph): set<Id> {
    set v | v in g.specs && ItemAt(g, v)
  }

  lemma {:induction false} ItemCountIsCountIn(g: Graph, ids: seq<Id>)
    ensures ItemCount(g, ids) == CountIn(ids, Items(g))
  {
    if ids != [] {
      ItemCountIsCountIn(g, ids[..|ids| - 1]);
    }
  }

  /** Termination with iterations and loops: if control cycles only through items, every list and
      every loop count is at most `limit`, counters start fresh, and no item is entered again
      after it has ended or fails to read its list, then the number of rounds is bounded. */
  lemma RunsWithLoopsEnd(g: Graph, o: Oracle, rank: map<Id, nat>, top: nat, limit: nat, s: RunState, n: nat)
    requires s.status.Running? && Ready(g, s) && Ranked(g, rank, top) && AllWithin(g, o, limit)
    requires forall w | w in g.specs && ItemAt(g, w) :: s.flow.comps[w].counter == 0
    requires AdvancesUpTo(g, o, s, n)
    requires n > (|Items(g)| * (limit + 1)) * (top + 2) + top + 1
    ensures !Rounds(g, o, s, n).status.Running?
  {
    hide Round, WellFormed, ItemCount, Ranked, AllWithin, AdvancesUpTo;
    if Rounds(g, o, s, n).status.Running? {
      RoundsAreBoundedByItems(g, o, rank, top, s, n);
      var ran := Since(Rounds(g, o, s, n), s.idx);
      forall w | w in Items(g) ensures multiset(ran)[w] <= limit + 1 {
        ItemRuns(g, o, s, n, w, limit);
      }
      CountInBound(ran, Items(g), limit + 1);
      ItemCountIsCountIn(g, ran);
      Scale(ItemCount(g, ran), |Items(g)| * (limit + 1), top + 2);
    }
  }

  lemma Scale(a: nat, b: nat, c: nat)
    requires a <= b
    ensures a * c <= b * c
  {
  }
}
