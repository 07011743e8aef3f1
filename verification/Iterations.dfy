/** An iteration over a list of length n with a straight-line body: the run executes item and body
    n times and the item once more, publishes the elements and their indices in order, and
    collects one value of each referred component per pass. */
module Iterations {
  import opened Values
  import opened LoopConditions
  import opened Components
  import opened Scheduler
  import opened Collating
  import opened Unrolling

  /** An iteration, its item, its body and the list it runs over. */
  datatype Site = Site(p: Id, item: Id, body: seq<Id>, arr: seq<Val>) {
    function Period(): nat {
      |body| + 1
    }
  }

  /** The collated outputs of an iteration have different names and do not refer to itself. */
  ghost predicate RefsFit(g: Graph, p: Id)
    requires p in g.specs
  {
    && ListsAll(g) && DistinctNames(g.specs[p].refs)
    && forall k | 0 <= k < |g.specs[p].refs| :: g.specs[p].refs[k].source != p
  }

  ghost predicate Fits(g: Graph, x: Site) {
    Straight(g, x.p, x.item, x.body) && g.specs[x.p].kind.Iteration? && RefsFit(g, x.p)
  }

  /** From position `lo` to the end of the iteration nothing goes wrong, and the item always reads
      the list `arr`. */
  ghost predicate Undisturbed(o: Oracle, x: Site, lo: nat) {
    forall i: nat | lo <= i <= lo + |x.arr| * x.Period() :: Quiet(o(i), {x.p}) && o(i).read == Array(x.arr)
  }

  lemma Inside(x: Site, n: nat)
    requires n <= |x.arr|
    ensures n * x.Period() <= |x.arr| * x.Period()
    ensures n < |x.arr| ==> n * x.Period() + x.Period() <= |x.arr| * x.Period()
  {
    if n < |x.arr| {
      assert (n + 1) * x.Period() <= |x.arr| * x.Period();
    }
  }

  /** The run is about to execute the item, nothing in the container has failed, and the producers
      of item and body are on the path. */
  ghost predicate Entering(g: Graph, s: RunState, x: Site) {
    && Solo(g, s, x.item)
    && Supplied(g, s.flow.path[..s.idx], x.item)
    && BodySupplied(g, s.flow.path, x.body)
    && NoErrors(s.flow.comps, [x.item] + x.body)
  }

  /** The values of one reference after passes 1 to `n`. */
  function Gathered(g: Graph, o: Oracle, s: RunState, x: Site, ref: Ref, n: nat): (r: seq<Val>)
    requires s.status.Running? ==> Ready(g, s)
    ensures |r| == n
  {
    if n == 0 then []
    else
      var comps := Rounds(g, o, s, n * x.Period()).flow.comps;
      Gathered(g, o, s, x, ref, n - 1) +
      [if ref.source in comps then Out(comps[ref.source], ref.variable) else Null]
  }

  /** Each collected output of the container holds the values of the first `n` passes. */
  ghost predicate Holds(g: Graph, o: Oracle, s: RunState, x: Site, comps: Comps, n: nat)
    requires s.status.Running? ==> Ready(g, s)
    requires x.p in g.specs && x.p in comps
  {
    forall k | 0 <= k < |g.specs[x.p].refs| && Serves(g, x.p, g.specs[x.p].refs[k]) ::
      HoldsRef(g, o, s, x, comps, n, g.specs[x.p].refs[k])
  }

  ghost predicate HoldsRef(g: Graph, o: Oracle, s: RunState, x: Site, comps: Comps, n: nat, ref: Ref)
    requires s.status.Running? ==> Ready(g, s)
    requires x.p in comps
  {
    Collected(Out(comps[x.p], ref.name), Gathered(g, o, s, x, ref, n))
  }

  // ----- the item's invocation -----

  /** The item's counter and outputs after a step that did not end it. */
  ghost predicate Published(c: Comp, arr: seq<Val>, i: nat)
    requires i < |arr|
  {
    Out(c, "item") == arr[i] && Out(c, "index") == Num(i as real) && c.counter == i + 1
  }

  /** The collation that precedes pass `n + 1` succeeds and appends the values of pass `n`. */
  lemma CollateHolds(g: Graph, o: Oracle, s: RunState, x: Site, comps: Comps, n: nat)
    requires s.status.Running? && Ready(g, s) && Fits(g, x) && comps.Keys == g.specs.Keys && n > 0
    requires comps == Rounds(g, o, s, n * x.Period()).flow.comps
    requires Holds(g, o, s, x, comps, n - 1)
    ensures var r := Collate(g, comps, x.p, g.order);
      !r.raised && OnlyOutputs(comps, r.comps, x.p) && Holds(g, o, s, x, r.comps, n)
  {
    assert Known(g, g.order);
    hide Round, WellFormed, Rounds, ListsAll;
    var refs := g.specs[x.p].refs;
    forall k | 0 <= k < |refs| && Serves(g, x.p, refs[k]) ensures Appendable(comps, x.p, refs[k]) {
      var vs := Gathered(g, o, s, x, refs[k], n - 1);
      assert HoldsRef(g, o, s, x, comps, n - 1, refs[k]);
      AppendedCollects(Out(comps[x.p], refs[k].name), vs, Out(comps[refs[k].source], refs[k].variable));
    }
    CollationAppendsEach(g, comps, x.p);
    var r := Collate(g, comps, x.p, g.order);
    forall k | 0 <= k < |refs| && Serves(g, x.p, refs[k]) ensures HoldsRef(g, o, s, x, r.comps, n, refs[k]) {
      var vs := Gathered(g, o, s, x, refs[k], n - 1);
      assert HoldsRef(g, o, s, x, comps, n - 1, refs[k]);
      assert Effect(comps, r.comps, x.p, refs[k], true);
      AppendedCollects(Out(comps[x.p], refs[k].name), vs, Out(comps[refs[k].source], refs[k].variable));
    }
  }

  lemma AdvancePublishes(c: Spec, comps: Comps, v: Id, arr: seq<Val>)
    requires v in comps && 0 <= comps[v].counter <= |arr|
    ensures var after := Advance(c, comps, v, arr);
      && (forall w | w in comps && w != v :: after[w] == comps[w]) && after[v].error == comps[v].error
      && (if comps[v].counter < |arr| then Published(after[v], arr, comps[v].counter) else after[v].counter == -1)
  {
  }

  /** Invoking the item at the head of pass `n`. */
  lemma InvokeItemHolds(g: Graph, o: Oracle, s: RunState, x: Site, comps: Comps, n: nat)
    requires s.status.Running? && Ready(g, s) && Fits(g, x) && comps.Keys == g.specs.Keys
    requires comps == Rounds(g, o, s, n * x.Period()).flow.comps
    requires Holds(g, o, s, x, comps, if n == 0 then 0 else n - 1)
    requires comps[x.item].counter == n && n <= |x.arr|
    ensures var after := InvokeIterationItem(g, comps, x.item, Array(x.arr));
      && Calm(comps, after, x.item) && Holds(g, o, s, x, after, n)
      && (if n < |x.arr| then Published(after[x.item], x.arr, n) else after[x.item].counter == -1)
  {
    CollatedFirst(g, comps, x);
    hide Round, WellFormed, Rounds, ListsAll, Collate, Holds, RefsFit, Advance, InvokeIterationItem, Straight;
    if n > 0 {
      CollateHolds(g, o, s, x, comps, n);
    }
    var done := Before(g, comps, x);
    AdvancePublishes(g.specs[x.item], done.comps, x.item, x.arr);
    HoldsElsewhere(g, o, s, x, done.comps, Advance(g.specs[x.item], done.comps, x.item, x.arr), n);
  }

  /** The collation that the item runs before it looks for its next element. */
  function Before(g: Graph, comps: Comps, x: Site): Collation
    requires x.p in g.specs && x.item in g.specs && comps.Keys == g.specs.Keys && Known(g, g.order)
  {
    if comps[x.item].counter > 0 then Collate(g, comps, x.p, g.order) else Collation(comps, false)
  }

  lemma CollatedFirst(g: Graph, comps: Comps, x: Site)
    requires Fits(g, x) && comps.Keys == g.specs.Keys
    ensures Known(g, g.order) && x.item != x.p && x.item in g.specs
    ensures var done := Before(g, comps, x);
      !done.raised && x.item in done.comps ==>
        InvokeIterationItem(g, comps, x.item, Array(x.arr)) == Advance(g.specs[x.item], done.comps, x.item, x.arr)
  {
    assert WellFormedSpec(g, x.item);
    hide Collate, Advance, ListsAll, DistinctNames;
  }

  lemma HoldsElsewhere(g: Graph, o: Oracle, s: RunState, x: Site, a: Comps, b: Comps, n: nat)
    requires s.status.Running? ==> Ready(g, s)
    requires x.p in g.specs && x.p in a && x.p in b && a[x.p].outs == b[x.p].outs
    requires Holds(g, o, s, x, a, n)
    ensures Holds(g, o, s, x, b, n)
  {
    hide Round, WellFormed, Rounds;
    var refs := g.specs[x.p].refs;
    forall k | 0 <= k < |refs| && Serves(g, x.p, refs[k]) ensures HoldsRef(g, o, s, x, b, n, refs[k]) {
      assert HoldsRef(g, o, s, x, a, n, refs[k]);
    }
  }

  // ----- rounds of the item -----

  /** Pass `n` is about to begin in state `r`. */
  ghost predicate Head(g: Graph, o: Oracle, s: RunState, x: Site, r: RunState, n: nat)
    requires s.status.Running? && Ready(g, s) && x.p in g.specs && x.item in g.specs
  {
    && Solo(g, r, x.item)
    && r.flow.path == s.flow.path[..s.idx] + Unroll(x.item, x.body, n) + [x.item]
    && r.idx == s.idx + n * x.Period()
    && r.flow.comps[x.item].counter == n
    && NoErrors(r.flow.comps, [x.item] + x.body)
    && Holds(g, o, s, x, r.flow.comps, if n == 0 then 0 else n - 1)
  }

  /** The item has published element `n`, and control is at the front of the body. */
  ghost predicate InPass(g: Graph, o: Oracle, s: RunState, x: Site, r: RunState, t: RunState, n: nat)
    requires s.status.Running? && Ready(g, s) && x.p in g.specs && x.item in g.specs && x.body != []
  {
    && Solo(g, t, x.body[0])
    && t.flow.path == r.flow.path + [x.body[0]] && t.idx == r.idx + 1
    && n < |x.arr| && Published(t.flow.comps[x.item], x.arr, n)
    && NoErrors(t.flow.comps, [x.item] + x.body)
    && Holds(g, o, s, x, t.flow.comps, n)
  }

  /** The item has found its list exhausted: the state after post-processing it. */
  ghost predicate Exhausted(g: Graph, o: Oracle, s: RunState, x: Site, r: RunState, f: Flow, n: nat)
    requires s.status.Running? && Ready(g, s) && x.p in g.specs
  {
    && f.path == Extend(r.flow.path, g.specs[x.p].downstream)
    && f.error == "" && !f.crashed && f.comps.Keys == g.specs.Keys
    && x.item in f.comps && f.comps[x.item].counter == -1
    && Holds(g, o, s, x, f.comps, n)
  }

  lemma HeadSupplied(g: Graph, o: Oracle, s: RunState, x: Site, r: RunState, n: nat)
    requires s.status.Running? && Ready(g, s) && Fits(g, x) && Entering(g, s, x) && Head(g, o, s, x, r, n)
    ensures Supplied(g, r.flow.path[..r.idx], x.item) && BodySupplied(g, r.flow.path, x.body)
  {
    hide Fits, Holds, WellFormed, BodySupplied, Supplied, NoErrors;
    assert r.flow.path[..r.idx] == s.flow.path[..s.idx] + Unroll(x.item, x.body, n);
    SuppliedMore(g, s.flow.path[..s.idx], r.flow.path[..r.idx], x.item);
    assert s.flow.path == s.flow.path[..s.idx] + [x.item];
    BodySuppliedMore(g, s.flow.path, r.flow.path, x.body);
  }

  /** The post-processing of the item at the head of pass `n`. */
  lemma ItemProcessed(g: Graph, o: Oracle, s: RunState, x: Site, r: RunState, n: nat)
    requires s.status.Running? && Ready(g, s) && Fits(g, x) && Entering(g, s, x) && Undisturbed(o, x, s.idx)
    requires n <= |x.arr| && r == Rounds(g, o, s, n * x.Period()) && Head(g, o, s, x, r, n)
    ensures ItemDone(g, Invoked(g, o, r), Processed(g, o, r), x.p, x.item, x.body,
                     if n < |x.arr| then Go else Stop)
    ensures Invoked(g, o, r).path == r.flow.path
    ensures Calm(r.flow.comps, Invoked(g, o, r).comps, x.item) && Holds(g, o, s, x, Invoked(g, o, r).comps, n)
    ensures if n < |x.arr| then Published(Invoked(g, o, r).comps[x.item], x.arr, n)
            else Invoked(g, o, r).comps[x.item].counter == -1
  {
    hide Round, WellFormed, Rounds, Holds, Kept, Processed, Invoked, InvokeIterationItem, Post, ItemDone, RefsFit,
      Supplied, BodySupplied;
    HeadSupplied(g, o, s, x, r, n);
    Inside(x, n);
    assert r.flow.comps[([x.item] + x.body)[0]].error == "";
    SoloProcessed(g, o, r, x.item);
    InvokeItemHolds(g, o, s, x, r.flow.comps, n);
    ItemPost(g, Invoked(g, o, r), x.p, x.item, x.body, o(r.idx));
  }

  lemma PublishedStays(before: Comps, after: Comps, item: Id, arr: seq<Val>, n: nat)
    requires item in before && Alike(before, after, item) && n < |arr| && Published(before[item], arr, n)
    requires after[item].counter == before[item].counter
    ensures Published(after[item], arr, n)
  {
  }

  /** The state after the item has been post-processed in a pass. */
  lemma GoProcessed(g: Graph, o: Oracle, s: RunState, x: Site, r: RunState, n: nat)
    requires s.status.Running? && Ready(g, s) && Fits(g, x) && Entering(g, s, x) && Undisturbed(o, x, s.idx)
    requires n < |x.arr| && r == Rounds(g, o, s, n * x.Period()) && Head(g, o, s, x, r, n) && x.body != []
    ensures var f := Processed(g, o, r);
      && f.path == r.flow.path + [x.body[0]] && f.error == "" && !f.crashed && f.comps.Keys == g.specs.Keys
      && Published(f.comps[x.item], x.arr, n) && NoErrors(f.comps, [x.item] + x.body) && Holds(g, o, s, x, f.comps, n)
  {
    hide Round, WellFormed, Rounds, Holds, Kept, Processed, Invoked, RefsFit, Supplied, BodySupplied, Published, Calm,
      Alike, NoErrors, Straight;
    BodyFront(g, x.p, x.item, x.body);
    ItemProcessed(g, o, s, x, r, n);
    var i, f := Invoked(g, o, r), Processed(g, o, r);
    ErrorFree(r.flow.comps, i.comps, x.item, [x.item] + x.body);
    AlikeCalm(r.flow.comps, i.comps, f.comps, x.item);
    ErrorFree(r.flow.comps, f.comps, x.item, [x.item] + x.body);
    PublishedStays(i.comps, f.comps, x.item, x.arr, n);
    AlikeElsewhere(i.comps, f.comps, x.item, x.p);
    HoldsElsewhere(g, o, s, x, i.comps, f.comps, n);
  }

  lemma GoRound(g: Graph, o: Oracle, s: RunState, x: Site, r: RunState, n: nat)
    requires s.status.Running? && Ready(g, s) && Fits(g, x) && Entering(g, s, x) && Undisturbed(o, x, s.idx)
    requires n < |x.arr| && r == Rounds(g, o, s, n * x.Period()) && Head(g, o, s, x, r, n)
    ensures InPass(g, o, s, x, r, Round(g, o, r), n)
  {
    hide Round, WellFormed, Rounds, Holds, Kept, Processed, RefsFit, Supplied, BodySupplied, Published, NoErrors,
      Straight;
    BodyFront(g, x.p, x.item, x.body);
    HeadSupplied(g, o, s, x, r, n);
    GoProcessed(g, o, s, x, r, n);
    Inside(x, n);
    SoloMove(g, o, r, x.item, x.body[0]);
  }

  lemma AlikeElsewhere(a: Comps, b: Comps, item: Id, p: Id)
    requires item in a && p in a && p != item && Alike(a, b, item)
    ensures p in b && b[p] == a[p]
  {
  }

  /** The rounds of the body, in pass `n`. */
  lemma BodyPhase(g: Graph, o: Oracle, s: RunState, x: Site, r: RunState, t: RunState, n: nat)
    requires s.status.Running? && Ready(g, s) && Fits(g, x) && Entering(g, s, x) && Undisturbed(o, x, s.idx)
    requires Head(g, o, s, x, r, n) && InPass(g, o, s, x, r, t, n)
    ensures Head(g, o, s, x, Rounds(g, o, t, |x.body|), n + 1)
  {
    hide Round, WellFormed, Rounds, Holds, Kept, RefsFit, Supplied, BodySupplied, Published, Steady, Quiet, NoErrors,
      Straight;
    HeadSupplied(g, o, s, x, r, n);
    assert t.flow.path[..t.idx] == r.flow.path;
    TailErrors(t.flow.comps, x.item, x.body);
    SiteDistinct(g, x);
    Inside(x, n);
    BodyRun(g, o, t, x.p, {x.p}, x.item, x.body, |x.body|);
    assert x.body[..|x.body|] == x.body;
    var r' := Rounds(g, o, t, |x.body|);
    SteadyErrors(t.flow.comps, r'.flow.comps, {x.p}, [x.item] + x.body);
    SteadyAt(t.flow.comps, r'.flow.comps, {x.p}, x.p);
    SteadyAt(t.flow.comps, r'.flow.comps, {x.p}, x.item);
    PublishedCounter(t.flow.comps[x.item], x.arr, n);
    HoldsElsewhere(g, o, s, x, t.flow.comps, r'.flow.comps, n);
    PassPath(s.flow.path[..s.idx], x.item, x.body, n, r.flow.path);
  }

  /** One pass: from the head of pass `n` to the head of pass `n + 1`. */
  lemma PassOnce(g: Graph, o: Oracle, s: RunState, x: Site, n: nat)
    requires s.status.Running? && Ready(g, s) && Fits(g, x) && Entering(g, s, x) && Undisturbed(o, x, s.idx)
    requires n < |x.arr| && Head(g, o, s, x, Rounds(g, o, s, n * x.Period()), n)
    ensures Head(g, o, s, x, Rounds(g, o, s, (n + 1) * x.Period()), n + 1)
  {
    hide Round, WellFormed, Rounds, Head, InPass, Fits, Entering, Undisturbed;
    var r := Rounds(g, o, s, n * x.Period());
    GoRound(g, o, s, x, r, n);
    BodyPhase(g, o, s, x, r, Round(g, o, r), n);
    RoundsOfPass(g, o, s, n, x.Period());
  }

  lemma PublishedCounter(c: Comp, arr: seq<Val>, n: nat)
    requires n < |arr| && Published(c, arr, n)
    ensures c.counter == n + 1
  {
  }

  /** The heads of all passes: after `n` passes the path has grown by exactly `n` copies of item
      and body, and the values of the first `n - 1` passes have been collected. */
  lemma {:induction false} IterationPasses(g: Graph, o: Oracle, s: RunState, x: Site, n: nat)
    requires s.status.Running? && Ready(g, s) && Fits(g, x) && Entering(g, s, x) && Undisturbed(o, x, s.idx)
    requires s.flow.comps[x.item].counter == 0 && Holds(g, o, s, x, s.flow.comps, 0)
    requires n <= |x.arr|
    ensures Head(g, o, s, x, Rounds(g, o, s, n * x.Period()), n)
    decreases n
  {
    hide Round, WellFormed, Holds, Kept, Supplied, BodySupplied, NoErrors, Fits;
    if n == 0 {
      assert Rounds(g, o, s, 0) == s;
      assert s.flow.path == s.flow.path[..s.idx] + [] + [x.item];
    } else {
      IterationPasses(g, o, s, x, n - 1);
      PassOnce(g, o, s, x, n - 1);
    }
  }

  /** In pass `n` the item publishes element `n` and index `n`. */
  lemma ElementsInOrder(g: Graph, o: Oracle, s: RunState, x: Site, n: nat)
    requires s.status.Running? && Ready(g, s) && Fits(g, x) && Entering(g, s, x) && Undisturbed(o, x, s.idx)
    requires s.flow.comps[x.item].counter == 0 && Holds(g, o, s, x, s.flow.comps, 0)
    requires n < |x.arr|
    ensures x.item in Rounds(g, o, s, n * x.Period() + 1).flow.comps
    ensures Published(Rounds(g, o, s, n * x.Period() + 1).flow.comps[x.item], x.arr, n)
  {
    hide Round, WellFormed, Rounds, Holds, Supplied, BodySupplied, NoErrors, RefsFit, Straight, Published;
    IterationPasses(g, o, s, x, n);
    GoRound(g, o, s, x, Rounds(g, o, s, n * x.Period()), n);
    OneMoreRound(g, o, s, n * x.Period());
  }

  /** The whole iteration: after as many passes as the list is long, the item runs once more, finds
      the list exhausted, and hands over to the successors of the container. By then the path has
      grown by exactly the passes and one item, and each collected output holds one value per pass,
      in order. */
  lemma IterationUnrolls(g: Graph, o: Oracle, s: RunState, x: Site)
    requires s.status.Running? && Ready(g, s) && Fits(g, x) && Entering(g, s, x) && Undisturbed(o, x, s.idx)
    requires s.flow.comps[x.item].counter == 0 && Holds(g, o, s, x, s.flow.comps, 0)
    ensures var r := Rounds(g, o, s, |x.arr| * x.Period());
      && r.status.Running? && Ready(g, r)
      && r.flow.path == s.flow.path[..s.idx] + Unroll(x.item, x.body, |x.arr|) + [x.item]
      && Exhausted(g, o, s, x, r, Processed(g, o, r), |x.arr|)
  {
    hide Round, WellFormed, Rounds, Holds, Kept, Processed, Invoked, RefsFit, Supplied, BodySupplied, Calm, NoErrors,
      Straight;
    IterationPasses(g, o, s, x, |x.arr|);
    var r := Rounds(g, o, s, |x.arr| * x.Period());
    ItemProcessed(g, o, s, x, r, |x.arr|);
    SiteDistinct(g, x);
    AlikeElsewhere(Invoked(g, o, r).comps, Processed(g, o, r).comps, x.item, x.p);
    HoldsElsewhere(g, o, s, x, Invoked(g, o, r).comps, Processed(g, o, r).comps, |x.arr|);
  }

  lemma SiteDistinct(g: Graph, x: Site)
    requires Straight(g, x.p, x.item, x.body)
    ensures x.item != x.p && x.body != [] && x.p in g.specs && x.item in g.specs
  {
    hide WellFormed;
  }

  /** A run starts with nothing collected: the reset at its start blanks every output. */
  lemma RunsStartBlank(g: Graph, o: Oracle, s: RunState, x: Site, comps: Comps)
    requires s.status.Running? ==> Ready(g, s)
    requires x.p in g.specs && x.p in comps
    ensures Holds(g, o, s, x, Reset(comps), 0)
  {
    hide Round, WellFormed;
    forall k | 0 <= k < |g.specs[x.p].refs| && Serves(g, x.p, g.specs[x.p].refs[k])
      ensures HoldsRef(g, o, s, x, Reset(comps), 0, g.specs[x.p].refs[k])
    {
    }
  }

  /** An item that is entered again after it has ended does not stay ended: it publishes the last
      element of its list under index -1 and starts over from the front; with an empty list it
      raises. This is why the results above ask for a fresh counter. */
  lemma ReenteredItemStartsOver(g: Graph, comps: Comps, v: Id, vs: seq<Val>)
    requires WellFormed(g) && v in g.specs && g.specs[v].kind.IterationItem? && comps.Keys == g.specs.Keys
    requires comps[v].counter == -1
    ensures var after := InvokeIterationItem(g, comps, v, Array(vs))[v];
      if vs == [] then after == Excepted(g.specs[v], comps[v], "IndexError") && after.counter == -1
      else Out(after, "item") == vs[|vs| - 1] && Out(after, "index") == Num(-1.0) && after.counter == 0
  {
    hide WellFormed;
  }
}
