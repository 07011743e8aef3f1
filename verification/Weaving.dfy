/** A container amid others. Whatever else the run executes at the same time, the components of a
    straight-line container follow each other in order, and the item decides on each of its visits
    whether the body is executed once more. */
module Weaving {
  import opened Wrappers
  import opened Values
  import opened LoopConditions
  import opened Components
  import opened Scheduler
  import opened SchedulerLemmas
  import opened Runs
  import opened Termination
  import opened Unrolling
  import opened Threads
  import opened Entries
  import opened Loops

  // ----- the strand of a container in a path -----

  /** What a list of components holds of a container, in order. */
  function Strand(ids: seq<Id>, among: set<Id>): (r: seq<Id>)
    ensures |r| == CountIn(ids, among)
  {
    if ids == [] then []
    else
      var v := ids[|ids| - 1];
      Strand(ids[..|ids| - 1], among) + (if v in among then [v] else [])
  }

  lemma {:induction false} StrandConcat(a: seq<Id>, b: seq<Id>, among: set<Id>)
    ensures Strand(a + b, among) == Strand(a, among) + Strand(b, among)
    decreases |b|
  {
    if b == [] {
      assert a + b == a;
    } else {
      assert (a + b)[..|a + b| - 1] == a + b[..|b| - 1];
      StrandConcat(a, b[..|b| - 1], among);
    }
  }

  lemma {:induction false} StrandHas(ids: seq<Id>, among: set<Id>, v: Id)
    ensures v in Strand(ids, among) <==> v in ids && v in among
    decreases |ids|
  {
    if ids != [] {
      StrandHas(ids[..|ids| - 1], among, v);
      assert ids == ids[..|ids| - 1] + [ids[|ids| - 1]];
    }
  }

  lemma {:induction false} StrandKeeps(ids: seq<Id>, among: set<Id>, v: Id)
    requires v in among
    ensures multiset(Strand(ids, among))[v] == multiset(ids)[v]
    decreases |ids|
  {
    if ids != [] {
      StrandKeeps(ids[..|ids| - 1], among, v);
      assert ids == ids[..|ids| - 1] + [ids[|ids| - 1]];
    }
  }

  /** With at most one member pending, the survivors have it or none. */
  lemma StrandSurvives(batch: seq<Id>, pending: seq<Id>, among: set<Id>)
    requires multiset(batch) <= multiset(pending) && CountIn(pending, among) <= 1
    ensures Strand(batch, among) == [] || Strand(batch, among) == Strand(pending, among)
  {
    hide Strand, CountIn;
    CountInFewer(batch, pending, among);
    var b := Strand(batch, among);
    if b != [] {
      assert b[0] in b;
      StrandHas(batch, among, b[0]);
      assert b[0] in multiset(pending);
      StrandHas(pending, among, b[0]);
    }
  }

  // ----- walks around a container -----

  /** A container with a straight-line body that control enters only through the container itself,
      and from which no handler jumps back into it. */
  ghost predicate Isolated(g: Graph, x: LoopSite) {
    && Straight(g, x.p, x.item, x.body)
    && Members(g, x.p) == {x.item} + (set v | v in x.body)
    && (forall v | v in g.specs[x.p].downstream :: v !in Members(g, x.p))
    && (forall u, v | u in Home(g, x.p) && u in g.specs && v in g.specs[u].excGoto :: v !in Members(g, x.p))
    && (forall u, v | Edge(g, u, v) && v in Members(g, x.p) :: u in Home(g, x.p))
    && !HidesFailure(g.specs[x.item])
  }

  /** From the item on, each component is the one successor of the one before it. */
  ghost predicate Walk(g: Graph, item: Id, w: seq<Id>)
    requires WellFormed(g)
  {
    && (w != [] ==> w[0] == item)
    && forall k | 0 < k < |w| :: StepAt(g, w, k)
  }

  ghost predicate StepAt(g: Graph, w: seq<Id>, k: nat)
    requires WellFormed(g) && 0 < k < |w|
  {
    w[k - 1] in g.specs && Successors(g, w[k - 1], false, []) == [w[k]]
  }

  lemma WalkMore(g: Graph, item: Id, w: seq<Id>, v: Id)
    requires WellFormed(g) && Walk(g, item, w) && w != []
    requires w[|w| - 1] in g.specs && Successors(g, w[|w| - 1], false, []) == [v]
    ensures Walk(g, item, w + [v])
  {
    hide WellFormed, Successors;
    var more := w + [v];
    forall k | 0 < k < |more| ensures StepAt(g, more, k) {
      if k < |w| {
        assert StepAt(g, w, k);
      }
    }
  }

  /** Of two walks the shorter one is a prefix of the longer one. */
  lemma {:induction false} WalkIsDetermined(g: Graph, item: Id, a: seq<Id>, b: seq<Id>)
    requires WellFormed(g) && Walk(g, item, a) && Walk(g, item, b) && |a| <= |b|
    ensures a <= b
    decreases |a|
  {
    hide WellFormed, Successors;
    if |a| > 0 {
      var init := a[..|a| - 1];
      assert forall k | 0 < k < |init| :: StepAt(g, a, k) ==> StepAt(g, init, k);
      WalkIsDetermined(g, item, init, b);
      if |a| > 1 {
        assert StepAt(g, a, |a| - 1) && StepAt(g, b, |a| - 1);
        assert a[|a| - 2] == init[|a| - 2] == b[|a| - 2];
      }
    }
  }

  lemma {:induction false} WalkThroughBody(g: Graph, p: Id, item: Id, body: seq<Id>, w: seq<Id>, j: nat)
    requires Straight(g, p, item, body) && j <= |body| && Walk(g, item, w) && w != [] && w[|w| - 1] == item
    ensures Walk(g, item, w + body[..j])
    decreases j
  {
    hide WellFormed, Successors, Walk;
    if j == 0 {
      assert w + body[..0] == w;
    } else {
      WalkThroughBody(g, p, item, body, w, j - 1);
      var before := w + body[..j - 1];
      if j == 1 {
        ItemOnward(g, p, item, body);
        assert before == w;
      } else {
        BodyOnward(g, p, item, body, j - 2);
      }
      WalkMore(g, item, before, body[j - 1]);
      assert w + body[..j] == before + [body[j - 1]];
    }
  }

  lemma ItemOnward(g: Graph, p: Id, item: Id, body: seq<Id>)
    requires Straight(g, p, item, body)
    ensures item in g.specs && Successors(g, item, false, []) == [body[0]]
  {
    assert BodyAt(g, p, body, 0);
    hide WellFormed;
  }

  lemma {:induction false} UnrollWalks(g: Graph, p: Id, item: Id, body: seq<Id>, n: nat)
    requires Straight(g, p, item, body)
    ensures Walk(g, item, Unroll(item, body, n) + [item])
    decreases n
  {
    hide WellFormed, Successors, Walk;
    if n == 0 {
      assert [] + [item] == [item];
      assert Walk(g, item, [item]) by { OneWalk(g, item); }
    } else {
      UnrollWalks(g, p, item, body, n - 1);
      var w := Unroll(item, body, n - 1) + [item];
      WalkThroughBody(g, p, item, body, w, |body|);
      assert body[..|body|] == body;
      BodyOnward(g, p, item, body, |body| - 1);
      WalkMore(g, item, w + body, item);
    }
  }

  lemma OneWalk(g: Graph, item: Id)
    requires WellFormed(g)
    ensures Walk(g, item, [item])
  {
  }

  /** A walk that is back at the item is a number of full rounds. */
  lemma {:induction false} WalkUnrolls(g: Graph, p: Id, item: Id, body: seq<Id>, w: seq<Id>, most: nat) returns (n: nat)
    requires Straight(g, p, item, body) && Walk(g, item, w) && w != [] && w[|w| - 1] == item
    requires |w| <= |Unroll(item, body, most)| + 1
    ensures w == Unroll(item, body, n) + [item]
    decreases most
  {
    hide WellFormed, Successors, Walk;
    UnrollWalks(g, p, item, body, most);
    WalkIsDetermined(g, item, w, Unroll(item, body, most) + [item]);
    n := most;
    if |w| < |Unroll(item, body, most)| + 1 {
      var shorter := Unroll(item, body, most - 1);
      if |w| > |shorter| + 1 {
        var j := |w| - |shorter| - 2;
        assert Unroll(item, body, most) == shorter + [item] + body;
        assert w[|w| - 1] == (shorter + [item] + body)[|w| - 1] == body[j];
        ItemsAreNotBody(g, p, item, body);
      } else {
        n := WalkUnrolls(g, p, item, body, w, most - 1);
      }
    }
  }

  lemma ItemsAreNotBody(g: Graph, p: Id, item: Id, body: seq<Id>)
    requires Straight(g, p, item, body)
    ensures item !in body
  {
    hide WellFormed;
    forall j | 0 <= j < |body| ensures body[j] != item {
      assert BodyAt(g, p, body, j);
    }
  }

  lemma {:induction false} UnrollVisits(item: Id, body: seq<Id>, n: nat)
    requires item !in body
    ensures multiset(Unroll(item, body, n))[item] == n
  {
    if n > 0 {
      UnrollVisits(item, body, n - 1);
    }
  }

  // ----- the item's visits -----

  /** The positions from `lo` up to but not including `hi` at which the item is on the path. */
  function Visits(path: seq<Id>, lo: nat, hi: nat, item: Id): (r: seq<nat>)
    requires lo <= hi <= |path|
    ensures |r| == multiset(path[lo..hi])[item]
    ensures forall k | 0 <= k < |r| :: lo <= r[k] < hi && path[r[k]] == item
    decreases hi
  {
    if lo == hi then
      assert path[lo..hi] == [];
      []
    else
      assert path[lo..hi] == path[lo..hi - 1] + [path[hi - 1]];
      Visits(path, lo, hi - 1, item) + (if path[hi - 1] == item then [hi - 1] else [])
  }

  lemma {:induction false} VisitsConcat(path: seq<Id>, lo: nat, mid: nat, hi: nat, item: Id)
    requires lo <= mid <= hi <= |path|
    ensures Visits(path, lo, hi, item) == Visits(path, lo, mid, item) + Visits(path, mid, hi, item)
    decreases hi
  {
    hide Visits;
    VisitsEnd(path, lo, hi, item);
    VisitsEnd(path, mid, hi, item);
    if mid < hi {
      VisitsConcat(path, lo, mid, hi - 1, item);
    }
  }

  lemma VisitsEnd(path: seq<Id>, lo: nat, hi: nat, item: Id)
    requires lo <= hi <= |path|
    ensures lo == hi ==> Visits(path, lo, hi, item) == []
    ensures lo < hi ==>
      Visits(path, lo, hi, item) == Visits(path, lo, hi - 1, item) + if path[hi - 1] == item then [hi - 1] else []
  {
  }

  lemma {:induction false} VisitsPrefix(a: seq<Id>, b: seq<Id>, lo: nat, hi: nat, item: Id)
    requires lo <= hi <= |a| && hi <= |b| && a[..hi] == b[..hi]
    ensures Visits(a, lo, hi, item) == Visits(b, lo, hi, item)
    decreases hi
  {
    if lo < hi {
      assert a[..hi][..hi - 1] == b[..hi][..hi - 1];
      assert a[..hi][hi - 1] == b[..hi][hi - 1];
      VisitsPrefix(a, b, lo, hi - 1, item);
    }
  }

  /** What the item decides when it is invoked at counter `c`: to run the body, to end, or to raise.
      An iteration looks at its list, a loop at its maximum and its test. At counter -1, left over
      from an earlier end, an iteration goes on if there is any element. */
  function Decision(g: Graph, x: LoopSite, c: int, r: Reply): Verdict
    requires x.p in g.specs
  {
    if g.specs[x.p].kind.Iteration? then
      match r.read
      case Missing(_) => if c == -1 then Stop else Abort
      case NotAnArray(_) => Stop
      case Array(vs) => if c < |vs| && vs != [] then Go else Stop
    else if c >= g.specs[x.p].maxLoops then Stop
    else VerdictOf(g.specs[x.p].conditions, g.specs[x.p].logic, r.readings)
  }

  /** The counter after an invocation of the item at counter `c`. */
  ghost predicate Invokes(g: Graph, x: LoopSite, c: int, r: Reply, after: int)
    requires x.p in g.specs
  {
    if g.specs[x.p].kind.Iteration? then
      match r.read
      case Missing(_) => after == c
      case NotAnArray(_) => after == -1
      case Array(vs) => (after == if c < |vs| && vs != [] then c + 1 else -1) || (c > 0 && after == c)
    else after == if c >= g.specs[x.p].maxLoops then -1 else c + 1
  }

  lemma ItemFits(g: Graph, x: LoopSite)
    requires Isolated(g, x)
    ensures WellFormed(g) && x.p in g.specs && x.item in g.specs && Known(g, g.order)
    ensures g.specs[x.item].parent == Some(x.p)
    ensures g.specs[x.item].kind == if g.specs[x.p].kind.Iteration? then IterationItem else LoopItem
  {
    hide Edge;
  }

  lemma InvokeVisit(g: Graph, x: LoopSite, comps: Comps, r: Reply)
    requires Isolated(g, x) && comps.Keys == g.specs.Keys && x.item in comps && comps[x.item].counter >= -1
    ensures x.p in g.specs && Invokes(g, x, comps[x.item].counter, r, Invoke(g, comps, x.item, r)[x.item].counter)
  {
    hide WellFormed, Collate, Advance, Isolated, Excepted, InvokeForeign;
    ItemFits(g, x);
    ExceptedCounter(g.specs[x.item]);
    CollateCounters(g, comps, x.p, g.order, x.item);
    if r.read.Array? {
      AdvanceVisit(g.specs[x.item], comps, x.item, r.read.vs);
      AdvanceVisit(g.specs[x.item], Collate(g, comps, x.p, g.order).comps, x.item, r.read.vs);
    }
  }

  lemma AdvanceVisit(c: Spec, comps: Comps, v: Id, vs: seq<Val>)
    requires v in comps && comps[v].counter >= -1
    ensures var before, after := comps[v].counter, Advance(c, comps, v, vs)[v].counter;
      after == if before < |vs| && vs != [] then before + 1 else -1
  {
    hide Excepted;
    ExceptedCounter(c);
  }

  /** The batch in which the item occurs once, at position `i`. */
  lemma {:induction false} BatchVisit(g: Graph, o: Oracle, x: LoopSite, comps: Comps, path: seq<Id>, from: nat, hi: nat,
                                      i: nat)
    requires Isolated(g, x) && Known(g, path) && comps.Keys == g.specs.Keys && from <= i < hi <= |path|
    requires x.item in comps && comps[x.item].counter >= -1
    requires path[i] == x.item && multiset(path[from..hi])[x.item] == 1
    ensures Invokes(g, x, comps[x.item].counter, o(i),
                    InvokeUpTo(g, o, comps, path, from, hi)[x.item].counter)
    decreases hi
  {
    hide Invoke, InvokeUpTo, WellFormed, Within, Enough, Isolated, Invokes, Straight, SingleThread, Members;
    IsolatedFits(g, x);
    InvokeUpToLast(g, o, comps, path, from, hi);
    var before, v := InvokeUpTo(g, o, comps, path, from, hi - 1), path[hi - 1];
    if i == hi - 1 {
      InvokeElsewhere(g, o, comps, path, from, hi - 1, x.item);
      InvokeVisit(g, x, before, o(i));
    } else {
      assert path[from..hi - 1][i - from] == x.item;
      BatchVisit(g, o, x, comps, path, from, hi - 1, i);
      InvokeCounters(g, before, v, o(hi - 1), x.item, Enough(g, v, o(hi - 1)));
    }
  }

  lemma IsolatedFits(g: Graph, x: LoopSite)
    requires Isolated(g, x)
    ensures WellFormed(g) && x.p in g.specs && x.item in g.specs && IsContainer(g.specs[x.p].kind)
    ensures ItemOf(g, x.p, x.item) && x.item in Members(g, x.p) && !HidesFailure(g.specs[x.item])
    ensures Straight(g, x.p, x.item, x.body) && SingleThread(g, x.p)
    ensures x.p !in Members(g, x.p) && Successors(g, x.p, false, []) == [x.item]
  {
    StraightIsSingleThread(g, x.p, x.item, x.body);
    StraightOutside(g, x.p, x.item, x.body);
    hide WellFormed, Edge, Members;
  }

  /** The item's counter once it was post-processed. */
  ghost predicate Concludes(g: Graph, x: LoopSite, r: Reply, before: int, after: int)
    requires x.p in g.specs
  {
    if before == -1 then after == -1
    else if g.specs[x.p].kind.Iteration? then after == before
    else
      var verdict := VerdictOf(g.specs[x.p].conditions, g.specs[x.p].logic, r.readings);
      !verdict.Abort? && after == if verdict.Stop? then -1 else before
  }

  lemma PostVisit(g: Graph, x: LoopSite, f: Flow, r: Reply)
    requires Sound(g, f) && Isolated(g, x) && x.item in g.specs && !Post(g, f, x.item, r).crashed
    ensures Concludes(g, x, r, f.comps[x.item].counter, Post(g, f, x.item, r).comps[x.item].counter)
  {
    hide WellFormed, MessageStep, FinishStep, EndStep, Extend, Successors, Isolated, VerdictOf, Concludes, Edge;
    MessageCounter(g, f, x.item, r, x.item);
    var h := ErrorStep(g, MessageStep(g, f, x.item, r), x.item);
    FinishCounter(g, h, x.item, x.item);
    EndVisit(g, x, FinishStep(g, h, x.item), r);
  }

  lemma EndVisit(g: Graph, x: LoopSite, f: Flow, r: Reply)
    requires Sound(g, f) && Isolated(g, x) && x.item in g.specs && !EndStep(g, f, x.item, r).crashed
    ensures Concludes(g, x, r, f.comps[x.item].counter, EndStep(g, f, x.item, r).comps[x.item].counter)
  {
    hide VerdictOf, Edge;
    assert WellFormedSpec(g, x.item);
    hide WellFormed;
  }

  lemma {:induction false} PostUpToVisit(g: Graph, o: Oracle, x: LoopSite, f: Flow, from: nat, hi: nat, i: nat)
    requires Sound(g, f) && Isolated(g, x) && from <= i < hi <= |f.path| && x.item in g.specs
    requires f.path[i] == x.item && multiset(f.path[from..hi])[x.item] == 1
    requires !PostUpTo(g, o, f, from, hi).crashed
    ensures Concludes(g, x, o(i), f.comps[x.item].counter, PostUpTo(g, o, f, from, hi).comps[x.item].counter)
    decreases hi
  {
    hide Post, PostUpTo, WellFormed, Isolated, Concludes;
    IsolatedFits(g, x);
    PostUpToLast(g, o, f, from, hi);
    var before, v := PostUpTo(g, o, f, from, hi - 1), f.path[hi - 1];
    if i == hi - 1 {
      PostUpToElsewhere(g, o, f, from, hi - 1, x.item);
      PostVisit(g, x, before, o(i));
    } else {
      assert f.path[from..hi - 1][i - from] == x.item;
      PostElsewhere(g, before, v, o(hi - 1), x.item);
      PostUpToVisit(g, o, x, f, from, hi - 1, i);
    }
  }

  // ----- the strand of a run -----

  /** What is known of the container at a round head: the members executed so far, those pending,
      the positions of the item's visits, how often the container was executed, and the item's
      counter, which was `base` at first.
      The members form a walk. Every visit decided to go on, but for the last one if control is
      not in the container any more; and a counter of -1 after a visit means that the last one
      decided to end. */
  ghost predicate Woven(g: Graph, o: Oracle, x: LoopSite, base: int, ran: seq<Id>, left: seq<Id>, visits: seq<nat>,
                        entered: nat, counter: int)
    requires WellFormed(g) && x.p in g.specs
  {
    && Walk(g, x.item, ran + left) && |left| <= entered <= 1 && (entered == 0 ==> ran == [])
    && |visits| == multiset(ran)[x.item]
    && base >= -1 && counter >= -1 && (left != [] || ran == [] ==> counter == base + |visits|)
    && (forall k | 0 <= k < |visits| :: DecidedAt(g, o, x, base, ran, left, visits, k))
    && (counter == -1 && visits != [] ==> JustLeft(x, ran, left) && EndedAt(g, o, x, base, visits, |visits| - 1))
  }

  /** Control was last at the item and is not in the container any more. */
  ghost predicate JustLeft(x: LoopSite, ran: seq<Id>, left: seq<Id>) {
    left == [] && ran != [] && ran[|ran| - 1] == x.item
  }

  ghost predicate WentOnAt(g: Graph, o: Oracle, x: LoopSite, base: int, visits: seq<nat>, k: nat)
    requires x.p in g.specs && k < |visits|
  {
    Decision(g, x, base + k, o(visits[k])).Go?
  }

  ghost predicate EndedAt(g: Graph, o: Oracle, x: LoopSite, base: int, visits: seq<nat>, k: nat)
    requires x.p in g.specs && k < |visits|
  {
    Decision(g, x, base + k, o(visits[k])).Stop?
  }

  ghost predicate DecidedAt(g: Graph, o: Oracle, x: LoopSite, base: int, ran: seq<Id>, left: seq<Id>,
                            visits: seq<nat>, k: nat)
    requires x.p in g.specs && k < |visits|
  {
    WentOnAt(g, o, x, base, visits, k) || (k == |visits| - 1 && JustLeft(x, ran, left))
  }

  /** A round, on the strand: `now` are the members executed in it (at most one), `added` those
      pending after it, `at` is the position of the item if it was executed. */
  ghost predicate Weaves(g: Graph, o: Oracle, x: LoopSite, left: seq<Id>, counter: int, now: seq<Id>, at: seq<nat>,
                         entering: nat, added: seq<Id>, after: int)
    requires WellFormed(g) && x.p in g.specs
  {
    && (now == [] || now == left) && |added| <= |now| + entering
    && (added != [] ==> entering == 1 || (now != [] && now[0] in g.specs && Successors(g, now[0], false, []) == added))
    && (added != [] && entering == 1 ==> added == [x.item])
    && |at| == multiset(now)[x.item]
    && (x.item !in now ==> after == counter)
    && (x.item in now && counter >= -1 ==>
          && after >= -1
          && (added != [] ==> after == counter + 1 && Decision(g, x, counter, o(at[0])).Go?)
          && (after == -1 ==> added == [] && Decision(g, x, counter, o(at[0])).Stop?))
  }

  lemma WovenStep(g: Graph, o: Oracle, x: LoopSite, base: int, ran: seq<Id>, left: seq<Id>, visits: seq<nat>,
                  entered: nat, counter: int, now: seq<Id>, at: seq<nat>, entering: nat, added: seq<Id>, after: int)
    requires WellFormed(g) && x.p in g.specs && Woven(g, o, x, base, ran, left, visits, entered, counter)
    requires Weaves(g, o, x, left, counter, now, at, entering, added, after) && entered + entering <= 1
    ensures Woven(g, o, x, base, ran + now, added, visits + at, entered + entering, after)
  {
    hide WellFormed, Successors, Decision, Walk;
    WovenWalk(g, x, ran, left, now, entering, added);
    forall k | 0 <= k < |visits + at| ensures DecidedAt(g, o, x, base, ran + now, added, visits + at, k) {
      if k < |visits| {
        assert DecidedAt(g, o, x, base, ran, left, visits, k);
      }
    }
  }

  lemma WovenWalk(g: Graph, x: LoopSite, ran: seq<Id>, left: seq<Id>, now: seq<Id>, entering: nat, added: seq<Id>)
    requires WellFormed(g) && Walk(g, x.item, ran + left) && |left| <= 1
    requires (now == [] || now == left) && |added| <= |now| + entering && entering <= 1
    requires entering == 1 ==> ran == [] && left == []
    requires added != [] ==>
               entering == 1 || (now != [] && now[0] in g.specs && Successors(g, now[0], false, []) == added)
    requires added != [] && entering == 1 ==> added == [x.item]
    ensures Walk(g, x.item, ran + now + added)
  {
    hide WellFormed, Successors, Walk;
    WalkPrefix(g, x.item, ran + left, |ran|);
    assert (ran + left)[..|ran|] == ran;
    if added == [] {
      assert ran + now + added == if now == [] then ran else ran + left;
    } else if entering == 1 {
      OneWalk(g, x.item);
      assert ran + now + added == [x.item];
    } else {
      assert |added| == 1 && added == [added[0]];
      WalkMore(g, x.item, ran + now, added[0]);
    }
  }

  lemma WalkPrefix(g: Graph, item: Id, w: seq<Id>, n: nat)
    requires WellFormed(g) && Walk(g, item, w) && n <= |w|
    ensures Walk(g, item, w[..n])
  {
    hide WellFormed, Successors;
    forall k | 0 < k < n ensures StepAt(g, w[..n], k) {
      assert StepAt(g, w, k);
    }
  }

  /** What invocation and post-processing say together about a visit at counter `c`. */
  lemma VisitOutcome(g: Graph, x: LoopSite, c: int, r: Reply, spec: Spec, invoked: Comp, after: int, limit: nat,
                     stays: bool)
    requires x.p in g.specs && c >= -1
    requires Invokes(g, x, c, r, invoked.counter) && Concludes(g, x, r, invoked.counter, after)
    requires Turn(spec, c, invoked, limit) && (DoneWith(spec, invoked) || after == -1 ==> !stays)
    ensures after >= -1
    ensures stays ==> after == c + 1 && Decision(g, x, c, r).Go?
    ensures after == -1 ==> !stays && Decision(g, x, c, r).Stop?
  {
    hide VerdictOf, Forgiving;
  }

  /** The one control edge inside the container out of each of its components. */
  lemma EdgeInside(g: Graph, x: LoopSite, u: Id, z: Id)
    requires Isolated(g, x) && u in Home(g, x.p) && z in Members(g, x.p) && Edge(g, u, z)
    ensures u in g.specs && Successors(g, u, false, []) == [z]
  {
    IsolatedFits(g, x);
    ItemFits(g, x);
    hide WellFormed;
    if u == x.item {
      ItemOnward(g, x.p, x.item, x.body);
      assert Successors(g, u, true, []) == g.specs[x.p].downstream;
    } else if u != x.p {
      var j :| 0 <= j < |x.body| && x.body[j] == u;
      BodyOnward(g, x.p, x.item, x.body, j);
    }
  }

  /** What a round leaves pending in the container follows from a component of the batch. */
  lemma AddedFollows(g: Graph, o: Oracle, x: LoopSite, s: RunState, z: Id) returns (u: Id)
    requires s.status.Running? && Ready(g, s) && Isolated(g, x) && z in Members(g, x.p)
    requires z in Processed(g, o, s).path[|Kept(g, s)|..]
    ensures u in Kept(g, s)[s.idx..] && u in Home(g, x.p) && u in g.specs && Successors(g, u, false, []) == [z]
  {
    hide WellFormed, Keep, InvokeUpTo, PostUpTo, Successors, Straight, Members;
    var kept, path := Kept(g, s), Processed(g, o, s).path;
    var d :| 0 <= d < |path[|kept|..]| && path[|kept|..][d] == z;
    var q := PostUpToEdges(g, o, Invoked(g, o, s), s.idx, |kept|, |kept| + d);
    u := kept[q];
    assert kept[s.idx..][q - s.idx] == u;
    assert path[|kept| + d] == z;
    EdgeInside(g, x, u, z);
  }

  ghost predicate WovenIn(g: Graph, o: Oracle, x: LoopSite, base: int, s: RunState, start: nat)
    requires WellFormed(g) && x.p in g.specs && start <= s.idx <= |s.flow.path| && x.item in s.flow.comps
  {
    Woven(g, o, x, base, Strand(Since(s, start), Members(g, x.p)), Strand(s.flow.path[s.idx..], Members(g, x.p)),
          Visits(s.flow.path, start, s.idx, x.item), multiset(Since(s, start))[x.p], s.flow.comps[x.item].counter)
  }

  /** The round from `s` to `f`, in which `kept` survived, seen on the strand of the container. */
  ghost predicate WeavesIn(g: Graph, o: Oracle, x: LoopSite, s: RunState, kept: seq<Id>, f: Flow)
    requires WellFormed(g) && x.p in g.specs && s.idx <= |s.flow.path| && x.item in s.flow.comps
  {
    && s.idx <= |kept| <= |f.path| && x.item in f.comps
    && Weaves(g, o, x, Strand(s.flow.path[s.idx..], Members(g, x.p)), s.flow.comps[x.item].counter,
              Strand(kept[s.idx..], Members(g, x.p)), Visits(kept, s.idx, |kept|, x.item),
              multiset(kept[s.idx..])[x.p], Strand(f.path[|kept|..], Members(g, x.p)), f.comps[x.item].counter)
  }

  lemma WovenBounds(g: Graph, o: Oracle, x: LoopSite, base: int, s: RunState, start: nat)
    requires WellFormed(g) && x.p in g.specs && start <= s.idx <= |s.flow.path| && x.item in s.flow.comps
    requires WovenIn(g, o, x, base, s, start)
    ensures CountIn(s.flow.path[s.idx..], Members(g, x.p)) <= multiset(Since(s, start))[x.p] <= 1
  {
    hide WellFormed, Walk, Members, DecidedAt, Decision;
  }

  ghost predicate Targets(g: Graph, x: LoopSite, batch: seq<Id>, pending: seq<Id>)
    requires WellFormed(g)
  {
    var now, added := Strand(batch, Members(g, x.p)), Strand(pending, Members(g, x.p));
    && |added| <= |now| + multiset(batch)[x.p] <= 1
    && (added != [] && multiset(batch)[x.p] == 1 ==> added == [x.item])
    && (added != [] && multiset(batch)[x.p] == 0 ==>
          now != [] && now[0] in g.specs && Successors(g, now[0], false, []) == added)
  }

  /** What a round leaves pending in the container. */
  lemma RoundTargets(g: Graph, o: Oracle, x: LoopSite, s: RunState)
    requires s.status.Running? && Ready(g, s) && Unbroken(Round(g, o, s)) && Isolated(g, x)
    requires CountIn(Kept(g, s)[s.idx..], Home(g, x.p)) <= 1 && x.p !in Members(g, x.p)
    ensures Targets(g, x, Kept(g, s)[s.idx..], Processed(g, o, s).path[|Kept(g, s)|..])
  {
    hide Round, WellFormed, Isolated, Members, Home, CountIn, Processed, Kept, Follows, Targets;
    var batch, pending := Kept(g, s)[s.idx..], Processed(g, o, s).path[|Kept(g, s)|..];
    IsolatedFits(g, x);
    ThreadOutside(g, x.p);
    RoundOutcome(g, o, s);
    RoundFeeds(g, o, s, Home(g, x.p), Members(g, x.p));
    forall z | z in pending && z in Members(g, x.p) ensures Follows(g, x, batch, z) {
      var u := AddedFollows(g, o, x, s, z);
      FollowsFrom(g, x, batch, u, z);
    }
    TargetsFollow(g, x, batch, pending);
  }

  /** Some component of the batch in or before the container hands control to `z`. */
  ghost predicate Follows(g: Graph, x: LoopSite, batch: seq<Id>, z: Id)
    requires WellFormed(g)
  {
    exists u :: u in batch && u in Home(g, x.p) && u in g.specs && Successors(g, u, false, []) == [z]
  }

  lemma FollowsFrom(g: Graph, x: LoopSite, batch: seq<Id>, u: Id, z: Id)
    requires WellFormed(g) && u in batch && u in Home(g, x.p) && u in g.specs && Successors(g, u, false, []) == [z]
    ensures Follows(g, x, batch, z)
  {
  }

  lemma TargetsFollow(g: Graph, x: LoopSite, batch: seq<Id>, pending: seq<Id>)
    requires WellFormed(g) && x.p in g.specs && x.p !in Members(g, x.p) && Successors(g, x.p, false, []) == [x.item]
    requires CountIn(pending, Members(g, x.p)) <= CountIn(batch, Home(g, x.p)) <= 1
    requires forall z | z in pending && z in Members(g, x.p) :: Follows(g, x, batch, z)
    ensures Targets(g, x, batch, pending)
  {
    hide WellFormed, Successors, CountIn, Members, Strand;
    var m := Members(g, x.p);
    CountInSplit(batch, Home(g, x.p), x.p);
    assert Home(g, x.p) - {x.p} == m;
    var added, now := Strand(pending, m), Strand(batch, m);
    if added != [] {
      var z := added[0];
      assert added == [z];
      StrandHas(pending, m, z);
      assert Follows(g, x, batch, z);
      var u :| u in batch && u in Home(g, x.p) && u in g.specs && Successors(g, u, false, []) == [z];
      if u == x.p {
        assert u in multiset(batch);
      } else {
        StrandHas(batch, m, u);
        assert now == [u];
      }
    }
  }

  /** The round in which the item is in the batch, at counter `c`. */
  ghost predicate Visited(g: Graph, o: Oracle, x: LoopSite, c: int, kept: seq<Id>, from: nat, f: Flow)
    requires from <= |kept|
  {
    var at := Visits(kept, from, |kept|, x.item);
    && |at| == 1 && x.p in g.specs && x.item in f.comps && |kept| <= |f.path| && f.comps[x.item].counter >= -1
    && (CountIn(f.path[|kept|..], Members(g, x.p)) > 0 ==>
          f.comps[x.item].counter == c + 1 && Decision(g, x, c, o(at[0])).Go?)
    && (f.comps[x.item].counter == -1 ==>
          CountIn(f.path[|kept|..], Members(g, x.p)) == 0 && Decision(g, x, c, o(at[0])).Stop?)
  }

  lemma RoundVisit(g: Graph, o: Oracle, x: LoopSite, s: RunState, limit: nat)
    requires s.status.Running? && Ready(g, s) && Unbroken(Round(g, o, s)) && Isolated(g, x)
    requires ItemWithin(g, o, x.item, s.idx, |Kept(g, s)|, limit)
    requires CountIn(Kept(g, s)[s.idx..], Home(g, x.p)) <= 1 && x.item in Kept(g, s)[s.idx..]
    requires x.item in s.flow.comps && s.flow.comps[x.item].counter >= -1
    ensures Visited(g, o, x, s.flow.comps[x.item].counter, Kept(g, s), s.idx, Round(g, o, s).flow)
  {
    hide Round, WellFormed, Keep, InvokeUpTo, PostUpTo, Isolated, Members, CountIn, Kept, Turn, DoneWith, Invokes,
      Concludes, Decision, ItemWithin, SingleThread, HidesFailure;
    IsolatedFits(g, x);
    RoundOfThread(g, o, x.p, x.item, s, limit);
    RoundOutcome(g, o, s);
    var kept := Kept(g, s);
    var batch := kept[s.idx..];
    assert kept[s.idx..|kept|] == batch;
    CountInSplit(batch, Home(g, x.p), x.item);
    var at := Visits(kept, s.idx, |kept|, x.item);
    BatchVisit(g, o, x, s.flow.comps, kept, s.idx, |kept|, at[0]);
    PostUpToVisit(g, o, x, Invoked(g, o, s), s.idx, |kept|, at[0]);
    VisitOutcome(g, x, s.flow.comps[x.item].counter, o(at[0]), g.specs[x.item], Invoked(g, o, s).comps[x.item],
                 Round(g, o, s).flow.comps[x.item].counter, limit,
                 CountIn(Round(g, o, s).flow.path[|kept|..], Members(g, x.p)) > 0);
  }

  /** A limit that is large enough for a batch. */
  ghost function Ceiling(g: Graph, o: Oracle, w: Id, lo: nat, hi: nat): (limit: nat)
    requires WellFormed(g) && lo <= hi
    ensures ItemWithin(g, o, w, lo, hi, limit)
    decreases hi
  {
    if lo == hi then 0
    else
      var before, last := Ceiling(g, o, w, lo, hi - 1), Enough(g, w, o(hi - 1));
      if before < last then last else before
  }

  lemma BatchOfOne(g: Graph, x: LoopSite, s: RunState)
    requires Ready(g, s) && x.p !in Members(g, x.p)
    requires CountIn(s.flow.path[s.idx..], Members(g, x.p)) + multiset(Kept(g, s)[s.idx..])[x.p] <= 1
    ensures var batch, m := Kept(g, s)[s.idx..], Members(g, x.p);
      && CountIn(batch, Home(g, x.p)) <= 1
      && (Strand(batch, m) == [] || Strand(batch, m) == Strand(s.flow.path[s.idx..], m))
  {
    hide WellFormed, Keep, Members, CountIn, Strand;
    KeptAreAdmitted(g, s.flow.path[..s.idx], s.flow.path[s.idx..]);
    var batch, pending, m := Kept(g, s)[s.idx..], s.flow.path[s.idx..], Members(g, x.p);
    assert batch == Keep(g, s.flow.path[..s.idx], pending);
    StrandSurvives(batch, pending, m);
    CountInFewer(batch, pending, m);
    CountInSplit(batch, Home(g, x.p), x.p);
    assert Home(g, x.p) - {x.p} == m;
  }

  lemma RoundWeaves(g: Graph, o: Oracle, x: LoopSite, s: RunState)
    requires s.status.Running? && Ready(g, s) && Unbroken(Round(g, o, s)) && Isolated(g, x)
    requires x.p in g.specs && x.item in s.flow.comps
    requires CountIn(s.flow.path[s.idx..], Members(g, x.p)) + multiset(Kept(g, s)[s.idx..])[x.p] <= 1
    ensures WeavesIn(g, o, x, s, Kept(g, s), Round(g, o, s).flow)
  {
    hide Round, WellFormed, Keep, InvokeUpTo, PostUpTo, Isolated, Members, CountIn, Turn, DoneWith, Decision,
      ItemWithin, SingleThread, HidesFailure, Processed, Invoked, Successors, Strand, Visits, Straight, Ceiling;
    IsolatedFits(g, x);
    RoundOutcome(g, o, s);
    BatchOfOne(g, x, s);
    var kept := Kept(g, s);
    assert kept[s.idx..|kept|] == kept[s.idx..];
    RoundTargets(g, o, x, s);
    StrandKeeps(kept[s.idx..], Members(g, x.p), x.item);
    StrandHas(kept[s.idx..], Members(g, x.p), x.item);
    var limit := Ceiling(g, o, x.item, s.idx, |kept|);
    RoundOfThread(g, o, x.p, x.item, s, limit);
    if x.item in kept[s.idx..] && s.flow.comps[x.item].counter >= -1 {
      RoundVisit(g, o, x, s, limit);
    }
  }

  lemma RoundWoven(g: Graph, o: Oracle, x: LoopSite, base: int, s: RunState, start: nat)
    requires s.status.Running? && Ready(g, s) && Unbroken(Round(g, o, s)) && Isolated(g, x)
    requires start <= s.idx && x.p in g.specs && x.item in s.flow.comps && WovenIn(g, o, x, base, s, start)
    ensures start <= Round(g, o, s).idx <= |Round(g, o, s).flow.path| && x.item in Round(g, o, s).flow.comps
    ensures multiset(Since(Round(g, o, s), start))[x.p] <= 1 ==> WovenIn(g, o, x, base, Round(g, o, s), start)
  {
    hide Round, WellFormed, Keep, Isolated, Members, CountIn, Decision, Woven, Weaves, Processed, Walk, Strand,
      Visits, Straight, SingleThread, HidesFailure;
    IsolatedFits(g, x);
    RoundShape(g, o, s);
    RoundOutcome(g, o, s);
    var r, kept := Round(g, o, s), Kept(g, s);
    var batch := kept[s.idx..];
    assert Since(r, start) == Since(s, start) + batch;
    if multiset(Since(r, start))[x.p] <= 1 {
      WovenBounds(g, o, x, base, s, start);
      EntersHere(g, o, x, base, s, start, batch);
      RoundWeaves(g, o, x, s);
      WovenOn(g, o, x, base, s, start, kept, r);
    }
  }

  /** While control is inside, the container itself is not executed again. */
  lemma EntersHere(g: Graph, o: Oracle, x: LoopSite, base: int, s: RunState, start: nat, batch: seq<Id>)
    requires WellFormed(g) && x.p in g.specs && start <= s.idx <= |s.flow.path| && x.item in s.flow.comps
    requires CountIn(s.flow.path[s.idx..], Members(g, x.p)) <= multiset(Since(s, start))[x.p]
    requires multiset(Since(s, start) + batch)[x.p] <= 1
    ensures CountIn(s.flow.path[s.idx..], Members(g, x.p)) + multiset(batch)[x.p] <= 1
  {
    hide WellFormed, Members, CountIn;
  }

  lemma WovenOn(g: Graph, o: Oracle, x: LoopSite, base: int, s: RunState, start: nat, kept: seq<Id>, r: RunState)
    requires WellFormed(g) && x.p in g.specs && start <= s.idx <= |s.flow.path| && x.item in s.flow.comps
    requires WovenIn(g, o, x, base, s, start) && WeavesIn(g, o, x, s, kept, r.flow)
    requires s.flow.path[..s.idx] <= kept <= r.flow.path && r.idx == |kept|
    requires multiset(Since(s, start) + kept[s.idx..])[x.p] <= 1
    ensures WovenIn(g, o, x, base, r, start)
  {
    hide WellFormed, Members, CountIn, Decision, Woven, Weaves, Walk, Strand, Visits;
    var batch, m := kept[s.idx..], Members(g, x.p);
    assert Since(r, start) == Since(s, start) + batch;
    StrandConcat(Since(s, start), batch, m);
    VisitsPrefix(s.flow.path, r.flow.path, start, s.idx, x.item);
    VisitsPrefix(kept, r.flow.path, s.idx, |kept|, x.item);
    VisitsConcat(r.flow.path, start, s.idx, |kept|, x.item);
    WovenStep(g, o, x, base, Strand(Since(s, start), m), Strand(s.flow.path[s.idx..], m),
              Visits(s.flow.path, start, s.idx, x.item), multiset(Since(s, start))[x.p], s.flow.comps[x.item].counter,
              Strand(batch, m), Visits(kept, s.idx, |kept|, x.item), multiset(batch)[x.p],
              Strand(r.flow.path[|kept|..], m), r.flow.comps[x.item].counter);
  }

  // ----- whole runs -----

  /** Control is not in the container. Its item may have been used before. */
  ghost predicate NotEntered(g: Graph, x: LoopSite, s: RunState)
    requires Ready(g, s)
  {
    CountIn(s.flow.path[s.idx..], Members(g, x.p)) == 0 && x.item in s.flow.comps && s.flow.comps[x.item].counter >= -1
  }

  lemma WovenAtStart(g: Graph, o: Oracle, x: LoopSite, s: RunState)
    requires Ready(g, s) && x.p in g.specs && NotEntered(g, x, s)
    ensures WovenIn(g, o, x, s.flow.comps[x.item].counter, s, s.idx)
  {
    hide WellFormed, Members, StepAt, Decision;
    assert Since(s, s.idx) == [];
    var left := Strand(s.flow.path[s.idx..], Members(g, x.p));
    assert [] + left == [];
  }

  /** At every round head of a run that has entered the container at most once since `s`, and when it
      has finished, its members were executed in the order of the configuration, whatever else was
      executed in between. */
  lemma {:induction false} WovenThroughout(g: Graph, o: Oracle, x: LoopSite, s: RunState, n: nat)
    requires s.status.Running? && Ready(g, s) && Unbroken(Rounds(g, o, s, n))
    requires Isolated(g, x) && x.p in g.specs && NotEntered(g, x, s)
    ensures s.idx <= Rounds(g, o, s, n).idx <= |Rounds(g, o, s, n).flow.path|
    ensures x.item in Rounds(g, o, s, n).flow.comps
    ensures multiset(Since(Rounds(g, o, s, n), s.idx))[x.p] <= 1 ==>
            WovenIn(g, o, x, s.flow.comps[x.item].counter, Rounds(g, o, s, n), s.idx)
    decreases n
  {
    hide Round, WellFormed, Isolated, WovenIn, NotEntered;
    IsolatedFits(g, x);
    if n == 0 {
      WovenAtStart(g, o, x, s);
    } else {
      var t := Rounds(g, o, s, n - 1);
      if t.status.Running? {
        WovenThroughout(g, o, x, s, n - 1);
        WovenNext(g, o, x, s.flow.comps[x.item].counter, t, s.idx);
      } else {
        RoundOver(g, o, t);
        WovenThroughout(g, o, x, s, n - 1);
      }
    }
  }

  lemma WovenNext(g: Graph, o: Oracle, x: LoopSite, base: int, t: RunState, start: nat)
    requires t.status.Running? && Ready(g, t) && Unbroken(Round(g, o, t)) && Isolated(g, x)
    requires start <= t.idx && x.p in g.specs && x.item in t.flow.comps
    requires multiset(Since(t, start))[x.p] <= 1 ==> WovenIn(g, o, x, base, t, start)
    ensures start <= Round(g, o, t).idx <= |Round(g, o, t).flow.path| && x.item in Round(g, o, t).flow.comps
    ensures multiset(Since(Round(g, o, t), start))[x.p] <= 1 ==> WovenIn(g, o, x, base, Round(g, o, t), start)
  {
    hide Round, WellFormed, Isolated, WovenIn, Processed, Kept;
    var r := Round(g, o, t);
    IsolatedFits(g, x);
    RoundKeepsPrefix(g, o, t);
    RoundOutcome(g, o, t);
    assert Since(t, start) == Since(r, start)[..t.idx - start];
    FewerInPrefix(Since(t, start), Since(r, start), x.p);
    if multiset(Since(t, start))[x.p] <= 1 {
      RoundWoven(g, o, x, base, t, start);
    }
  }

  lemma FewerInPrefix(a: seq<Id>, b: seq<Id>, v: Id)
    requires a <= b
    ensures multiset(a)[v] <= multiset(b)[v]
  {
    assert b == a + b[|a|..];
  }

  /** The container has run `n` passes of its body and then once more its item, which decided to go
      on at each visit but the last, and then to end. At the first visit its counter was `base`. */
  ghost predicate RanPasses(g: Graph, o: Oracle, x: LoopSite, base: int, s: RunState, start: nat, n: nat)
    requires x.p in g.specs && start <= s.idx <= |s.flow.path|
  {
    && Strand(Since(s, start), Members(g, x.p)) == Unroll(x.item, x.body, n) + [x.item]
    && Strand(s.flow.path[s.idx..], Members(g, x.p)) == []
    && PassedAt(g, o, x, base, Visits(s.flow.path, start, s.idx, x.item), n)
  }

  ghost predicate PassedAt(g: Graph, o: Oracle, x: LoopSite, base: int, visits: seq<nat>, n: nat)
    requires x.p in g.specs
  {
    && |visits| == n + 1
    && (forall k | 0 <= k < n :: WentOnAt(g, o, x, base, visits, k))
    && EndedAt(g, o, x, base, visits, n)
  }

  /** The container was entered at most once since `start`, and its item has run and has ended. */
  ghost predicate EndedOnce(x: LoopSite, r: RunState, start: nat) {
    && start <= r.idx <= |r.flow.path| && multiset(Since(r, start))[x.p] <= 1
    && x.item in Since(r, start) && x.item in r.flow.comps && r.flow.comps[x.item].counter == -1
  }

  /** Exactness amid others: when the item has ended, the members executed since `s` are a number of
      full passes and the item once more, and its decisions say how many. */
  lemma EndedAmidOthers(g: Graph, o: Oracle, x: LoopSite, s: RunState, m: nat) returns (n: nat)
    requires s.status.Running? && Ready(g, s) && Unbroken(Rounds(g, o, s, m))
    requires Isolated(g, x) && x.p in g.specs && NotEntered(g, x, s) && EndedOnce(x, Rounds(g, o, s, m), s.idx)
    ensures s.idx <= Rounds(g, o, s, m).idx <= |Rounds(g, o, s, m).flow.path|
    ensures RanPasses(g, o, x, s.flow.comps[x.item].counter, Rounds(g, o, s, m), s.idx, n)
  {
    hide Round, Rounds, WellFormed, Isolated, NotEntered, Visits, Strand, Members, Decision, Walk, PassedAt, Woven;
    IsolatedFits(g, x);
    WovenThroughout(g, o, x, s, m);
    var r := Rounds(g, o, s, m);
    var m' := Members(g, x.p);
    StrandHas(Since(r, s.idx), m', x.item);
    n := UnrolledWhenLeft(g, o, x, s.flow.comps[x.item].counter, Strand(Since(r, s.idx), m'),
                          Strand(r.flow.path[r.idx..], m'), Visits(r.flow.path, s.idx, r.idx, x.item),
                          multiset(Since(r, s.idx))[x.p]);
  }

  lemma UnrolledWhenLeft(g: Graph, o: Oracle, x: LoopSite, base: int, ran: seq<Id>, left: seq<Id>, visits: seq<nat>,
                         entered: nat) returns (n: nat)
    requires Straight(g, x.p, x.item, x.body) && Woven(g, o, x, base, ran, left, visits, entered, -1)
    requires x.item in ran
    ensures x.p in g.specs && ran == Unroll(x.item, x.body, n) + [x.item] && left == []
    ensures PassedAt(g, o, x, base, visits, n)
  {
    assert x.p in g.specs;
    hide WellFormed, Decision, Walk, Straight, Unroll, DecidedAt, WentOnAt, EndedAt;
    assert x.item in multiset(ran);
    assert ran + left == ran;
    AtLeast(|ran|, |x.body| + 1);
    n := WalkUnrolls(g, x.p, x.item, x.body, ran, |ran|);
    ItemsAreNotBody(g, x.p, x.item, x.body);
    UnrollVisits(x.item, x.body, n);
    assert multiset(ran)[x.item] == n + 1;
    forall k | 0 <= k < n ensures WentOnAt(g, o, x, base, visits, k) {
      DecidedBefore(g, o, x, base, ran, left, visits, k);
    }
  }

  lemma DecidedBefore(g: Graph, o: Oracle, x: LoopSite, base: int, ran: seq<Id>, left: seq<Id>, visits: seq<nat>,
                      k: nat)
    requires x.p in g.specs && k < |visits| - 1 && DecidedAt(g, o, x, base, ran, left, visits, k)
    ensures WentOnAt(g, o, x, base, visits, k)
  {
  }

  lemma AtLeast(a: nat, b: nat)
    requires b >= 1
    ensures a * b >= a
  {
  }

  // ----- how many passes -----

  /** The item reads the list `arr` whenever it is executed between two positions. */
  ghost predicate ReadsList(o: Oracle, x: LoopSite, path: seq<Id>, lo: nat, hi: nat, arr: seq<Val>)
    requires hi <= |path|
  {
    forall i: nat | lo <= i < hi && path[i] == x.item :: o(i).read == Array(arr)
  }

  /** The passes of an iteration over `arr` that starts at counter `base`: one for each element from
      there on, and one more, with the last element first, when it starts at -1. */
  function ListPasses(arr: seq<Val>, base: int): nat {
    if arr == [] || |arr| <= base then 0 else |arr| - base
  }

  /** An iteration that always reads the same list runs that many passes. */
  lemma IterationAmidOthers(g: Graph, o: Oracle, x: LoopSite, s: RunState, m: nat, arr: seq<Val>)
    requires s.status.Running? && Ready(g, s) && Unbroken(Rounds(g, o, s, m))
    requires Isolated(g, x) && x.p in g.specs && NotEntered(g, x, s) && EndedOnce(x, Rounds(g, o, s, m), s.idx)
    requires g.specs[x.p].kind.Iteration?
    requires ReadsList(o, x, Rounds(g, o, s, m).flow.path, s.idx, Rounds(g, o, s, m).idx, arr)
    ensures s.idx <= Rounds(g, o, s, m).idx <= |Rounds(g, o, s, m).flow.path|
    ensures var base := s.flow.comps[x.item].counter;
      RanPasses(g, o, x, base, Rounds(g, o, s, m), s.idx, ListPasses(arr, base))
  {
    hide Round, Rounds, WellFormed, Isolated, RanPasses, EndedOnce, ReadsList;
    var n := EndedAmidOthers(g, o, x, s, m);
    PassesOfList(g, o, x, s.flow.comps[x.item].counter, Rounds(g, o, s, m), s.idx, n, arr);
  }

  lemma PassesOfList(g: Graph, o: Oracle, x: LoopSite, base: int, r: RunState, start: nat, n: nat, arr: seq<Val>)
    requires x.p in g.specs && start <= r.idx <= |r.flow.path| && RanPasses(g, o, x, base, r, start, n)
    requires g.specs[x.p].kind.Iteration? && base >= -1 && ReadsList(o, x, r.flow.path, start, r.idx, arr)
    ensures n == ListPasses(arr, base)
  {
    hide Strand, Visits, Members;
    var visits, passes := Visits(r.flow.path, start, r.idx, x.item), ListPasses(arr, base);
    assert o(visits[n]).read == Array(arr);
    assert n > passes ==> o(visits[passes]).read == Array(arr) && WentOnAt(g, o, x, base, visits, passes);
    assert n > 0 ==> o(visits[n - 1]).read == Array(arr) && WentOnAt(g, o, x, base, visits, n - 1);
  }

  /** The most passes of a loop whose item starts at counter `base`. */
  function LoopCap(g: Graph, x: LoopSite, base: int): nat
    requires x.p in g.specs
  {
    if g.specs[x.p].maxLoops <= base then 0 else g.specs[x.p].maxLoops - base
  }

  /** The passes of a loop: the smaller of that and the number of passes after which its test first
      holds, as its variables read at the item's visits. */
  ghost predicate PassesOfLoop(g: Graph, o: Oracle, x: LoopSite, base: int, visits: seq<nat>, n: nat)
    requires x.p in g.specs
  {
    && |visits| == n + 1 && n <= LoopCap(g, x, base)
    && (forall k | 0 <= k < n :: TestAt(g, o, x, visits, k).Go?)
    && (n == LoopCap(g, x, base) || TestAt(g, o, x, visits, n).Stop?)
  }

  function TestAt(g: Graph, o: Oracle, x: LoopSite, visits: seq<nat>, k: nat): Verdict
    requires x.p in g.specs && k < |visits|
  {
    VerdictOf(g.specs[x.p].conditions, g.specs[x.p].logic, o(visits[k]).readings)
  }

  /** A loop runs that number of passes. */
  lemma LoopAmidOthers(g: Graph, o: Oracle, x: LoopSite, s: RunState, m: nat) returns (n: nat)
    requires s.status.Running? && Ready(g, s) && Unbroken(Rounds(g, o, s, m))
    requires Isolated(g, x) && x.p in g.specs && NotEntered(g, x, s) && EndedOnce(x, Rounds(g, o, s, m), s.idx)
    requires g.specs[x.p].kind.Loop?
    ensures s.idx <= Rounds(g, o, s, m).idx <= |Rounds(g, o, s, m).flow.path|
    ensures RanPasses(g, o, x, s.flow.comps[x.item].counter, Rounds(g, o, s, m), s.idx, n)
    ensures PassesOfLoop(g, o, x, s.flow.comps[x.item].counter,
                         Visits(Rounds(g, o, s, m).flow.path, s.idx, Rounds(g, o, s, m).idx, x.item), n)
  {
    hide Round, Rounds, WellFormed, Isolated, EndedOnce, RanPasses, PassesOfLoop, Visits;
    n := EndedAmidOthers(g, o, x, s, m);
    PassesUntil(g, o, x, s.flow.comps[x.item].counter, Rounds(g, o, s, m), s.idx, n);
  }

  lemma PassesUntil(g: Graph, o: Oracle, x: LoopSite, base: int, r: RunState, start: nat, n: nat)
    requires x.p in g.specs && start <= r.idx <= |r.flow.path| && RanPasses(g, o, x, base, r, start, n)
    requires g.specs[x.p].kind.Loop?
    ensures PassesOfLoop(g, o, x, base, Visits(r.flow.path, start, r.idx, x.item), n)
  {
    hide Strand, Visits, Members, VerdictOf;
    var visits := Visits(r.flow.path, start, r.idx, x.item);
    forall k | 0 <= k < n ensures base + k < g.specs[x.p].maxLoops && TestAt(g, o, x, visits, k).Go? {
      GoingOn(g, o, x, base, visits, k);
    }
    if n > 0 {
      GoingOn(g, o, x, base, visits, n - 1);
    }
  }

  lemma GoingOn(g: Graph, o: Oracle, x: LoopSite, base: int, visits: seq<nat>, k: nat)
    requires x.p in g.specs && g.specs[x.p].kind.Loop? && k < |visits| && WentOnAt(g, o, x, base, visits, k)
    ensures base + k < g.specs[x.p].maxLoops && TestAt(g, o, x, visits, k).Go?
  {
    hide VerdictOf;
  }
}
