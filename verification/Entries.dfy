/** How often a run can enter its containers, read off the configuration: control reaches them along
    a tree, which starts anew inside each container. With this, termination of a run depends on its
    configuration and on the lengths of its lists alone. */
module Entries {
  import opened Wrappers
  import opened Components
  import opened Scheduler
  import opened SchedulerLemmas
  import opened Runs
  import opened Termination
  import opened Threads

  /** The place of a component in the tree. `source` is `Some(q)` when control comes to it only from
      `q`, or from the inside of container `q`, and `None` for an item, which control reaches from
      its container and its body, and for a component without any control edge into it. A place is
      deeper than its source, and of a level that counts the items on the way. */
  datatype Place = Place(source: Option<Id>, depth: nat, level: nat)

  type Plan = map<Id, Place>

  /** The targets that `q` and its members hand control to: its members and `v`. */
  ghost function Reach(g: Graph, q: Id, v: Id): set<Id> {
    Members(g, q) + {v}
  }

  /** `v` comes after `q` on the tree. */
  predicate Below(plan: Plan, q: Id, v: Id, levels: nat) {
    q in plan && v in plan && plan[q].depth < plan[v].depth && plan[q].level + levels <= plan[v].level
  }

  ghost predicate Branch(g: Graph, plan: Plan, v: Id)
    requires WellFormed(g) && v in plan
  {
    && v in g.specs
    && (if ItemAt(g, v) then g.specs[v].parent.Some? && Below(plan, g.specs[v].parent.value, v, 1)
        else match plan[v].source
             case None => g.specs[v].parent.None? && forall u :: !Edge(g, u, v)
             case Some(q) =>
               && Below(plan, q, v, 0) && q in g.specs && v !in Members(g, q) && q !in Members(g, q)
               && Fed(g, Home(g, q), Reach(g, q, v)) && (g.specs[v].parent.None? ==> g.specs[q].parent.None?))
  }

  /** All containers are on the tree, below the containers around them. Components that are not on
      the way to a container may join in any way. */
  ghost predicate Tree(g: Graph, plan: Plan, deep: nat)
    requires WellFormed(g)
  {
    && (forall v | v in plan :: Branch(g, plan, v) && plan[v].level <= deep)
    && (forall p | p in g.specs && IsContainer(g.specs[p].kind) ::
          p in plan && (g.specs[p].parent.Some? ==> Below(plan, g.specs[p].parent.value, p, 0)))
  }

  // ----- a component and its source -----

  /** Each execution of `q` has paid for at most one token: an execution of `v`, a pending `v`, or
      a pending member of `q` that may still hand over to `v`. */
  ghost predicate Paid(g: Graph, q: Id, v: Id, executed: seq<Id>, pending: seq<Id>) {
    multiset(executed)[v] + CountIn(pending, Reach(g, q, v)) <= multiset(executed)[q]
  }

  lemma PaidStep(g: Graph, q: Id, v: Id, executed: seq<Id>, pending: seq<Id>, batch: seq<Id>, added: seq<Id>)
    requires v !in Members(g, q) && q !in Members(g, q)
    requires Paid(g, q, v, executed, pending) && multiset(batch) <= multiset(pending)
    requires CountIn(added, Reach(g, q, v)) <= CountIn(batch, Home(g, q))
    ensures Paid(g, q, v, executed + batch, added)
  {
    hide CountIn, Members;
    CountInFewer(batch, pending, Reach(g, q, v));
    CountInSplit(batch, Reach(g, q, v), v);
    assert Reach(g, q, v) - {v} == Members(g, q);
    CountInSplit(batch, Home(g, q), q);
    assert Home(g, q) - {q} == Members(g, q);
  }

  /** A round, seen from outside: `batch` survived and was executed, and `added` is pending now. */
  ghost predicate Step(g: Graph, o: Oracle, s: RunState, start: nat, batch: seq<Id>, added: seq<Id>)
    requires start <= s.idx <= |s.flow.path| && (s.status.Running? ==> Ready(g, s))
  {
    var r := Round(g, o, s);
    && s.idx <= r.idx <= |r.flow.path|
    && Since(r, start) == Since(s, start) + batch && r.flow.path[r.idx..] == added
    && multiset(batch) <= multiset(s.flow.path[s.idx..])
  }

  lemma RoundStep(g: Graph, o: Oracle, s: RunState, start: nat) returns (batch: seq<Id>, added: seq<Id>)
    requires s.status.Running? && Ready(g, s) && Round(g, o, s).status.Running? && start <= s.idx
    ensures Step(g, o, s, start, batch, added)
    ensures forall home, among | Fed(g, home, among) :: CountIn(added, among) <= CountIn(batch, home)
    ensures forall x | x in added :: exists u :: Edge(g, u, x)
  {
    hide Round, Processed, Invoked, Keep, WellFormed, CountIn, Fed, Edge;
    var r, kept := Round(g, o, s), Kept(g, s);
    RoundShape(g, o, s);
    RoundOutcome(g, o, s);
    KeptAreAdmitted(g, s.flow.path[..s.idx], s.flow.path[s.idx..]);
    batch, added := kept[s.idx..], r.flow.path[r.idx..];
    assert kept[s.idx..|kept|] == batch;
    assert batch == Keep(g, s.flow.path[..s.idx], s.flow.path[s.idx..]);
    forall home, among | Fed(g, home, among) ensures CountIn(added, among) <= CountIn(batch, home) {
      RoundFeeds(g, o, s, home, among);
    }
    forall x | x in added ensures exists u :: Edge(g, u, x) {
      var j :| 0 <= j < |added| && added[j] == x;
      assert r.flow.path[r.idx + j] == x;
      RoundEdges(g, o, s, r.idx + j);
    }
  }

  lemma RoundFeeds(g: Graph, o: Oracle, s: RunState, home: set<Id>, among: set<Id>)
    requires s.status.Running? && Ready(g, s) && !Processed(g, o, s).crashed && Fed(g, home, among)
    ensures CountIn(Processed(g, o, s).path[|Kept(g, s)|..], among) <= CountIn(Kept(g, s)[s.idx..], home)
  {
    hide WellFormed, CountIn, Fed, Keep, InvokeUpTo, PostUpTo;
    var kept := Kept(g, s);
    assert kept[s.idx..|kept|] == kept[s.idx..];
    PostUpToFeeds(g, o, Invoked(g, o, s), s.idx, |kept|, home, among);
  }

  lemma RoundEdges(g: Graph, o: Oracle, s: RunState, j: nat)
    requires s.status.Running? && Ready(g, s) && |Kept(g, s)| <= j < |Processed(g, o, s).path|
    ensures exists u :: Edge(g, u, Processed(g, o, s).path[j])
  {
    hide WellFormed, Keep, InvokeUpTo, PostUpTo, Edge;
    var _ := PostUpToEdges(g, o, Invoked(g, o, s), s.idx, |Kept(g, s)|, j);
  }

  ghost predicate PaidIn(g: Graph, q: Id, v: Id, s: RunState, start: nat)
    requires start <= s.idx <= |s.flow.path|
  {
    Paid(g, q, v, Since(s, start), s.flow.path[s.idx..])
  }

  /** `v` is executed no more often than its source. */
  lemma {:induction false} PaidThroughout(g: Graph, o: Oracle, q: Id, v: Id, s: RunState, n: nat)
    requires s.status.Running? && Ready(g, s) && Rounds(g, o, s, n).status.Running?
    requires v !in Members(g, q) && q !in Members(g, q) && Fed(g, Home(g, q), Reach(g, q, v))
    requires PaidIn(g, q, v, s, s.idx)
    ensures s.idx <= Rounds(g, o, s, n).idx && PaidIn(g, q, v, Rounds(g, o, s, n), s.idx)
    decreases n
  {
    hide Round, WellFormed, Members, Fed, Paid, Reach, CountIn, Home;
    if n > 0 {
      var t := Rounds(g, o, s, n - 1);
      if !t.status.Running? {
        RoundOver(g, o, t);
      }
      PaidThroughout(g, o, q, v, s, n - 1);
      var batch, added := RoundStep(g, o, t, s.idx);
      PaidStep(g, q, v, Since(t, s.idx), t.flow.path[t.idx..], batch, added);
    }
  }

  /** A component without a control edge into it is executed or pending at most as often as at the
      start of the run. */
  lemma {:induction false} RootThroughout(g: Graph, o: Oracle, v: Id, s: RunState, n: nat, most: nat)
    requires s.status.Running? && Ready(g, s) && Rounds(g, o, s, n).status.Running?
    requires (forall u :: !Edge(g, u, v)) && multiset(s.flow.path[s.idx..])[v] <= most
    ensures s.idx <= Rounds(g, o, s, n).idx
    ensures multiset(Since(Rounds(g, o, s, n), s.idx))[v] +
            multiset(Rounds(g, o, s, n).flow.path[Rounds(g, o, s, n).idx..])[v] <= most
    decreases n
  {
    hide Round, WellFormed, Edge;
    if n == 0 {
      assert Since(s, s.idx) == [];
    } else {
      var t := Rounds(g, o, s, n - 1);
      if !t.status.Running? {
        RoundOver(g, o, t);
      }
      RootThroughout(g, o, v, s, n - 1, most);
      var batch, added := RoundStep(g, o, t, s.idx);
      assert v !in added;
      assert multiset(batch)[v] <= multiset(t.flow.path[t.idx..])[v];
    }
  }

  /** What is pending inside a single thread was paid for by executions of its container. */
  lemma {:induction false} InsideThroughout(g: Graph, o: Oracle, p: Id, s: RunState, n: nat)
    requires s.status.Running? && Ready(g, s) && Rounds(g, o, s, n).status.Running? && SingleThread(g, p)
    requires CountIn(s.flow.path[s.idx..], Members(g, p)) == 0
    ensures s.idx <= Rounds(g, o, s, n).idx <= |Rounds(g, o, s, n).flow.path|
    ensures CountIn(Rounds(g, o, s, n).flow.path[Rounds(g, o, s, n).idx..], Members(g, p)) <=
            multiset(Since(Rounds(g, o, s, n), s.idx))[p]
    decreases n
  {
    hide Round, WellFormed, Members, CountIn, SingleThread;
    if n > 0 {
      var t := Rounds(g, o, s, n - 1);
      if !t.status.Running? {
        RoundOver(g, o, t);
      }
      InsideThroughout(g, o, p, s, n - 1);
      var batch, added := RoundStep(g, o, t, s.idx);
      ThreadOutside(g, p);
      assert CountIn(added, Members(g, p)) <= CountIn(batch, Home(g, p));
      CountInFewer(batch, t.flow.path[t.idx..], Members(g, p));
      CountInSplit(batch, Home(g, p), p);
      assert Home(g, p) - {p} == Members(g, p);
    }
  }

  /** Where every component hands control to at most one, never more than one is pending. */
  lemma {:induction false} NeverForks(g: Graph, o: Oracle, s: RunState, n: nat)
    requires s.status.Running? && Ready(g, s) && Rounds(g, o, s, n).status.Running?
    requires Fed(g, g.specs.Keys, g.specs.Keys) && |s.flow.path| == s.idx + 1
    ensures Rounds(g, o, s, n).idx <= |Rounds(g, o, s, n).flow.path|
    ensures CountIn(Rounds(g, o, s, n).flow.path[Rounds(g, o, s, n).idx..], g.specs.Keys) <= 1
    decreases n
  {
    hide Round, WellFormed, Fed, CountIn;
    if n == 0 {
      CountInAtMost(s.flow.path[s.idx..], g.specs.Keys);
    } else {
      var t := Rounds(g, o, s, n - 1);
      if !t.status.Running? {
        RoundOver(g, o, t);
      }
      NeverForks(g, o, s, n - 1);
      var batch, added := RoundStep(g, o, t, t.idx);
      assert CountIn(added, g.specs.Keys) <= CountIn(batch, g.specs.Keys);
      CountInFewer(batch, t.flow.path[t.idx..], g.specs.Keys);
    }
  }

  // ----- the tree -----

  /** The run starts with one component, outside of containers and at a root of the tree. */
  ghost predicate AtRoot(g: Graph, plan: Plan, s: RunState)
    requires Ready(g, s)
  {
    var v := s.flow.path[s.idx];
    && |s.flow.path| == s.idx + 1 && g.specs[v].parent.None?
    && (v in plan ==> plan[v].source.None?)
  }

  lemma PaidAtRoot(g: Graph, plan: Plan, s: RunState, q: Id, v: Id)
    requires Ready(g, s) && AtRoot(g, plan, s) && v in plan && plan[v].source.Some?
    ensures PaidIn(g, q, v, s, s.idx)
  {
    hide WellFormed, CountIn, Members;
    var x := s.flow.path[s.idx];
    assert s.flow.path[s.idx..] == [x];
    assert Since(s, s.idx) == [];
    if x in Members(g, q) {
      MembersHaveParents(g, x, q);
    }
    CountInZero([x], Reach(g, q, v));
  }

  /** A component of the tree that is outside of containers is executed or pending at most once. */
  lemma {:induction false} OutsideOnce(g: Graph, o: Oracle, plan: Plan, deep: nat, s: RunState, n: nat, v: Id)
    requires s.status.Running? && Ready(g, s) && Rounds(g, o, s, n).status.Running?
    requires Tree(g, plan, deep) && AtRoot(g, plan, s) && v in plan && v in g.specs && g.specs[v].parent.None?
    ensures s.idx <= Rounds(g, o, s, n).idx <= |Rounds(g, o, s, n).flow.path|
    ensures multiset(Since(Rounds(g, o, s, n), s.idx))[v] +
            multiset(Rounds(g, o, s, n).flow.path[Rounds(g, o, s, n).idx..])[v] <= 1
    decreases plan[v].depth
  {
    hide Round, WellFormed, Edge, CountIn, Fed, Members, ItemAt;
    assert Branch(g, plan, v);
    assert s.flow.path[s.idx..] == [s.flow.path[s.idx]];
    match plan[v].source
    case None => RootThroughout(g, o, v, s, n, 1);
    case Some(q) =>
      assert Branch(g, plan, q);
      PaidAtRoot(g, plan, s, q, v);
      PaidThroughout(g, o, q, v, s, n);
      OutsideOnce(g, o, plan, deep, s, n, q);
      CountInSplit(Rounds(g, o, s, n).flow.path[Rounds(g, o, s, n).idx..], Reach(g, q, v), v);
  }

  /** At every round head at most one component in or before a container is pending. */
  lemma {:induction false} TreesAreLone(g: Graph, o: Oracle, plan: Plan, deep: nat, s: RunState, n: nat, p: Id)
    requires s.status.Running? && Ready(g, s) && Rounds(g, o, s, n).status.Running?
    requires Tree(g, plan, deep) && AtRoot(g, plan, s) && Threaded(g)
    requires p in g.specs && IsContainer(g.specs[p].kind) && p in plan
    ensures Rounds(g, o, s, n).idx <= |Rounds(g, o, s, n).flow.path| && Lone(g, p, Rounds(g, o, s, n))
    decreases plan[p].depth
  {
    hide Round, WellFormed, CountIn, Members, SingleThread, Branch, HidesFailure;
    var r := Rounds(g, o, s, n);
    ThreadOutside(g, p);
    if g.specs[p].parent.None? {
      OutsideOnce(g, o, plan, deep, s, n, p);
      var x := s.flow.path[s.idx];
      assert s.flow.path[s.idx..] == [x];
      if x in Members(g, p) {
        MembersHaveParents(g, x, p);
      }
      CountInZero([x], Members(g, p));
      InsideThroughout(g, o, p, s, n);
      CountInSplit(r.flow.path[r.idx..], Home(g, p), p);
      assert Home(g, p) - {p} == Members(g, p);
    } else {
      var q := g.specs[p].parent.value;
      assert WellFormedSpec(g, p) by { SpecFits(g, p); }
      TreesAreLone(g, o, plan, deep, s, n, q);
      DirectMembers(g, p);
      NestedMembers(g, q, p);
      CountInWithin(r.flow.path[r.idx..], Home(g, p), Home(g, q));
    }
  }

  lemma {:induction false} CountInWithin(ids: seq<Id>, a: set<Id>, b: set<Id>)
    requires a <= b
    ensures CountIn(ids, a) <= CountIn(ids, b)
  {
    if ids != [] {
      CountInWithin(ids[..|ids| - 1], a, b);
    }
  }

  // ----- how often -----

  function Power(base: nat, n: nat): (r: nat)
    ensures base >= 1 ==> r >= 1
  {
    if n == 0 then 1 else base * Power(base, n - 1)
  }

  lemma {:induction false} PowerGrows(base: nat, a: nat, b: nat)
    requires base >= 1 && a <= b
    ensures Power(base, a) <= Power(base, b)
    decreases b
  {
    if a < b {
      PowerGrows(base, a, b - 1);
      Scale(1, base, Power(base, b - 1));
    }
  }

  /** A component of the tree is executed at most `limit + 2` times for each item on the way. */
  lemma {:induction false} ExecutedAtMost(g: Graph, o: Oracle, plan: Plan, deep: nat, limit: nat, s: RunState,
                                          n: nat, v: Id)
    requires s.status.Running? && Ready(g, s) && Rounds(g, o, s, n).status.Running?
    requires Tree(g, plan, deep) && AtRoot(g, plan, s) && Threaded(g) && v in plan
    requires Outside(g, s, limit) && AllWithin(g, o, limit)
    ensures s.idx <= Rounds(g, o, s, n).idx <= |Rounds(g, o, s, n).flow.path|
    ensures multiset(Since(Rounds(g, o, s, n), s.idx))[v] <= Power(limit + 2, plan[v].level)
    decreases plan[v].depth
  {
    hide Round, WellFormed, Edge, CountIn, Fed, Members, SingleThread, AllWithin, Outside, HidesFailure, Power,
      Paid, Threaded, IsContainer;
    assert Branch(g, plan, v);
    var r := Rounds(g, o, s, n);
    if ItemAt(g, v) {
      var p := ContainerOf(g, v);
      ExecutedAtMost(g, o, plan, deep, limit, s, n, p);
      LoneThroughout(g, o, plan, deep, s, n, p);
      ThreadedItemRuns(g, o, s, n, p, v, limit);
      AllowedPower(limit, multiset(Since(r, s.idx))[p], plan[p].level, plan[v].level);
    } else {
      match plan[v].source
      case None =>
        assert s.flow.path[s.idx..] == [s.flow.path[s.idx]];
        RootThroughout(g, o, v, s, n, 1);
        assert Power(limit + 2, plan[v].level) >= 1;
      case Some(q) =>
        PaidAtRoot(g, plan, s, q, v);
        PaidThroughout(g, o, q, v, s, n);
        PaidFor(g, q, v, Since(r, s.idx), r.flow.path[r.idx..]);
        ExecutedAtMost(g, o, plan, deep, limit, s, n, q);
        PowerGrows(limit + 2, plan[q].level, plan[v].level);
    }
  }

  lemma PaidFor(g: Graph, q: Id, v: Id, executed: seq<Id>, pending: seq<Id>)
    requires Paid(g, q, v, executed, pending)
    ensures multiset(executed)[v] <= multiset(executed)[q]
  {
  }

  lemma AllowedPower(limit: nat, entries: nat, low: nat, high: nat)
    requires entries <= Power(limit + 2, low) && low + 1 <= high
    ensures Allowed(limit, entries) <= Power(limit + 2, high)
  {
    Scale(entries, Power(limit + 2, low), limit + 2);
    PowerGrows(limit + 2, low + 1, high);
  }

  lemma LoneThroughout(g: Graph, o: Oracle, plan: Plan, deep: nat, s: RunState, n: nat, p: Id)
    requires s.status.Running? && Ready(g, s)
    requires Tree(g, plan, deep) && AtRoot(g, plan, s) && Threaded(g)
    requires p in g.specs && IsContainer(g.specs[p].kind) && p in plan
    ensures LoneUpTo(g, o, p, s, n)
  {
    hide Round, Rounds, WellFormed, Tree, AtRoot, Threaded, Lone;
    forall k: nat | k < n && Rounds(g, o, s, k).status.Running? ensures Lone(g, p, Rounds(g, o, s, k)) {
      TreesAreLone(g, o, plan, deep, s, k, p);
    }
  }

  /** What the configuration has to meet: outside of items control climbs a rank; every container
      is a single thread whose item does not hide failures; and containers are reached along a
      tree. All of it can be read off the configuration before a run. */
  ghost predicate Configured(g: Graph, rank: map<Id, nat>, top: nat, plan: Plan, deep: nat) {
    Ranked(g, rank, top) && Threaded(g) && Tree(g, plan, deep)
  }

  lemma TreesAreOrderly(g: Graph, o: Oracle, plan: Plan, deep: nat, limit: nat, s: RunState, n: nat)
    requires s.status.Running? && Ready(g, s) && Rounds(g, o, s, n).status.Running?
    requires Tree(g, plan, deep) && AtRoot(g, plan, s) && Threaded(g)
    requires Outside(g, s, limit) && AllWithin(g, o, limit)
    ensures Orderly(g, o, s, n, Power(limit + 2, deep))
  {
    hide Round, Rounds, WellFormed, Branch, AtRoot, Threaded, Outside, AllWithin, LoneUpTo, Power;
    forall p | p in g.specs && IsContainer(g.specs[p].kind)
      ensures LoneUpTo(g, o, p, s, n)
      ensures s.idx <= Rounds(g, o, s, n).idx <= |Rounds(g, o, s, n).flow.path| ==>
              multiset(Since(Rounds(g, o, s, n), s.idx))[p] <= Power(limit + 2, deep)
    {
      LoneThroughout(g, o, plan, deep, s, n, p);
      ExecutedAtMost(g, o, plan, deep, limit, s, n, p);
      PowerGrows(limit + 2, plan[p].level, deep);
    }
  }

  /** Termination from the configuration: a run that starts at a root, outside of containers, and
      whose lists and loop counts are at most `limit`, ends within the bound. Containers may be
      nested up to `deep` levels. */
  lemma ConfiguredRunsEnd(g: Graph, o: Oracle, rank: map<Id, nat>, top: nat, plan: Plan, deep: nat, limit: nat,
                          s: RunState, n: nat)
    requires s.status.Running? && Ready(g, s) && Configured(g, rank, top, plan, deep)
    requires AtRoot(g, plan, s) && Outside(g, s, limit) && AllWithin(g, o, limit)
    requires n > (|Items(g)| * ((limit + 2) * Power(limit + 2, deep))) * (top + 2) + top + 1
    ensures !Rounds(g, o, s, n).status.Running?
  {
    hide Round, WellFormed, AllWithin, Threaded, Tree, Orderly, Edge, Power, Outside, AtRoot;
    if Rounds(g, o, s, n).status.Running? {
      TreesAreOrderly(g, o, plan, deep, limit, s, n);
      ThreadedRunsEnd(g, o, rank, top, limit, Power(limit + 2, deep), s, n);
    }
  }
}
