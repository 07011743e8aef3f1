/** Termination for workflows whose containers are single threads: control enters a container only
    through its container component and never forks inside. Then the item of a container is executed
    only so often for each time that control enters the container, and the run ends. */
module Threads {
  import opened Wrappers
  import opened Values
  import opened Components
  import opened Scheduler
  import opened SchedulerLemmas
  import opened Runs
  import opened Termination
  import opened Unrolling

  // ----- counting -----

  lemma {:induction false} CountInConcat(a: seq<Id>, b: seq<Id>, among: set<Id>)
    ensures CountIn(a + b, among) == CountIn(a, among) + CountIn(b, among)
    decreases |b|
  {
    if b == [] {
      assert a + b == a;
    } else {
      assert (a + b)[..|a + b| - 1] == a + b[..|b| - 1];
      CountInConcat(a, b[..|b| - 1], among);
    }
  }

  lemma {:induction false} CountInZero(ids: seq<Id>, among: set<Id>)
    ensures CountIn(ids, among) == 0 <==> forall x | x in ids :: x !in among
    decreases |ids|
  {
    if ids != [] {
      CountInZero(ids[..|ids| - 1], among);
      assert ids == ids[..|ids| - 1] + [ids[|ids| - 1]];
    }
  }

  lemma {:induction false} CountInFewer(a: seq<Id>, b: seq<Id>, among: set<Id>)
    requires multiset(a) <= multiset(b)
    ensures CountIn(a, among) <= CountIn(b, among)
    decreases |among|
  {
    if among == {} {
      CountInNone(a);
    } else {
      var w :| w in among;
      CountInSplit(a, among, w);
      CountInSplit(b, among, w);
      CountInFewer(a, b, among - {w});
    }
  }

  /** What `Extend` appends is taken from the list it is given, each position at most once. */
  lemma {:induction false} ExtendAddsFewer(path: seq<Id>, vs: seq<Id>, among: set<Id>)
    ensures CountIn(Extend(path, vs)[|path|..], among) <= CountIn(vs, among)
    decreases |vs|
  {
    if vs == [] {
      assert path[|path|..] == [];
    } else {
      var init, v := vs[..|vs| - 1], vs[|vs| - 1];
      var before := Extend(path, init);
      ExtendAddsFewer(path, init, among);
      if Extend(path, vs) != before {
        assert Extend(path, vs)[|path|..] == before[|path|..] + [v];
        CountInConcat(before[|path|..], [v], among);
      }
    }
  }

  // ----- single threads -----

  /** From a component over the containers around it, one by one. */
  ghost predicate Upward(g: Graph, c: seq<Id>) {
    && |c| >= 2
    && forall i | 0 <= i < |c| - 1 :: UpwardAt(g, c, i)
  }

  ghost predicate UpwardAt(g: Graph, c: seq<Id>, i: nat)
    requires i < |c| - 1
  {
    c[i] in g.specs && g.specs[c[i]].parent == Some(c[i + 1])
  }

  ghost predicate Encloses(g: Graph, p: Id, v: Id) {
    exists c :: Upward(g, c) && c[0] == v && c[|c| - 1] == p
  }

  /** The components inside container `p`, its item and those of containers inside it included. */
  ghost function Members(g: Graph, p: Id): set<Id> {
    set v | v in g.specs && Encloses(g, p, v)
  }

  lemma DirectMembers(g: Graph, v: Id)
    requires v in g.specs && g.specs[v].parent.Some?
    ensures v in Members(g, g.specs[v].parent.value)
  {
    var c := [v, g.specs[v].parent.value];
    assert UpwardAt(g, c, 0);
    assert Upward(g, c);
  }

  lemma MembersHaveParents(g: Graph, v: Id, p: Id)
    requires v in Members(g, p)
    ensures g.specs[v].parent.Some?
  {
    var c :| Upward(g, c) && c[0] == v && c[|c| - 1] == p;
    assert UpwardAt(g, c, 0);
  }

  /** What is inside a container that is inside `p` is inside `p`. */
  lemma NestedMembers(g: Graph, p: Id, q: Id)
    requires q in Members(g, p)
    ensures Members(g, q) <= Members(g, p)
  {
    forall v | v in Members(g, q) ensures v in Members(g, p) {
      var a :| Upward(g, a) && a[0] == v && a[|a| - 1] == q;
      var b :| Upward(g, b) && b[0] == q && b[|b| - 1] == p;
      var c := a + b[1..];
      forall i | 0 <= i < |c| - 1 ensures UpwardAt(g, c, i) {
        if i < |a| - 1 {
          assert UpwardAt(g, a, i);
        } else {
          assert UpwardAt(g, b, i - (|a| - 1));
        }
      }
      assert Upward(g, c);
    }
  }

  /** Without containers inside `p`, its members are those that name it as their parent. */
  lemma FlatMembers(g: Graph, p: Id, direct: set<Id>)
    requires WellFormed(g) && forall v :: v in direct <==> v in g.specs && g.specs[v].parent == Some(p)
    requires forall v | v in direct :: !IsContainer(g.specs[v].kind)
    ensures Members(g, p) == direct
  {
    forall v | v in direct ensures v in Members(g, p) {
      DirectMembers(g, v);
    }
    forall v | v in Members(g, p) ensures v in direct {
      var c :| Upward(g, c) && c[0] == v && c[|c| - 1] == p;
      assert UpwardAt(g, c, |c| - 2);
      if |c| > 2 {
        assert UpwardAt(g, c, |c| - 3);
        SpecFits(g, c[|c| - 3]);
      }
    }
  }

  /** A component that is no container has no members. */
  lemma NoMembers(g: Graph, q: Id)
    requires WellFormed(g) && q in g.specs && !IsContainer(g.specs[q].kind)
    ensures Members(g, q) == {}
  {
    forall v | v in g.specs ensures g.specs[v].parent != Some(q) {
      SpecFits(g, v);
    }
    FlatMembers(g, q, {});
  }

  ghost function Home(g: Graph, p: Id): set<Id> {
    Members(g, p) + {p}
  }

  /** Whatever `u` does next, control moves on to at most one of `among`. */
  ghost predicate Narrow(g: Graph, u: Id, among: set<Id>)
    requires WellFormed(g) && u in g.specs
  {
    && (g.specs[u].excMethod != "" ==> CountIn(g.specs[u].excGoto, among) <= 1)
    && (IsRouter(g.specs[u].kind) ==> forall r | r in g.specs[u].routes :: CountIn(r, among) <= 1)
    && CountIn(Successors(g, u, false, []), among) <= 1
    && (ItemAt(g, u) ==> CountIn(Successors(g, u, true, []), among) <= 1)
  }

  /** Control comes to `among` only from `home`, and from each component there to one only. */
  ghost predicate Fed(g: Graph, home: set<Id>, among: set<Id>)
    requires WellFormed(g)
  {
    && (forall u, v | Edge(g, u, v) && v in among :: u in home)
    && (forall u | u in home :: u in g.specs && Narrow(g, u, among))
  }

  predicate ItemOf(g: Graph, p: Id, w: Id) {
    ItemAt(g, w) && g.specs[w].parent == Some(p)
  }

  /** An item that has ended or failed hands control to no member of its container. */
  ghost predicate Leaves(g: Graph, p: Id, w: Id)
    requires WellFormed(g) && ItemAt(g, w)
  {
    && (g.specs[w].excMethod != "" ==> CountIn(g.specs[w].excGoto, Members(g, p)) == 0)
    && CountIn(Successors(g, w, true, []), Members(g, p)) == 0
  }

  /** Control enters container `p` only through `p` itself and never forks inside. This is a
      condition on the configuration alone. */
  ghost predicate SingleThread(g: Graph, p: Id)
    requires WellFormed(g)
  {
    && p !in Members(g, p) && Fed(g, Home(g, p), Members(g, p))
    && (forall w | ItemOf(g, p, w) :: Leaves(g, p, w))
  }

  /** A container with a straight-line body, without jumps into it, and no other way in or back is
      a single thread. */
  lemma StraightIsSingleThread(g: Graph, p: Id, item: Id, body: seq<Id>)
    requires Straight(g, p, item, body) && Members(g, p) == {item} + set v | v in body
    requires forall v | v in g.specs[p].downstream :: v !in Members(g, p)
    requires forall u, v | u in Home(g, p) && u in g.specs && v in g.specs[u].excGoto :: v !in Members(g, p)
    requires forall u, v | Edge(g, u, v) && v in Members(g, p) :: u in Home(g, p)
    ensures SingleThread(g, p)
  {
    hide WellFormed, Edge, CountIn, Members, Straight, Narrow, Leaves, Successors;
    StraightOutside(g, p, item, body);
    forall u | u in Home(g, p) ensures u in g.specs && Narrow(g, u, Members(g, p)) {
      CountInZero(g.specs[u].excGoto, Members(g, p));
      StraightNarrow(g, p, item, body, u, Members(g, p));
    }
    forall w | ItemOf(g, p, w) ensures Leaves(g, p, w) {
      DirectMembers(g, w);
      CountInZero(g.specs[w].excGoto, Members(g, p));
      StraightLeaves(g, p, item, body, w);
    }
  }

  lemma StraightOutside(g: Graph, p: Id, item: Id, body: seq<Id>)
    requires Straight(g, p, item, body)
    ensures WellFormed(g) && p in g.specs && item in g.specs && p != item
    ensures p !in body && forall v | v in body :: v in g.specs
  {
    hide WellFormed;
    forall j | 0 <= j < |body| ensures body[j] in g.specs && body[j] != p {
      assert BodyAt(g, p, body, j);
    }
  }

  lemma StraightNarrow(g: Graph, p: Id, item: Id, body: seq<Id>, u: Id, among: set<Id>)
    requires Straight(g, p, item, body) && (u in {p, item} || u in body) && u in g.specs
    requires CountIn(g.specs[u].excGoto, among) == 0 && forall v | v in g.specs[p].downstream :: v !in among
    ensures Narrow(g, u, among)
  {
    SpecFits(g, p);
    SpecFits(g, u);
    hide WellFormed, CountIn;
    if u in body {
      var j :| 0 <= j < |body| && body[j] == u;
      assert BodyAt(g, p, body, j);
    }
    assert |Successors(g, u, false, [])| <= 1;
    CountInAtMost(Successors(g, u, false, []), among);
    if ItemAt(g, u) {
      CountInZero(Successors(g, u, true, []), among);
    }
  }

  lemma StraightLeaves(g: Graph, p: Id, item: Id, body: seq<Id>, w: Id)
    requires Straight(g, p, item, body) && ItemOf(g, p, w)
    requires CountIn(g.specs[w].excGoto, Members(g, p)) == 0
    requires forall v | v in g.specs[p].downstream :: v !in Members(g, p)
    ensures Leaves(g, p, w)
  {
    SpecFits(g, w);
    hide WellFormed, CountIn, Members;
    CountInZero(Successors(g, w, true, []), Members(g, p));
  }

  lemma {:induction false} CountInAtMost(ids: seq<Id>, among: set<Id>)
    ensures CountIn(ids, among) <= |ids|
  {
    if ids != [] {
      CountInAtMost(ids[..|ids| - 1], among);
    }
  }

  // ----- one post-processing step -----

  lemma FedInside(g: Graph, home: set<Id>, among: set<Id>, v: Id)
    requires WellFormed(g) && Fed(g, home, among) && v in home
    ensures v in g.specs && Narrow(g, v, among)
  {
  }

  /** The targets of `v` when it does not jump. */
  lemma NarrowMove(g: Graph, comps: Comps, v: Id, among: set<Id>)
    requires WellFormed(g) && v in g.specs && v in comps && Narrow(g, v, among)
    ensures CountIn(Successors(g, v, Ended(g, comps, v), RouteOf(g.specs[v], comps[v])), among) <= 1
  {
    hide WellFormed, CountIn;
    assert WellFormedSpec(g, v) by { SpecFits(g, v); }
    var ended, route := Ended(g, comps, v), RouteOf(g.specs[v], comps[v]);
    if IsRouter(g.specs[v].kind) {
      assert route == [] || route in g.specs[v].routes;
      CountInZero([], among);
    } else {
      assert Successors(g, v, ended, route) == Successors(g, v, ended, []);
    }
  }

  /** What post-processing appends: the goto targets, or at most the successors. */
  lemma PostAdds(g: Graph, f: Flow, v: Id, r: Reply, among: set<Id>)
    requires Sound(g, f) && v in g.specs && !Post(g, f, v, r).crashed
    ensures var after := Post(g, f, v, r);
      var jump := ReactionTo(g.specs[v], MessageStep(g, f, v, r).comps[v].error).Jump?;
      var targets := Successors(g, v, Ended(g, after.comps, v), RouteOf(g.specs[v], after.comps[v]));
      && (jump ==> after.path[|f.path|..] == g.specs[v].excGoto)
      && (!jump ==> CountIn(after.path[|f.path|..], among) <= CountIn(targets, among))
  {
    hide WellFormed, CountIn, MessageStep, FinishStep, EndStep, Extend, Successors;
    var h := ErrorStep(g, MessageStep(g, f, v, r), v);
    var e := EndStep(g, FinishStep(g, h, v), v, r);
    if !ReactionTo(g.specs[v], MessageStep(g, f, v, r).comps[v].error).Jump? {
      assert h.path == f.path == e.path;
      ExtendAddsFewer(f.path, Successors(g, v, Ended(g, e.comps, v), RouteOf(g.specs[v], e.comps[v])), among);
    }
  }

  /** One post-processing step hands control to at most one of `among`, to none from outside. */
  lemma PostFeeds(g: Graph, f: Flow, v: Id, r: Reply, home: set<Id>, among: set<Id>)
    requires Sound(g, f) && v in g.specs && Fed(g, home, among) && !Post(g, f, v, r).crashed
    ensures CountIn(Post(g, f, v, r).path[|f.path|..], among) <= if v in home then 1 else 0
  {
    hide WellFormed, Edge, CountIn, Post, Successors, Fed, Narrow, RouteOf, Ended;
    if v in home {
      FedInside(g, home, among, v);
      PostAdds(g, f, v, r, among);
      NarrowMove(g, Post(g, f, v, r).comps, v, among);
      NarrowJump(g, v, among);
    } else {
      OutsideAddsNone(g, f, v, r, home, among);
    }
  }

  lemma NarrowJump(g: Graph, v: Id, among: set<Id>)
    requires WellFormed(g) && v in g.specs && Narrow(g, v, among)
    ensures g.specs[v].excMethod != "" ==> CountIn(g.specs[v].excGoto, among) <= 1
  {
  }

  lemma OutsideAddsNone(g: Graph, f: Flow, v: Id, r: Reply, home: set<Id>, among: set<Id>)
    requires Sound(g, f) && v in g.specs && Fed(g, home, among) && v !in home
    ensures CountIn(Post(g, f, v, r).path[|f.path|..], among) == 0
  {
    hide Post, Edge, Narrow;
    PostEdges(g, f, v, r);
    var added := Post(g, f, v, r).path[|f.path|..];
    assert forall x | x in added :: Edge(g, v, x);
    CountInZero(added, among);
  }

  /** The last step of post-processing a batch. */
  lemma PostUpToLast(g: Graph, o: Oracle, f: Flow, from: nat, hi: nat)
    requires Sound(g, f) && from < hi <= |f.path| && !PostUpTo(g, o, f, from, hi).crashed
    ensures var before, after := PostUpTo(g, o, f, from, hi - 1), PostUpTo(g, o, f, from, hi);
      && !before.crashed && f.path[hi - 1] in g.specs && after == Post(g, before, f.path[hi - 1], o(hi - 1))
      && after.path[|f.path|..] == before.path[|f.path|..] + after.path[|before.path|..]
      && f.path[from..hi] == f.path[from..hi - 1] + [f.path[hi - 1]]
  {
    hide Post, WellFormed;
    var before := PostUpTo(g, o, f, from, hi - 1);
    assert before.path[hi - 1] == f.path[hi - 1];
  }

  /** Post-processing a batch hands control to as many of `among` as came from `home`. */
  lemma {:induction false} PostUpToFeeds(g: Graph, o: Oracle, f: Flow, from: nat, hi: nat, home: set<Id>,
                                         among: set<Id>)
    requires Sound(g, f) && from <= hi <= |f.path| && Fed(g, home, among)
    requires !PostUpTo(g, o, f, from, hi).crashed
    ensures CountIn(PostUpTo(g, o, f, from, hi).path[|f.path|..], among) <= CountIn(f.path[from..hi], home)
    decreases hi
  {
    hide Post, WellFormed, Fed, CountIn;
    if from == hi {
      assert f.path[from..hi] == [] && f.path[|f.path|..] == [];
      CountInZero([], among);
    } else {
      PostUpToLast(g, o, f, from, hi);
      var before, v := PostUpTo(g, o, f, from, hi - 1), f.path[hi - 1];
      PostUpToFeeds(g, o, f, from, hi - 1, home, among);
      PostFeeds(g, before, v, o(hi - 1), home, among);
      CountInConcat(f.path[from..hi - 1], [v], home);
      CountInConcat(before.path[|f.path|..], Post(g, before, v, o(hi - 1)).path[|before.path|..], among);
      CountInZero([v], home);
      assert v in [v];
    }
  }

  // ----- an item that is done -----

  /** A handler that lets a component that could not do its work go on as if it had: it replaces
      the error by a default, or answers it with one. */
  predicate Forgiving(c: Spec) {
    c.excMethod != "" && c.excDefault != "" && (c.excMethod == "comment" || c.excGoto == [])
  }

  /** Only iteration items can fail when they are invoked. */
  predicate HidesFailure(c: Spec) {
    c.kind.IterationItem? && Forgiving(c)
  }

  /** An item is done: it has ended, or it has failed and its handler does not hide that. */
  ghost predicate DoneWith(c: Spec, s: Comp) {
    s.counter == -1 || (s.error != "" && !Forgiving(c))
  }

  /** An item that is done leaves its container, or ends the run with its error. */
  lemma PostLeaves(g: Graph, f: Flow, w: Id, r: Reply, p: Id)
    requires Sound(g, f) && SingleThread(g, p) && ItemOf(g, p, w) && !Post(g, f, w, r).crashed
    requires DoneWith(g.specs[w], f.comps[w]) || Post(g, f, w, r).comps[w].counter == -1
    ensures CountIn(Post(g, f, w, r).path[|f.path|..], Members(g, p)) == 0 || Post(g, f, w, r).error != ""
  {
    hide WellFormed, Edge, CountIn, Members, FinishStep, EndStep, Extend, Successors, Fed;
    assert Leaves(g, p, w);
    PostAdds(g, f, w, r, Members(g, p));
    var m := MessageStep(g, f, w, r);
    var h := ErrorStep(g, m, w);
    var e := EndStep(g, FinishStep(g, h, w), w, r);
    if ReactionTo(g.specs[w], m.comps[w].error).Fatal? {
      FinishErrors(g, h, w, w);
      EndErrors(g, FinishStep(g, h, w), w, r, w);
    } else if !ReactionTo(g.specs[w], m.comps[w].error).Jump? {
      if f.comps[w].counter == -1 {
        PostCounters(g, f, w, r, w);
      }
      SuccessorsEnded(g, w, RouteOf(g.specs[w], e.comps[w]));
    }
  }

  lemma SuccessorsEnded(g: Graph, w: Id, route: seq<Id>)
    requires WellFormed(g) && ItemAt(g, w)
    ensures Successors(g, w, true, route) == Successors(g, w, true, [])
  {
  }

  lemma PostElsewhere(g: Graph, f: Flow, v: Id, r: Reply, w: Id)
    requires Sound(g, f) && v in g.specs && w in g.specs && w != v
    ensures Post(g, f, v, r).comps[w].counter == f.comps[w].counter
  {
    hide WellFormed, MessageStep, FinishStep, EndStep, Extend, Successors;
    MessageCounter(g, f, v, r, w);
    var m := MessageStep(g, f, v, r);
    if !m.crashed {
      FinishCounter(g, ErrorStep(g, m, v), v, w);
      EndElsewhere(g, FinishStep(g, ErrorStep(g, m, v), v), v, r, w);
    }
  }

  lemma EndElsewhere(g: Graph, f: Flow, v: Id, r: Reply, w: Id)
    requires Sound(g, f) && v in g.specs && w in g.specs && w != v
    ensures EndStep(g, f, v, r).comps[w].counter == f.comps[w].counter
  {
    hide LoopConditions.VerdictOf, WellFormed;
    assert WellFormedSpec(g, v) by { SpecFits(g, v); }
  }

  lemma {:induction false} PostUpToElsewhere(g: Graph, o: Oracle, f: Flow, from: nat, hi: nat, w: Id)
    requires Sound(g, f) && from <= hi <= |f.path| && w in g.specs && w !in f.path[from..hi]
    ensures PostUpTo(g, o, f, from, hi).comps[w].counter == f.comps[w].counter
    decreases hi
  {
    hide Post, WellFormed;
    if from < hi {
      assert f.path[from..hi] == f.path[from..hi - 1] + [f.path[hi - 1]];
      PostUpToElsewhere(g, o, f, from, hi - 1, w);
      var before := PostUpTo(g, o, f, from, hi - 1);
      if !before.crashed {
        PostElsewhere(g, before, before.path[hi - 1], o(hi - 1), w);
      }
    }
  }

  /** Post-processing clears neither the run's error nor a component's. */
  lemma PostKeepsErrors(g: Graph, f: Flow, v: Id, r: Reply, w: Id)
    requires Sound(g, f) && v in g.specs && w in g.specs
    ensures f.error != "" ==> Post(g, f, v, r).error != ""
    ensures f.comps[w].error != "" ==> Post(g, f, v, r).comps[w].error != ""
  {
    hide WellFormed, MessageStep, FinishStep, EndStep, Extend, Successors;
    MessageErrors(g, f, v, r, w);
    var m := MessageStep(g, f, v, r);
    if !m.crashed {
      var h := ErrorStep(g, m, v);
      FinishErrors(g, h, v, w);
      EndErrors(g, FinishStep(g, h, v), v, r, w);
    }
  }

  lemma MessageErrors(g: Graph, f: Flow, v: Id, r: Reply, w: Id)
    requires Sound(g, f) && v in g.specs && w in g.specs
    ensures MessageStep(g, f, v, r).error == f.error
    ensures f.comps[w].error != "" ==> MessageStep(g, f, v, r).comps[w].error != ""
  {
    hide WellFormed, Drainable, LateEvents;
  }

  lemma FinishErrors(g: Graph, f: Flow, v: Id, w: Id)
    requires Sound(g, f) && v in g.specs && w in g.specs
    ensures FinishStep(g, f, v).error == f.error && FinishStep(g, f, v).comps[w].error == f.comps[w].error
  {
    hide WellFormed;
  }

  lemma EndErrors(g: Graph, f: Flow, v: Id, r: Reply, w: Id)
    requires Sound(g, f) && v in g.specs && w in g.specs
    ensures EndStep(g, f, v, r).error == f.error && EndStep(g, f, v, r).comps[w].error == f.comps[w].error
  {
    hide LoopConditions.VerdictOf, WellFormed;
    assert WellFormedSpec(g, v) by { SpecFits(g, v); }
  }

  lemma PostKeepsDone(g: Graph, f: Flow, v: Id, r: Reply, w: Id)
    requires Sound(g, f) && v in g.specs && w in g.specs && DoneWith(g.specs[w], f.comps[w])
    ensures DoneWith(g.specs[w], Post(g, f, v, r).comps[w])
  {
    hide WellFormed, Post, Forgiving;
    PostKeepsErrors(g, f, v, r, w);
    PostCounters(g, f, v, r, w);
  }

  lemma {:induction false} PostUpToKeepsDone(g: Graph, o: Oracle, f: Flow, from: nat, hi: nat, w: Id)
    requires Sound(g, f) && from <= hi <= |f.path| && w in g.specs && DoneWith(g.specs[w], f.comps[w])
    ensures DoneWith(g.specs[w], PostUpTo(g, o, f, from, hi).comps[w])
    decreases hi
  {
    hide Post, WellFormed, DoneWith;
    if from < hi {
      PostUpToKeepsDone(g, o, f, from, hi - 1, w);
      var before := PostUpTo(g, o, f, from, hi - 1);
      if !before.crashed {
        PostKeepsDone(g, before, before.path[hi - 1], o(hi - 1), w);
      }
    }
  }

  // ----- a batch -----

  /** When the item is the one component of `p` in a batch and is done, the batch leaves nothing
      pending in `p`, or an error. */
  lemma {:induction false} PostUpToLeaves(g: Graph, o: Oracle, f: Flow, from: nat, hi: nat, p: Id, w: Id)
    requires Sound(g, f) && from <= hi <= |f.path| && SingleThread(g, p) && ItemOf(g, p, w)
    requires !PostUpTo(g, o, f, from, hi).crashed
    requires w in f.path[from..hi] && CountIn(f.path[from..hi], Home(g, p)) <= 1
    requires DoneWith(g.specs[w], f.comps[w]) || PostUpTo(g, o, f, from, hi).comps[w].counter == -1
    ensures CountIn(PostUpTo(g, o, f, from, hi).path[|f.path|..], Members(g, p)) == 0 ||
            PostUpTo(g, o, f, from, hi).error != ""
    decreases hi
  {
    hide Post, PostUpTo, WellFormed, SingleThread, CountIn, Members, Home, DoneWith;
    PostUpToLast(g, o, f, from, hi);
    var before, v := PostUpTo(g, o, f, from, hi - 1), f.path[hi - 1];
    var batch := f.path[from..hi - 1];
    CountInConcat(batch, [v], Home(g, p));
    ThreadOutside(g, p);
    PostUpToFeeds(g, o, f, from, hi - 1, Home(g, p), Members(g, p));
    if DoneWith(g.specs[w], f.comps[w]) {
      PostUpToKeepsDone(g, o, f, from, hi - 1, w);
    }
    if v != w {
      PostElsewhere(g, before, v, o(hi - 1), w);
      PostUpToLeaves(g, o, f, from, hi - 1, p, w);
    }
    PostLeavesMore(g, before, v, o(hi - 1), p, w, batch, before.path[|f.path|..]);
  }

  /** One more component is post-processed, with `added` appended so far. */
  lemma PostLeavesMore(g: Graph, f: Flow, v: Id, r: Reply, p: Id, w: Id, batch: seq<Id>, added: seq<Id>)
    requires Sound(g, f) && v in g.specs && SingleThread(g, p) && ItemOf(g, p, w)
    requires !Post(g, f, v, r).crashed && CountIn(batch + [v], Home(g, p)) <= 1
    requires CountIn(added, Members(g, p)) <= CountIn(batch, Home(g, p))
    requires v == w ==> DoneWith(g.specs[w], f.comps[w]) || Post(g, f, w, r).comps[w].counter == -1
    requires v != w ==> w in batch && (CountIn(added, Members(g, p)) == 0 || f.error != "")
    ensures CountIn(added + Post(g, f, v, r).path[|f.path|..], Members(g, p)) == 0 || Post(g, f, v, r).error != ""
  {
    hide Post, WellFormed, SingleThread, CountIn, Members, DoneWith;
    ThreadOutside(g, p);
    DirectMembers(g, w);
    CountInConcat(batch, [v], Home(g, p));
    CountInConcat(added, Post(g, f, v, r).path[|f.path|..], Members(g, p));
    CountInZero([v], Home(g, p));
    CountInZero(batch, Home(g, p));
    if v == w {
      assert v in [v];
      PostLeaves(g, f, w, r, p);
    } else {
      PostFeeds(g, f, v, r, Home(g, p), Members(g, p));
      PostKeepsErrors(g, f, v, r, w);
    }
  }

  /** A limit that is large enough for one reply. */
  ghost function Enough(g: Graph, v: Id, r: Reply): (limit: nat)
    requires WellFormed(g)
    ensures Within(g, v, r, limit)
  {
    assert ItemAt(g, v) ==> WellFormedSpec(g, v);
    if !ItemAt(g, v) then 0
    else if r.read.Array? && g.specs[v].kind.IterationItem? then |r.read.vs|
    else if g.specs[g.specs[v].parent.value].maxLoops < 0 then 0
    else g.specs[g.specs[v].parent.value].maxLoops
  }

  /** The last step of invoking a batch. */
  lemma InvokeUpToLast(g: Graph, o: Oracle, comps: Comps, path: seq<Id>, from: nat, hi: nat)
    requires WellFormed(g) && Known(g, path) && comps.Keys == g.specs.Keys && from < hi <= |path|
    ensures path[hi - 1] in g.specs && path[from..hi] == path[from..hi - 1] + [path[hi - 1]]
    ensures InvokeUpTo(g, o, comps, path, from, hi) ==
            Invoke(g, InvokeUpTo(g, o, comps, path, from, hi - 1), path[hi - 1], o(hi - 1))
  {
    hide Invoke, WellFormed;
  }

  lemma {:induction false} InvokeElsewhere(g: Graph, o: Oracle, comps: Comps, path: seq<Id>, from: nat, hi: nat, w: Id)
    requires WellFormed(g) && Known(g, path) && comps.Keys == g.specs.Keys && from <= hi <= |path| && w in g.specs
    ensures w !in path[from..hi] ==> InvokeUpTo(g, o, comps, path, from, hi)[w].counter == comps[w].counter
    decreases hi
  {
    hide Invoke, WellFormed, Within, Enough;
    if from < hi {
      InvokeElsewhere(g, o, comps, path, from, hi - 1, w);
      assert path[from..hi] == path[from..hi - 1] + [path[hi - 1]];
      InvokeCounters(g, InvokeUpTo(g, o, comps, path, from, hi - 1), path[hi - 1], o(hi - 1), w,
                     Enough(g, path[hi - 1], o(hi - 1)));
    }
  }

  lemma {:induction false} CollateRefsErrors(comps: Comps, p: Id, source: Id, refs: seq<Ref>, w: Id)
    requires p in comps && source in comps && w in comps
    ensures CollateRefs(comps, p, source, refs).comps[w].error == comps[w].error
    decreases |refs|
  {
    if refs != [] {
      CollateRefsErrors(comps, p, source, refs[..|refs| - 1], w);
    }
  }

  lemma {:induction false} CollateErrors(g: Graph, comps: Comps, p: Id, ids: seq<Id>, w: Id)
    requires p in comps && p in g.specs && Known(g, ids) && comps.Keys == g.specs.Keys && w in comps
    ensures Collate(g, comps, p, ids).comps[w].error == comps[w].error
    decreases |ids|
  {
    hide CollateRefs;
    if ids != [] {
      var before := Collate(g, comps, p, ids[..|ids| - 1]);
      CollateErrors(g, comps, p, ids[..|ids| - 1], w);
      CollateRefsErrors(before.comps, p, ids[|ids| - 1], g.specs[p].refs, w);
    }
  }

  /** Invoking a component touches no other component's error. */
  lemma InvokeErrors(g: Graph, comps: Comps, v: Id, r: Reply, w: Id)
    requires WellFormed(g) && v in g.specs && w in g.specs && comps.Keys == g.specs.Keys && v != w
    ensures Invoke(g, comps, v, r)[w].error == comps[w].error
  {
    assert WellFormedSpec(g, v) && Known(g, g.order);
    hide WellFormed, Collate, Advance, InvokeForeign;
    if g.specs[v].kind.IterationItem? {
      var p := g.specs[v].parent.value;
      CollateErrors(g, comps, p, g.order, w);
      if r.read.Array? {
        AdvanceErrors(g.specs[v], comps, v, r.read.vs, w);
        AdvanceErrors(g.specs[v], Collate(g, comps, p, g.order).comps, v, r.read.vs, w);
      }
    } else if !g.specs[v].kind.LoopItem? {
      ForeignErrors(g, comps, v, r, w);
    }
  }

  lemma AdvanceErrors(c: Spec, comps: Comps, v: Id, vs: seq<Val>, w: Id)
    requires v in comps && w in comps && v != w
    ensures Advance(c, comps, v, vs)[w].error == comps[w].error
  {
    hide ElementAt, Excepted;
  }

  lemma ForeignErrors(g: Graph, comps: Comps, v: Id, r: Reply, w: Id)
    requires v in g.specs && v in comps && w in comps && v != w
    ensures InvokeForeign(g, comps, v, r)[w].error == comps[w].error
  {
    hide Excepted;
  }

  /** What one invocation does to an item that has not ended: the counter moves on or to the end,
      or the item fails. */
  ghost predicate Turn(c: Spec, before: int, after: Comp, limit: nat) {
    after.counter == before + 1 <= limit || (DoneWith(c, after) && after.counter in {before, -1})
  }

  lemma InvokeTurn(g: Graph, comps: Comps, v: Id, r: Reply, limit: nat)
    requires WellFormed(g) && ItemAt(g, v) && comps.Keys == g.specs.Keys && Within(g, v, r, limit)
    requires comps[v].counter >= -1 && !HidesFailure(g.specs[v])
    ensures Turn(g.specs[v], comps[v].counter, Invoke(g, comps, v, r)[v], limit)
  {
    assert WellFormedSpec(g, v) && Known(g, g.order);
    hide WellFormed, Collate, Advance;
    var c := g.specs[v];
    if c.kind.IterationItem? {
      ExceptedCounter(c);
      var p := c.parent.value;
      CollateCounters(g, comps, p, g.order, v);
      if r.read.Array? {
        AdvanceTurn(c, comps, v, r.read.vs, limit);
        AdvanceTurn(c, Collate(g, comps, p, g.order).comps, v, r.read.vs, limit);
      }
    }
  }

  lemma AdvanceTurn(c: Spec, comps: Comps, v: Id, vs: seq<Val>, limit: nat)
    requires v in comps && comps[v].counter >= -1 && |vs| <= limit
    ensures Turn(c, comps[v].counter, Advance(c, comps, v, vs)[v], limit)
  {
    hide Excepted, Forgiving;
    ExceptedCounter(c);
  }

  /** What item `w` finds between two positions is at most `limit`. */
  ghost predicate ItemWithin(g: Graph, o: Oracle, w: Id, lo: nat, hi: nat, limit: nat)
    requires WellFormed(g)
  {
    forall i: nat | lo <= i < hi :: Within(g, w, o(i), limit)
  }

  /** The invocations of a batch in which item `w` occurs once. */
  lemma {:induction false} BatchTurn(g: Graph, o: Oracle, comps: Comps, path: seq<Id>, from: nat, hi: nat, w: Id,
                                     limit: nat)
    requires WellFormed(g) && Known(g, path) && comps.Keys == g.specs.Keys && from <= hi <= |path|
    requires ItemWithin(g, o, w, from, hi, limit) && ItemAt(g, w) && comps[w].counter >= -1 && !HidesFailure(g.specs[w])
    requires multiset(path[from..hi])[w] == 1
    ensures Turn(g.specs[w], comps[w].counter, InvokeUpTo(g, o, comps, path, from, hi)[w], limit)
    decreases hi
  {
    hide Invoke, InvokeUpTo, WellFormed, Within, HidesFailure, Enough;
    assert w in path[from..hi];
    InvokeUpToLast(g, o, comps, path, from, hi);
    var before, v := InvokeUpTo(g, o, comps, path, from, hi - 1), path[hi - 1];
    if v == w {
      assert Within(g, w, o(hi - 1), limit);
      InvokeElsewhere(g, o, comps, path, from, hi - 1, w);
      InvokeTurn(g, before, w, o(hi - 1), limit);
    } else {
      BatchTurn(g, o, comps, path, from, hi - 1, w, limit);
      InvokeCounters(g, before, v, o(hi - 1), w, Enough(g, v, o(hi - 1)));
      InvokeErrors(g, before, v, o(hi - 1), w);
    }
  }

  // ----- rounds -----

  /** What a round does to the thread in `p`: `batch` survived and was invoked, which left item `w`
      as `invoked`; post-processing it left `added` pending and the counter at `after`. */
  ghost predicate ThreadRound(g: Graph, p: Id, w: Id, limit: nat, counter: int, batch: seq<Id>,
                              invoked: Comp, added: seq<Id>, after: int)
    requires w in g.specs
  {
    && (w !in batch ==> after == counter)
    && (w in batch && counter >= -1 && CountIn(batch, Home(g, p)) <= 1 ==>
          Turn(g.specs[w], counter, invoked, limit) && after in {invoked.counter, -1} &&
          (DoneWith(g.specs[w], invoked) || after == -1 ==> CountIn(added, Members(g, p)) == 0))
    && CountIn(added, Members(g, p)) <= CountIn(batch, Home(g, p))
  }

  /** A round after which the run goes on, or has finished, has post-processed its whole batch
      without an error. */
  lemma RoundOutcome(g: Graph, o: Oracle, s: RunState)
    requires s.status.Running? && Ready(g, s) && Unbroken(Round(g, o, s))
    ensures var f, r := Processed(g, o, s), Round(g, o, s);
      && !f.crashed && f.error == "" && r.flow.path == f.path && r.flow.comps == f.comps
      && r.idx == |Kept(g, s)| && r.idx <= |r.flow.path|
  {
    hide Processed, Kept, WellFormed, OfKind, StartedEvents, DroppedBy;
  }

  lemma ThreadOutside(g: Graph, p: Id)
    requires WellFormed(g) && SingleThread(g, p)
    ensures p !in Members(g, p) && p in g.specs && Fed(g, Home(g, p), Members(g, p))
  {
  }

  ghost predicate ThreadRoundIn(g: Graph, p: Id, w: Id, limit: nat, s: RunState, kept: seq<Id>, invoked: Comps,
                                f: Flow) {
    && s.idx <= |kept| <= |f.path| && w in g.specs && w in s.flow.comps && w in invoked && w in f.comps
    && ThreadRound(g, p, w, limit, s.flow.comps[w].counter, kept[s.idx..], invoked[w], f.path[|kept|..],
                   f.comps[w].counter)
  }

  lemma RoundOfThread(g: Graph, o: Oracle, p: Id, w: Id, s: RunState, limit: nat)
    requires s.status.Running? && Ready(g, s) && Unbroken(Round(g, o, s))
    requires SingleThread(g, p) && ItemOf(g, p, w) && !HidesFailure(g.specs[w])
    requires ItemWithin(g, o, w, s.idx, |Kept(g, s)|, limit)
    ensures ThreadRoundIn(g, p, w, limit, s, Kept(g, s), Invoked(g, o, s).comps, Round(g, o, s).flow)
  {
    hide Round, Keep, PostUpTo, InvokeUpTo, WellFormed, CountIn, Members, SingleThread, Turn, DoneWith, ItemWithin,
      Kept, HidesFailure;
    RoundOutcome(g, o, s);
    ThreadOutside(g, p);
    var kept, i := Kept(g, s), Invoked(g, o, s);
    var batch := kept[s.idx..];
    assert kept[s.idx..|kept|] == batch;
    PostUpToFeeds(g, o, i, s.idx, |kept|, Home(g, p), Members(g, p));
    if w !in batch {
      InvokeElsewhere(g, o, s.flow.comps, kept, s.idx, |kept|, w);
      PostUpToElsewhere(g, o, i, s.idx, |kept|, w);
    } else if s.flow.comps[w].counter >= -1 && CountIn(batch, Home(g, p)) <= 1 {
      DirectMembers(g, w);
      CountInSplit(batch, Home(g, p), w);
      BatchTurn(g, o, s.flow.comps, kept, s.idx, |kept|, w, limit);
      PostUpToCounters(g, o, i, s.idx, |kept|, w);
      if DoneWith(g.specs[w], i.comps[w]) || Processed(g, o, s).comps[w].counter == -1 {
        PostUpToLeaves(g, o, i, s.idx, |kept|, p, w);
      }
    }
  }

  // ----- whole runs -----

  /** How often an item may be executed when its container was entered `entries` times. */
  function Allowed(limit: nat, entries: int): int {
    (limit + 2) * entries
  }

  /** At a round head, for an item whose counter is `counter`: each time control entered `p`, item
      `w` was executed at most `limit + 2` times, and while control is inside only as often as its
      counter says. */
  ghost predicate Tallied(g: Graph, p: Id, w: Id, limit: nat, counter: int, executed: seq<Id>, pending: seq<Id>) {
    var entered, inside := multiset(executed)[p], CountIn(pending, Members(g, p)) > 0;
    && -1 <= counter <= limit
    && (inside ==> entered > 0)
    && multiset(executed)[w] <= if inside then Allowed(limit, entered - 1) + counter + 1 else Allowed(limit, entered)
  }

  ghost predicate TalliedIn(g: Graph, p: Id, w: Id, limit: nat, s: RunState, start: nat)
    requires start <= s.idx <= |s.flow.path| && w in s.flow.comps
  {
    Tallied(g, p, w, limit, s.flow.comps[w].counter, Since(s, start), s.flow.path[s.idx..])
  }

  /** At most one component in or before container `p` is pending. */
  ghost predicate Lone(g: Graph, p: Id, s: RunState)
    requires s.idx <= |s.flow.path|
  {
    CountIn(s.flow.path[s.idx..], Home(g, p)) <= 1
  }

  lemma AllowedMore(limit: nat, entries: int)
    ensures Allowed(limit, entries + 1) == Allowed(limit, entries) + limit + 2
  {
  }

  /** The step of the invariant, on lists. */
  lemma TalliedStep(g: Graph, p: Id, w: Id, limit: nat, counter: int, executed: seq<Id>, pending: seq<Id>,
                    batch: seq<Id>, invoked: Comp, added: seq<Id>, after: int)
    requires p !in Members(g, p) && w in Members(g, p)
    requires Tallied(g, p, w, limit, counter, executed, pending) && multiset(batch) <= multiset(pending)
    requires CountIn(pending, Home(g, p)) <= 1
    requires ThreadRound(g, p, w, limit, counter, batch, invoked, added, after)
    ensures Tallied(g, p, w, limit, after, executed + batch, added)
  {
    hide CountIn, Members, DoneWith, Allowed;
    assert Home(g, p) - {p} == Members(g, p);
    CountInFewer(batch, pending, Home(g, p));
    CountInSplit(batch, Home(g, p), p);
    CountInSplit(pending, Home(g, p), p);
    CountInFewer(batch, pending, Members(g, p));
    CountInZero(batch, Members(g, p));
    CountInSplit(batch, Members(g, p), w);
    var entered: int := multiset(executed)[p];
    AllowedMore(limit, entered);
    AllowedMore(limit, entered - 1);
  }

  lemma RoundThread(g: Graph, o: Oracle, p: Id, w: Id, s: RunState, start: nat, limit: nat)
    requires s.status.Running? && Ready(g, s) && Round(g, o, s).status.Running? && start <= s.idx
    requires SingleThread(g, p) && ItemOf(g, p, w) && !HidesFailure(g.specs[w]) && Lone(g, p, s)
    requires ItemWithin(g, o, w, s.idx, |Kept(g, s)|, limit) && TalliedIn(g, p, w, limit, s, start)
    ensures start <= s.idx <= Round(g, o, s).idx <= |Round(g, o, s).flow.path|
    ensures TalliedIn(g, p, w, limit, Round(g, o, s), start)
  {
    hide Round, Processed, Invoked, Keep, WellFormed, CountIn, Members, SingleThread, Tallied, ItemWithin,
      ThreadRound, HidesFailure;
    var r, kept := Round(g, o, s), Kept(g, s);
    RoundShape(g, o, s);
    var batch := kept[s.idx..];
    assert Since(r, start) == Since(s, start) + batch;
    ThreadOutside(g, p);
    DirectMembers(g, w);
    KeptAreAdmitted(g, s.flow.path[..s.idx], s.flow.path[s.idx..]);
    assert batch == Keep(g, s.flow.path[..s.idx], s.flow.path[s.idx..]);
    RoundOfThread(g, o, p, w, s, limit);
    TalliedStep(g, p, w, limit, s.flow.comps[w].counter, Since(s, start), s.flow.path[s.idx..],
                batch, Invoked(g, o, s).comps[w], r.flow.path[r.idx..], r.flow.comps[w].counter);
  }

  /** At every round head before the `n`-th at most one component in or before `p` is pending. */
  ghost predicate LoneUpTo(g: Graph, o: Oracle, p: Id, s: RunState, n: nat)
    requires s.status.Running? && Ready(g, s)
  {
    forall k: nat | k < n && Rounds(g, o, s, k).status.Running? :: Lone(g, p, Rounds(g, o, s, k))
  }

  lemma {:induction false} ThreadThroughout(g: Graph, o: Oracle, p: Id, w: Id, s: RunState, n: nat, limit: nat)
    requires s.status.Running? && Ready(g, s) && Rounds(g, o, s, n).status.Running?
    requires SingleThread(g, p) && ItemOf(g, p, w) && !HidesFailure(g.specs[w])
    requires AllWithin(g, o, limit) && LoneUpTo(g, o, p, s, n) && TalliedIn(g, p, w, limit, s, s.idx)
    ensures s.idx <= Rounds(g, o, s, n).idx
    ensures TalliedIn(g, p, w, limit, Rounds(g, o, s, n), s.idx)
    decreases n
  {
    hide Round, WellFormed, SingleThread, TalliedIn, AllWithin, ItemWithin, Members, HidesFailure, Lone;
    if n > 0 {
      var t := Rounds(g, o, s, n - 1);
      if !t.status.Running? {
        RoundOver(g, o, t);
      }
      ThreadThroughout(g, o, p, w, s, n - 1, limit);
      AllIsItem(g, o, w, t.idx, |Kept(g, t)|, limit);
      RoundThread(g, o, p, w, t, s.idx, limit);
    }
  }

  lemma AllIsItem(g: Graph, o: Oracle, w: Id, lo: nat, hi: nat, limit: nat)
    requires WellFormed(g) && AllWithin(g, o, limit) && w in g.specs
    ensures ItemWithin(g, o, w, lo, hi, limit)
  {
    hide Within, WellFormed;
  }

  /** Every container is a single thread, and no item has a handler that hides its failures. This
      is a condition on the configuration alone. */
  ghost predicate Threaded(g: Graph)
    requires WellFormed(g)
  {
    && (forall w | ItemAt(g, w) :: !HidesFailure(g.specs[w]))
    && (forall p | p in g.specs && IsContainer(g.specs[p].kind) :: SingleThread(g, p))
  }

  /** Control is in no container yet. The counters of items may be left over from an earlier run. */
  ghost predicate Outside(g: Graph, s: RunState, limit: nat)
    requires Ready(g, s)
  {
    && (forall w | ItemAt(g, w) :: -1 <= s.flow.comps[w].counter <= limit)
    && (forall i | s.idx <= i < |s.flow.path| :: g.specs[s.flow.path[i]].parent.None?)
  }

  lemma OutsideMembers(g: Graph, s: RunState, limit: nat, p: Id)
    requires Ready(g, s) && Outside(g, s, limit)
    ensures CountIn(s.flow.path[s.idx..], Members(g, p)) == 0
  {
    hide Members, WellFormed, CountIn;
    var pending := s.flow.path[s.idx..];
    forall x | x in pending ensures x !in Members(g, p) {
      var k :| 0 <= k < |pending| && pending[k] == x;
      assert s.flow.path[s.idx + k] == x;
      if x in Members(g, p) {
        MembersHaveParents(g, x, p);
      }
    }
    CountInZero(pending, Members(g, p));
  }

  /** The item of a single thread is executed at most `limit + 2` times for each entry. */
  lemma ThreadedItemRuns(g: Graph, o: Oracle, s: RunState, n: nat, p: Id, w: Id, limit: nat)
    requires s.status.Running? && Ready(g, s) && Outside(g, s, limit) && Threaded(g) && AllWithin(g, o, limit)
    requires ItemOf(g, p, w) && Rounds(g, o, s, n).status.Running? && LoneUpTo(g, o, p, s, n)
    ensures s.idx <= Rounds(g, o, s, n).idx
    ensures multiset(Since(Rounds(g, o, s, n), s.idx))[w] <=
            Allowed(limit, multiset(Since(Rounds(g, o, s, n), s.idx))[p])
  {
    hide Round, WellFormed, SingleThread, AllWithin, Rounds, CountIn, HidesFailure, Members, LoneUpTo, Allowed;
    assert WellFormedSpec(g, w) by { SpecFits(g, w); }
    assert Since(s, s.idx) == [];
    OutsideMembers(g, s, limit, p);
    AllowedNone(limit);
    assert TalliedIn(g, p, w, limit, s, s.idx);
    ThreadThroughout(g, o, p, w, s, n, limit);
    var entered: int := multiset(Since(Rounds(g, o, s, n), s.idx))[p];
    AllowedMore(limit, entered - 1);
  }

  lemma AllowedNone(limit: nat)
    ensures Allowed(limit, 0) == 0
  {
  }

  /** Before the `n`-th round head no container has more than one pending component in or before
      it, and by then none was entered more than `entries` times. */
  ghost predicate Orderly(g: Graph, o: Oracle, s: RunState, n: nat, entries: nat)
    requires s.status.Running? && Ready(g, s)
  {
    var r := Rounds(g, o, s, n);
    forall p | p in g.specs && IsContainer(g.specs[p].kind) ::
      && LoneUpTo(g, o, p, s, n)
      && (s.idx <= r.idx <= |r.flow.path| ==> multiset(Since(r, s.idx))[p] <= entries)
  }

  /** Termination of workflows with iterations and loops: if control cycles only through items,
      every container is a single thread that is entered at most `entries` times, no item's handler
      hides its failures, and lists and loop counts are at most `limit`, then the run ends. */
  lemma ThreadedRunsEnd(g: Graph, o: Oracle, rank: map<Id, nat>, top: nat, limit: nat, entries: nat, s: RunState,
                        n: nat)
    requires s.status.Running? && Ready(g, s) && Ranked(g, rank, top) && Threaded(g)
    requires Outside(g, s, limit) && AllWithin(g, o, limit) && Orderly(g, o, s, n, entries)
    requires n > (|Items(g)| * ((limit + 2) * entries)) * (top + 2) + top + 1
    ensures !Rounds(g, o, s, n).status.Running?
  {
    hide Round, Rounds, WellFormed, ItemCount, Ranked, AllWithin, Outside, Threaded, Orderly;
    if Rounds(g, o, s, n).status.Running? {
      RoundsAreBoundedByItems(g, o, rank, top, s, n);
      var ran, most := Since(Rounds(g, o, s, n), s.idx), (limit + 2) * entries;
      forall w | w in Items(g) ensures multiset(ran)[w] <= most {
        OrderlyItemRuns(g, o, limit, entries, s, n, w);
      }
      CountInBound(ran, Items(g), most);
      ItemCountIsCountIn(g, ran);
      Scale(ItemCount(g, ran), |Items(g)| * most, top + 2);
    }
  }

  lemma OrderlyItemRuns(g: Graph, o: Oracle, limit: nat, entries: nat, s: RunState, n: nat, w: Id)
    requires s.status.Running? && Ready(g, s) && Threaded(g) && Outside(g, s, limit) && AllWithin(g, o, limit)
    requires Orderly(g, o, s, n, entries) && Rounds(g, o, s, n).status.Running? && ItemAt(g, w)
    ensures s.idx <= Rounds(g, o, s, n).idx
    ensures multiset(Since(Rounds(g, o, s, n), s.idx))[w] <= (limit + 2) * entries
  {
    hide Round, Rounds, WellFormed, AllWithin, Outside, Threaded, LoneUpTo;
    var p := ContainerOf(g, w);
    ThreadedItemRuns(g, o, s, n, p, w, limit);
    Scale(multiset(Since(Rounds(g, o, s, n), s.idx))[p], entries, limit + 2);
  }

  lemma ContainerOf(g: Graph, w: Id) returns (p: Id)
    requires WellFormed(g) && ItemAt(g, w)
    ensures ItemOf(g, p, w) && p in g.specs && IsContainer(g.specs[p].kind)
  {
    assert WellFormedSpec(g, w) by { SpecFits(g, w); }
    p := g.specs[w].parent.value;
    hide WellFormed;
  }
}
