/** Why termination needs items that do not hide their failures: an iteration item whose list cannot
    be read, but whose handler answers the failure with a default, is tried again without end. */
module Retrying {
  import opened Components
  import opened Scheduler
  import opened SchedulerLemmas
  import opened Unrolling
  import opened Threads

  /** An iteration with a straight-line body whose item hides its failures. */
  ghost predicate Hiding(g: Graph, p: Id, item: Id, body: seq<Id>) {
    Straight(g, p, item, body) && g.specs[p].kind.Iteration? && HidesFailure(g.specs[item])
  }

  /** From position `lo` on nothing else goes wrong, and the list can never be read. */
  ghost predicate Unreadable(o: Oracle, lo: nat) {
    forall i: nat | lo <= i :: Quiet(o(i), {}) && o(i).read.Missing?
  }

  /** Control is at the item, which has not ended, with everything in place for another turn. */
  ghost predicate Trying(g: Graph, s: RunState, item: Id, body: seq<Id>, lo: nat) {
    && Solo(g, s, item) && lo <= s.idx
    && Supplied(g, s.flow.path[..s.idx], item) && BodySupplied(g, s.flow.path, body)
    && NoErrors(s.flow.comps, body) && item in s.flow.comps && Unended(g, s.flow.comps[item], item)
  }

  ghost predicate Unended(g: Graph, c: Comp, item: Id) {
    item in g.specs && c.counter >= 0 && ReactionTo(g.specs[item], c.error) in {NoError, Default}
  }

  /** The failed invocation changes at most the item's own error and outputs, and is not noticed. */
  lemma MissingIsHidden(g: Graph, comps: Comps, p: Id, item: Id, body: seq<Id>, read: ListRead)
    requires Hiding(g, p, item, body) && comps.Keys == g.specs.Keys && read.Missing? && Unended(g, comps[item], item)
    ensures var after := InvokeIterationItem(g, comps, item, read);
      && after.Keys == comps.Keys && Unended(g, after[item], item)
      && forall w | w in comps && w != item :: after[w] == comps[w]
  {
    hide WellFormed;
  }

  /** The item's round: control moves on to the body as if the item had an element. */
  lemma TryRound(g: Graph, o: Oracle, s: RunState, p: Id, item: Id, body: seq<Id>, lo: nat)
    requires Hiding(g, p, item, body) && Unreadable(o, lo) && Trying(g, s, item, body, lo)
    ensures var t := Round(g, o, s);
      && Solo(g, t, body[0]) && t.flow.path == s.flow.path + [body[0]] && t.idx == s.idx + 1
      && NoErrors(t.flow.comps, body) && item in t.flow.comps && Unended(g, t.flow.comps[item], item)
  {
    hide Round, WellFormed, Processed, Invoked, InvokeIterationItem, Post, Supplied, BodySupplied, Kept;
    assert Quiet(o(s.idx), {}) && o(s.idx).read.Missing?;
    BodyOnward(g, p, item, body, 0);
    ItemNotInBody(g, p, item, body);
    SoloProcessed(g, o, s, item);
    MissingIsHidden(g, s.flow.comps, p, item, body, o(s.idx).read);
    ItemPost(g, Invoked(g, o, s), p, item, body, o(s.idx));
    SoloMove(g, o, s, item, body[0]);
  }

  lemma ItemNotInBody(g: Graph, p: Id, item: Id, body: seq<Id>)
    requires Straight(g, p, item, body)
    ensures item !in body && body[0] in g.specs && g.specs[body[0]].kind != UserFillUp
  {
    assert BodyAt(g, p, body, 0);
    forall j | 0 <= j < |body| ensures body[j] != item {
      assert BodyAt(g, p, body, j);
    }
  }

  /** Item and body, and control is at the item again. */
  lemma TryAgain(g: Graph, o: Oracle, s: RunState, p: Id, item: Id, body: seq<Id>, lo: nat)
    requires Hiding(g, p, item, body) && Unreadable(o, lo) && Trying(g, s, item, body, lo)
    ensures Trying(g, Rounds(g, o, s, |body| + 1), item, body, lo)
  {
    hide Round, WellFormed, Supplied, Steady, Straight, Unended, Kept;
    ItemNotInBody(g, p, item, body);
    TryRound(g, o, s, p, item, body, lo);
    var t := Round(g, o, s);
    assert t.flow.path[..t.idx] == s.flow.path;
    BodyRun(g, o, t, p, {}, item, body, |body|);
    var r := Rounds(g, o, t, |body|);
    assert body[..|body|] == body;
    SteadyErrors(t.flow.comps, r.flow.comps, {}, body);
    UnendedSteady(g, t.flow.comps, r.flow.comps, item);
    SuppliedMore(g, s.flow.path[..s.idx], r.flow.path[..r.idx], item);
    BodySuppliedMore(g, s.flow.path, r.flow.path, body);
    assert Rounds(g, o, s, 0) == s;
    OneMoreRound(g, o, s, 0);
    RoundsAdd(g, o, s, 1, |body|);
  }

  lemma UnendedSteady(g: Graph, a: Comps, b: Comps, item: Id)
    requires Steady(a, b, {}) && item in a && Unended(g, a[item], item)
    ensures item in b && Unended(g, b[item], item)
  {
  }

  lemma {:induction false} TriesOn(g: Graph, o: Oracle, s: RunState, p: Id, item: Id, body: seq<Id>, lo: nat, n: nat)
    requires Hiding(g, p, item, body) && Unreadable(o, lo) && Trying(g, s, item, body, lo)
    ensures Trying(g, Rounds(g, o, s, n * (|body| + 1)), item, body, lo)
    decreases n
  {
    hide Round, WellFormed, Trying, Hiding, Unreadable;
    var turn := |body| + 1;
    TrySolo(g, s, item, body, lo);
    if n == 0 {
      assert Rounds(g, o, s, 0) == s;
    } else {
      TriesOn(g, o, s, p, item, body, lo, n - 1);
      TrySolo(g, Rounds(g, o, s, (n - 1) * turn), item, body, lo);
      TryAgain(g, o, Rounds(g, o, s, (n - 1) * turn), p, item, body, lo);
      RoundsAdd(g, o, s, (n - 1) * turn, turn);
      assert n * turn == (n - 1) * turn + turn;
    }
  }

  lemma TrySolo(g: Graph, s: RunState, item: Id, body: seq<Id>, lo: nat)
    requires Trying(g, s, item, body, lo)
    ensures s.status.Running? && Ready(g, s)
  {
  }

  /** The run never ends. */
  lemma HiddenFailureNeverEnds(g: Graph, o: Oracle, s: RunState, p: Id, item: Id, body: seq<Id>, lo: nat, n: nat)
    requires Hiding(g, p, item, body) && Unreadable(o, lo) && Trying(g, s, item, body, lo)
    ensures Rounds(g, o, s, n).status.Running?
  {
    hide Round, WellFormed, Trying, Hiding, Unreadable;
    TriesOn(g, o, s, p, item, body, lo, n);
    TrySolo(g, s, item, body, lo);
    TrySolo(g, Rounds(g, o, s, n * (|body| + 1)), item, body, lo);
    assert n * (|body| + 1) >= n;
    RunningBefore(g, o, s, n, n * (|body| + 1));
  }
}
