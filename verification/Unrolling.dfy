/** Iterations and loops unroll exactly: the engine, which knows nothing of nesting, turns a
    container with a straight-line body into the body repeated as often as its counter allows. */
module Unrolling {
  import opened Wrappers
  import opened LoopConditions
  import opened Components
  import opened Scheduler
  import opened SchedulerLemmas

  /** Round heads at which exactly `u` is pending. */
  ghost predicate Solo(g: Graph, s: RunState, u: Id) {
    s.status.Running? && Ready(g, s) && |s.flow.path| == s.idx + 1 && s.flow.path[s.idx] == u
  }

  /** A component finds its producers among `before`. */
  ghost predicate Supplied(g: Graph, before: seq<Id>, v: Id) {
    v in g.specs && forall n | n in g.specs[v].needs :: n == "" || n in before
  }

  /** A reply without an error, without a raising stream, and without writes to components `keep`. */
  ghost predicate Quiet(r: Reply, keep: set<Id>) {
    && !r.canceled && r.outcome.Fine?
    && !r.streaming.raises && r.streaming.errors == map[]
    && forall x | x in keep :: x !in r.writes
  }

  /** As before, but the component may also raise, if its handler replaces the error by a default. */
  ghost predicate Untroubled(g: Graph, u: Id, r: Reply, keep: set<Id>)
    requires u in g.specs
  {
    && Quiet(r.(outcome := Fine), keep)
    && (r.outcome.Fine? ||
        (r.outcome.Raised? && g.specs[u].excMethod == "comment" && g.specs[u].excDefault != "" &&
         u !in keep && !g.specs[u].kind.Message?))
  }

  /** A container with its item and a straight line of ordinary components. */
  ghost predicate Straight(g: Graph, p: Id, item: Id, body: seq<Id>) {
    && WellFormed(g)
    && p in g.specs && IsContainer(g.specs[p].kind) && Start(g, p) == Some(item)
    && item in g.specs && IsStartOf(g, p, item)
    && body != [] && g.specs[item].downstream == [body[0]]
    && (forall j | 0 <= j < |body| :: BodyAt(g, p, body, j))
  }

  ghost predicate BodyAt(g: Graph, p: Id, body: seq<Id>, j: nat)
    requires j < |body|
  {
    && body[j] in g.specs
    && g.specs[body[j]].kind in {Plain, Message}
    && g.specs[body[j]].parent == Some(p)
    && g.specs[body[j]].downstream == (if j + 1 < |body| then [body[j + 1]] else [])
    && (j + 1 < |body| ==> body[j + 1] != body[j])
  }

  /** Errors, counters and the outputs of components `keep` are as before. */
  ghost predicate Steady(before: Comps, after: Comps, keep: set<Id>) {
    && after.Keys == before.Keys
    && (forall x | x in before :: after[x].error == before[x].error && after[x].counter == before[x].counter)
    && (forall x | x in before && x in keep :: after[x].outs == before[x].outs)
  }

  // ----- single rounds -----

  lemma SoloKept(g: Graph, s: RunState, u: Id)
    requires Solo(g, s, u) && Supplied(g, s.flow.path[..s.idx], u)
    ensures Kept(g, s) == s.flow.path
  {
    hide NamesFillUp, WellFormed;
    var before, pending := s.flow.path[..s.idx], s.flow.path[s.idx..];
    assert pending == [u];
    assert Admitted(g, before, u);
    assert Keep(g, before + [u], pending[1..]) == [];
    assert before + [u] == s.flow.path;
  }

  /** In a solo round the batch is one invocation and one post-processing. */
  lemma SoloProcessed(g: Graph, o: Oracle, s: RunState, u: Id)
    requires Solo(g, s, u) && Supplied(g, s.flow.path[..s.idx], u)
    ensures Invoked(g, o, s).comps == Invoke(g, s.flow.comps, u, o(s.idx))
    ensures Invoked(g, o, s).path == s.flow.path && Invoked(g, o, s).error == "" && !Invoked(g, o, s).crashed
    ensures Processed(g, o, s) == Post(g, Invoked(g, o, s), u, o(s.idx))
  {
    hide Kept, Invoke, Post, StartedEvents, WellFormed;
    SoloKept(g, s, u);
    InvokeOne(g, o, s.flow.comps, s.flow.path, s.idx);
    PostOne(g, o, Invoked(g, o, s), s.idx);
  }

  lemma InvokeOne(g: Graph, o: Oracle, comps: Comps, path: seq<Id>, i: nat)
    requires WellFormed(g) && Known(g, path) && comps.Keys == g.specs.Keys && i < |path|
    ensures InvokeUpTo(g, o, comps, path, i, i + 1) == Invoke(g, comps, path[i], o(i))
  {
    hide Invoke, WellFormed;
    assert InvokeUpTo(g, o, comps, path, i, i) == comps;
  }

  lemma PostOne(g: Graph, o: Oracle, f: Flow, i: nat)
    requires Sound(g, f) && i < |f.path| && !f.crashed
    ensures PostUpTo(g, o, f, i, i + 1) == Post(g, f, f.path[i], o(i))
  {
    hide Post, WellFormed;
    assert PostUpTo(g, o, f, i, i) == f;
  }

  /** When post-processing appends exactly `w`, the next round head is solo at `w`. */
  lemma SoloMove(g: Graph, o: Oracle, s: RunState, u: Id, w: Id)
    requires Solo(g, s, u) && Supplied(g, s.flow.path[..s.idx], u) && !o(s.idx).canceled
    requires Processed(g, o, s).path == s.flow.path + [w]
    requires Processed(g, o, s).error == "" && !Processed(g, o, s).crashed
    requires w in g.specs && g.specs[w].kind != UserFillUp
    ensures Solo(g, Round(g, o, s), w)
    ensures Round(g, o, s).flow == Processed(g, o, s)
    ensures Round(g, o, s).idx == s.idx + 1
  {
    hide Keep, Processed, WellFormed, DroppedBy, StartedEvents;
    SoloKept(g, s, u);
    var f := Processed(g, o, s);
    assert f.path[s.idx + 1..] == [w];
    assert OfKind(g, [w], UserFillUp, true) == [] by {
      assert [w][..0] == [];
    }
  }

  // ----- one component of the body -----

  lemma AppendedOne(path: seq<Id>, u: Id, w: Id)
    requires path != [] && path[|path| - 1] == u && w != u
    ensures Extend(path, [w]) == path + [w]
  {
    ExtendOne(path, w);
  }

  lemma ForeignOutcome(g: Graph, comps: Comps, v: Id, r: Reply, keep: set<Id>, w: Id)
    requires v in g.specs && v in comps && w in comps && Untroubled(g, v, r, keep)
    ensures InvokeForeign(g, comps, v, r)[w].error == comps[w].error
    ensures InvokeForeign(g, comps, v, r)[w].counter == comps[w].counter
    ensures w in keep ==> InvokeForeign(g, comps, v, r)[w].outs == comps[w].outs
  {
  }

  lemma ForeignIsSteady(g: Graph, comps: Comps, v: Id, r: Reply, keep: set<Id>)
    requires WellFormed(g) && v in g.specs && comps.Keys == g.specs.Keys && Untroubled(g, v, r, keep)
    requires !IsItem(g.specs[v].kind)
    ensures Steady(comps, Invoke(g, comps, v, r), keep)
  {
    hide WellFormed, InvokeForeign;
    forall w | w in comps
      ensures InvokeForeign(g, comps, v, r)[w].error == comps[w].error
      ensures InvokeForeign(g, comps, v, r)[w].counter == comps[w].counter
      ensures w in keep ==> InvokeForeign(g, comps, v, r)[w].outs == comps[w].outs
    {
      ForeignOutcome(g, comps, v, r, keep, w);
    }
  }

  lemma ForeignSpeaks(g: Graph, comps: Comps, v: Id, r: Reply)
    requires WellFormed(g) && v in g.specs && comps.Keys == g.specs.Keys && r.outcome.Fine?
    requires g.specs[v].kind.Message?
    ensures !Invoke(g, comps, v, r)[v].blank
  {
    hide WellFormed;
  }

  lemma MessageIsSteady(g: Graph, f: Flow, v: Id, r: Reply, keep: set<Id>)
    requires Sound(g, f) && v in g.specs && Quiet(r.(outcome := Fine), keep) && !f.crashed
    requires g.specs[v].kind.Message? ==> !f.comps[v].blank
    ensures Steady(f.comps, MessageStep(g, f, v, r).comps, keep)
    ensures MessageStep(g, f, v, r).error == f.error && !MessageStep(g, f, v, r).crashed
  {
    hide WellFormed, Drainable, LateEvents;
  }

  lemma FinishIsSteady(g: Graph, f: Flow, v: Id, keep: set<Id>)
    requires Sound(g, f) && v in g.specs
    ensures Steady(f.comps, FinishStep(g, f, v).comps, keep)
    ensures FinishStep(g, f, v).error == f.error && FinishStep(g, f, v).crashed == f.crashed
  {
    hide WellFormed;
  }

  /** The component after position `j` of the body; the item after the last one. */
  function After(item: Id, body: seq<Id>, j: nat): Id {
    if j + 1 < |body| then body[j + 1] else item
  }

  /** Control moves on from `u` to exactly `w` when nothing goes wrong. */
  ghost predicate Onward(g: Graph, u: Id, w: Id) {
    && WellFormed(g) && u in g.specs && w in g.specs && w != u
    && !IsItem(g.specs[u].kind) && !IsRouter(g.specs[u].kind) && g.specs[w].kind != UserFillUp
    && Successors(g, u, false, []) == [w]
  }

  lemma BodyOnward(g: Graph, p: Id, item: Id, body: seq<Id>, j: nat)
    requires Straight(g, p, item, body) && j < |body|
    ensures Onward(g, body[j], After(item, body, j))
  {
    assert BodyAt(g, p, body, j);
    if j + 1 < |body| {
      assert BodyAt(g, p, body, j + 1);
    }
    hide WellFormed;
  }

  lemma BodyFront(g: Graph, p: Id, item: Id, body: seq<Id>)
    requires Straight(g, p, item, body)
    ensures p in g.specs && item in g.specs && item != p
    ensures body != [] && body[0] in g.specs && body[0] != item && g.specs[body[0]].kind != UserFillUp
  {
    hide WellFormed;
    assert BodyAt(g, p, body, 0);
  }

  lemma ContainerOnward(g: Graph, p: Id, item: Id, body: seq<Id>)
    requires Straight(g, p, item, body)
    ensures Onward(g, p, item)
  {
    hide WellFormed;
  }

  lemma OnwardMove(g: Graph, f: Flow, u: Id, w: Id)
    requires Sound(g, f) && Onward(g, u, w) && f.path != [] && f.path[|f.path| - 1] == u
    ensures MoveStep(g, f, u, false) == f.(path := f.path + [w])
  {
    hide Extend, WellFormed, RouteOf;
    assert Successors(g, u, false, RouteOf(g.specs[u], f.comps[u])) == [w];
    AppendedOne(f.path, u, w);
  }

  lemma SteadyTwice(a: Comps, b: Comps, c: Comps, keep: set<Id>)
    requires Steady(a, b, keep) && Steady(b, c, keep)
    ensures Steady(a, c, keep)
  {
  }

  lemma SteadyAt(a: Comps, b: Comps, keep: set<Id>, v: Id)
    requires v in a && Steady(a, b, keep)
    ensures b.Keys == a.Keys && b[v].error == a[v].error && b[v].counter == a[v].counter
    ensures v in keep ==> b[v].outs == a[v].outs
  {
  }

  lemma OnwardPost(g: Graph, f: Flow, r: Reply, keep: set<Id>, u: Id, w: Id)
    requires Sound(g, f) && Onward(g, u, w) && Untroubled(g, u, r, keep)
    requires f.path != [] && f.path[|f.path| - 1] == u && f.error == "" && !f.crashed
    requires f.comps[u].error == "" && (g.specs[u].kind.Message? ==> !f.comps[u].blank)
    ensures var after := Post(g, f, u, r);
      after.path == f.path + [w] && after.error == "" && !after.crashed && Steady(f.comps, after.comps, keep)
  {
    hide WellFormed, MessageStep, FinishStep, MoveStep, Steady, Successors;
    MessageIsSteady(g, f, u, r, keep);
    var m := MessageStep(g, f, u, r);
    SteadyAt(f.comps, m.comps, keep, u);
    assert ErrorStep(g, m, u) == m;
    FinishIsSteady(g, m, u, keep);
    var e := FinishStep(g, m, u);
    assert EndStep(g, e, u, r) == e;
    OnwardMove(g, e, u, w);
    SteadyTwice(f.comps, m.comps, e.comps, keep);
  }

  /** One round through a component that hands over to exactly one other. */
  lemma OnwardRound(g: Graph, o: Oracle, s: RunState, keep: set<Id>, u: Id, w: Id)
    requires Onward(g, u, w) && Solo(g, s, u)
    requires Supplied(g, s.flow.path[..s.idx], u) && Untroubled(g, u, o(s.idx), keep) && s.flow.comps[u].error == ""
    ensures OnwardDone(g, s, Round(g, o, s), keep, w)
  {
    hide Invoke, Post, Round, WellFormed, Processed, Invoked, Supplied, Steady, Successors;
    SoloProcessed(g, o, s, u);
    var i := Invoked(g, o, s);
    ForeignIsSteady(g, s.flow.comps, u, o(s.idx), keep);
    SteadyAt(s.flow.comps, i.comps, keep, u);
    if g.specs[u].kind.Message? {
      ForeignSpeaks(g, s.flow.comps, u, o(s.idx));
    }
    OnwardPost(g, i, o(s.idx), keep, u, w);
    SteadyTwice(s.flow.comps, i.comps, Processed(g, o, s).comps, keep);
    SoloMove(g, o, s, u, w);
  }

  /** The round from `s` to `r` appended exactly `w`, and disturbed nothing. */
  ghost predicate OnwardDone(g: Graph, s: RunState, r: RunState, keep: set<Id>, w: Id) {
    && Solo(g, r, w)
    && r.flow.path == s.flow.path + [w] && r.idx == s.idx + 1
    && Steady(s.flow.comps, r.flow.comps, keep)
  }

  // ----- the whole body -----

  lemma SuppliedMore(g: Graph, before: seq<Id>, more: seq<Id>, v: Id)
    requires Supplied(g, before, v) && forall e | e in before :: e in more
    ensures Supplied(g, more, v)
  {
  }

  /** Where control is after `j` components of the body. */
  function At(item: Id, body: seq<Id>, j: nat): Id {
    if j < |body| then body[j] else item
  }

  /** Each component of the body finds its producers before the pass or earlier in the body. */
  ghost predicate BodySupplied(g: Graph, before: seq<Id>, body: seq<Id>) {
    forall j | 0 <= j < |body| :: SuppliedAt(g, before, body, j)
  }

  ghost predicate SuppliedAt(g: Graph, before: seq<Id>, body: seq<Id>, j: nat)
    requires j < |body|
  {
    Supplied(g, before + body[..j], body[j])
  }

  lemma BodySuppliedMore(g: Graph, before: seq<Id>, more: seq<Id>, body: seq<Id>)
    requires BodySupplied(g, before, body) && forall e | e in before :: e in more
    ensures BodySupplied(g, more, body)
  {
    hide Supplied;
    forall j | 0 <= j < |body| ensures SuppliedAt(g, more, body, j) {
      assert SuppliedAt(g, before, body, j);
      SuppliedMore(g, before + body[..j], more + body[..j], body[j]);
    }
  }

  ghost predicate NoErrors(comps: Comps, ids: seq<Id>) {
    forall j | 0 <= j < |ids| :: ids[j] in comps && comps[ids[j]].error == ""
  }

  ghost predicate QuietBetween(o: Oracle, keep: set<Id>, lo: nat, hi: nat) {
    forall i: nat | lo <= i < hi :: Quiet(o(i), keep)
  }

  /** From `s` to `r` the run has executed `ran` and is now solo at `w`. */
  ghost predicate Advanced(g: Graph, s: RunState, r: RunState, ran: seq<Id>, w: Id)
    requires s.idx <= |s.flow.path|
  {
    && Solo(g, r, w)
    && r.flow.path == s.flow.path[..s.idx] + ran + [w] && r.idx == s.idx + |ran|
  }

  lemma AdvancedNone(g: Graph, s: RunState, u: Id)
    requires Solo(g, s, u)
    ensures Advanced(g, s, s, [], u)
  {
    hide WellFormed;
    assert s.flow.path == s.flow.path[..s.idx] + [] + [u];
  }

  lemma AdvancedStep(g: Graph, s: RunState, t: RunState, r: RunState, ran: seq<Id>, u: Id, w: Id)
    requires s.idx <= |s.flow.path| && Advanced(g, s, t, ran, u)
    requires Solo(g, r, w) && r.flow.path == t.flow.path + [w] && r.idx == t.idx + 1
    ensures Advanced(g, s, r, ran + [u], w)
  {
    hide WellFormed;
    assert s.flow.path[..s.idx] + ran + [u] == s.flow.path[..s.idx] + (ran + [u]);
  }

  lemma AdvancedPrefix(g: Graph, s: RunState, t: RunState, ran: seq<Id>, u: Id)
    requires s.idx <= |s.flow.path| && Advanced(g, s, t, ran, u)
    ensures t.status.Running? && Ready(g, t) && Solo(g, t, u) && t.idx == s.idx + |ran|
    ensures t.flow.path[..t.idx] == s.flow.path[..s.idx] + ran
  {
    hide WellFormed;
  }

  lemma BodyRunStep(g: Graph, o: Oracle, s: RunState, t: RunState, p: Id, keep: set<Id>, item: Id, body: seq<Id>,
                    j: nat)
    requires Straight(g, p, item, body) && j < |body| && Ready(g, s)
    requires BodySupplied(g, s.flow.path[..s.idx], body) && QuietBetween(o, keep, s.idx, s.idx + |body|)
    requires NoErrors(s.flow.comps, body)
    requires Advanced(g, s, t, body[..j], body[j]) && Steady(s.flow.comps, t.flow.comps, keep)
    ensures Advanced(g, s, Round(g, o, t), body[..j + 1], At(item, body, j + 1))
    ensures Steady(s.flow.comps, Round(g, o, t).flow.comps, keep)
  {
    hide Round, Steady, Kept, WellFormed;
    var v, r := body[j], Round(g, o, t);
    AdvancedPrefix(g, s, t, body[..j], v);
    assert SuppliedAt(g, s.flow.path[..s.idx], body, j);
    SteadyAt(s.flow.comps, t.flow.comps, keep, v);
    BodyOnward(g, p, item, body, j);
    OnwardRound(g, o, t, keep, v, After(item, body, j));
    SteadyTwice(s.flow.comps, t.flow.comps, r.flow.comps, keep);
    AdvancedStep(g, s, t, r, body[..j], v, At(item, body, j + 1));
    assert body[..j + 1] == body[..j] + [v];
  }

  lemma {:induction false} BodyRun(g: Graph, o: Oracle, s: RunState, p: Id, keep: set<Id>, item: Id, body: seq<Id>,
                                   j: nat)
    requires Straight(g, p, item, body) && j <= |body| && Solo(g, s, body[0])
    requires BodySupplied(g, s.flow.path[..s.idx], body) && QuietBetween(o, keep, s.idx, s.idx + |body|)
    requires NoErrors(s.flow.comps, body)
    ensures Advanced(g, s, Rounds(g, o, s, j), body[..j], At(item, body, j))
    ensures Steady(s.flow.comps, Rounds(g, o, s, j).flow.comps, keep)
    decreases j
  {
    hide Round, WellFormed, Steady, Advanced, BodySupplied, QuietBetween, NoErrors;
    if j == 0 {
      AdvancedNone(g, s, body[0]);
      SteadySame(s.flow.comps, keep);
      assert body[..0] == [];
    } else {
      BodyRun(g, o, s, p, keep, item, body, j - 1);
      BodyRunStep(g, o, s, Rounds(g, o, s, j - 1), p, keep, item, body, j - 1);
    }
  }

  lemma SteadySame(a: Comps, keep: set<Id>)
    ensures Steady(a, a, keep)
  {
  }

  // ----- the item -----

  /** Everything but the item's own counter and stream flag is as before. */
  ghost predicate Alike(before: Comps, after: Comps, item: Id)
    requires item in before
  {
    && after.Keys == before.Keys
    && (forall x | x in before && x != item :: after[x] == before[x])
    && after[item] == before[item].(pending := after[item].pending, counter := after[item].counter)
  }

  /** The verdict of `end()` on an item whose counter is `counter`. */
  function ItemVerdict(g: Graph, p: Id, counter: int, readings: seq<Reading>): Verdict
    requires p in g.specs
  {
    if counter == -1 then Stop
    else if g.specs[p].kind.Iteration? then Go
    else VerdictOf(g.specs[p].conditions, g.specs[p].logic, readings)
  }

  lemma ItemFinish(g: Graph, f: Flow, p: Id, item: Id, body: seq<Id>, r: Reply)
    requires Sound(g, f) && Straight(g, p, item, body) && !f.crashed && f.error == ""
    requires ReactionTo(g.specs[item], f.comps[item].error) in {NoError, Default}
    ensures var h := FinishStep(g, ErrorStep(g, MessageStep(g, f, item, r), item), item);
      h.path == f.path && h.error == "" && !h.crashed && Alike(f.comps, h.comps, item) &&
      h.comps[item].counter == f.comps[item].counter
    ensures ReactionTo(g.specs[item], MessageStep(g, f, item, r).comps[item].error) in {NoError, Default}
    ensures !MessageStep(g, f, item, r).crashed
  {
    hide WellFormed, Drain, Streamed;
  }

  lemma ItemEnd(g: Graph, h: Flow, p: Id, item: Id, body: seq<Id>, r: Reply)
    requires Sound(g, h) && Straight(g, p, item, body) && !h.crashed
    ensures var e, verdict := EndStep(g, h, item, r), ItemVerdict(g, p, h.comps[item].counter, r.readings);
      && (verdict.Go? ==> e == h)
      && (verdict.Stop? ==> e.path == h.path && e.error == h.error && !e.crashed &&
                            Alike(h.comps, e.comps, item) && e.comps[item].counter == -1)
      && (verdict.Abort? ==> e.crashed)
  {
    hide VerdictOf;
    assert WellFormedSpec(g, item) && WellFormedSpec(g, p);
  }

  lemma ItemMove(g: Graph, e: Flow, p: Id, item: Id, body: seq<Id>)
    requires Sound(g, e) && Straight(g, p, item, body) && !e.crashed
    requires e.path != [] && e.path[|e.path| - 1] == item
    ensures var targets := if e.comps[item].counter == -1 then g.specs[p].downstream else [body[0]];
      MoveStep(g, e, item, false) == e.(path := Extend(e.path, targets))
    ensures body[0] != item
  {
    assert BodyAt(g, p, body, 0);
    assert WellFormedSpec(g, item);
    hide Extend, WellFormed;
    var ended := e.comps[item].counter == -1;
    assert Successors(g, item, ended, RouteOf(g.specs[item], e.comps[item])) ==
           if ended then g.specs[p].downstream else [body[0]];
  }

  /** What post-processing the item does, by its verdict. */
  ghost predicate ItemDone(g: Graph, f: Flow, after: Flow, p: Id, item: Id, body: seq<Id>, verdict: Verdict)
    requires p in g.specs && item in f.comps && body != []
  {
    && (verdict.Abort? <==> after.crashed)
    && (!verdict.Abort? ==>
          && after.error == "" && Alike(f.comps, after.comps, item)
          && after.comps[item].counter == (if verdict.Stop? then -1 else f.comps[item].counter)
          && after.path == (if verdict.Stop? then Extend(f.path, g.specs[p].downstream) else f.path + [body[0]]))
  }

  lemma AlikeTwice(a: Comps, b: Comps, c: Comps, item: Id)
    requires item in a && Alike(a, b, item) && Alike(b, c, item)
    ensures Alike(a, c, item)
  {
  }

  lemma ItemPost(g: Graph, f: Flow, p: Id, item: Id, body: seq<Id>, r: Reply)
    requires Sound(g, f) && Straight(g, p, item, body) && !f.crashed && f.error == ""
    requires ReactionTo(g.specs[item], f.comps[item].error) in {NoError, Default}
    requires f.path != [] && f.path[|f.path| - 1] == item
    ensures ItemDone(g, f, Post(g, f, item, r), p, item, body, ItemVerdict(g, p, f.comps[item].counter, r.readings))
  {
    hide WellFormed, Straight, MessageStep, ErrorStep, FinishStep, EndStep, MoveStep, Alike, VerdictOf, Extend,
      ItemDone;
    BodyFront(g, p, item, body);
    ItemFinish(g, f, p, item, body, r);
    var h := FinishStep(g, ErrorStep(g, MessageStep(g, f, item, r), item), item);
    ItemLeaves(g, f, h, p, item, body, r);
  }

  /** The end test and the move, after the item was reported in `h`. */
  lemma ItemLeaves(g: Graph, f: Flow, h: Flow, p: Id, item: Id, body: seq<Id>, r: Reply)
    requires Sound(g, f) && Sound(g, h) && Straight(g, p, item, body) && h.path == f.path
    requires h.error == "" && !h.crashed && Alike(f.comps, h.comps, item)
    requires h.comps[item].counter == f.comps[item].counter && f.path != [] && f.path[|f.path| - 1] == item
    ensures var e := EndStep(g, h, item, r);
      ItemDone(g, f, if e.crashed then e else MoveStep(g, e, item, false), p, item, body,
               ItemVerdict(g, p, f.comps[item].counter, r.readings))
  {
    hide WellFormed, Straight, EndStep, MoveStep, Alike, VerdictOf, Extend;
    BodyFront(g, p, item, body);
    ItemEnd(g, h, p, item, body, r);
    var e := EndStep(g, h, item, r);
    if !e.crashed {
      ItemMove(g, e, p, item, body);
      if e.comps[item].counter != -1 {
        AppendedOne(f.path, item, body[0]);
      } else {
        CounterVerdict(g, p, h.comps[item].counter, r.readings);
      }
      AlikeTwice(f.comps, h.comps, e.comps, item);
    }
  }

  lemma CounterVerdict(g: Graph, p: Id, counter: int, readings: seq<Reading>)
    requires p in g.specs
    ensures counter == -1 ==> ItemVerdict(g, p, counter, readings).Stop?
  {
  }

  // ----- passes -----

  /** `n` passes. */
  function Unroll(item: Id, body: seq<Id>, n: nat): (r: seq<Id>)
    ensures |r| == n * (|body| + 1)
  {
    if n == 0 then [] else Unroll(item, body, n - 1) + [item] + body
  }

  lemma PassPath(prefix: seq<Id>, item: Id, body: seq<Id>, n: nat, path: seq<Id>)
    requires path == prefix + Unroll(item, body, n) + [item]
    ensures path + body + [item] == prefix + Unroll(item, body, n + 1) + [item]
  {
  }

  lemma OneMoreRound(g: Graph, o: Oracle, s: RunState, n: nat)
    requires s.status.Running? ==> Ready(g, s)
    ensures Rounds(g, o, s, n + 1) == Round(g, o, Rounds(g, o, s, n))
  {
    hide Round, WellFormed;
  }

  lemma RoundsOfPass(g: Graph, o: Oracle, s: RunState, n: nat, period: nat)
    requires s.status.Running? ==> Ready(g, s)
    requires period > 0
    ensures Rounds(g, o, s, (n + 1) * period) ==
            Rounds(g, o, Round(g, o, Rounds(g, o, s, n * period)), period - 1)
  {
    hide Round, WellFormed;
    OneMoreRound(g, o, s, n * period);
    RoundsAdd(g, o, s, n * period + 1, period - 1);
    assert (n + 1) * period == n * period + 1 + (period - 1);
  }

  lemma TailErrors(comps: Comps, item: Id, body: seq<Id>)
    requires NoErrors(comps, [item] + body)
    ensures NoErrors(comps, body)
  {
    forall j | 0 <= j < |body| ensures body[j] in comps && comps[body[j]].error == "" {
      assert ([item] + body)[j + 1] == body[j];
    }
  }

  lemma SteadyErrors(a: Comps, b: Comps, keep: set<Id>, ids: seq<Id>)
    requires Steady(a, b, keep) && NoErrors(a, ids)
    ensures NoErrors(b, ids)
  {
  }

  /** Errors and all other counters are as before. */
  ghost predicate Calm(before: Comps, after: Comps, item: Id) {
    && after.Keys == before.Keys
    && forall x | x in before ::
         after[x].error == before[x].error && (x != item ==> after[x].counter == before[x].counter)
  }

  lemma ErrorFree(before: Comps, after: Comps, item: Id, ids: seq<Id>)
    requires Calm(before, after, item) && NoErrors(before, ids)
    ensures NoErrors(after, ids)
  {
  }

  lemma AlikeCalm(a: Comps, b: Comps, c: Comps, item: Id)
    requires item in a && Calm(a, b, item) && Alike(b, c, item)
    ensures Calm(a, c, item)
  {
  }
}
