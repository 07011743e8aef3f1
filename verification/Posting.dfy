/** What post-processing a component means, said with the configuration alone: where control goes,
    what is reported, what becomes of an error, and what is left in the outputs. */
module Posting {
  import opened Wrappers
  import opened Components
  import opened LoopConditions
  import opened Scheduler
  import opened SchedulerLemmas

  // ----- where control goes -----

  /** The components that control is due to go to after `v`, whose state is `c`: all of the chosen
      route, of the container's successors, of its own, or the item of a container. */
  ghost predicate Due(g: Graph, v: Id, c: Comp, ts: seq<Id>)
    requires WellFormed(g) && v in g.specs
  {
    assert WellFormedSpec(g, v);
    var spec := g.specs[v];
    if IsItem(spec.kind) && c.counter == -1 then ts == g.specs[spec.parent.value].downstream
    else if IsRouter(spec.kind) then
      ts == if c.next.Chosen? && c.next.r < |spec.routes| then spec.routes[c.next.r] else []
    else if IsContainer(spec.kind) then |ts| == 1 && IsFirstItem(g, v, ts[0])
    else if spec.kind.ExitLoop? && g.specs[spec.parent.value].kind.Loop? then
      ts == g.specs[spec.parent.value].downstream
    else if spec.downstream == [] && spec.parent.Some? then |ts| == 1 && IsFirstItem(g, spec.parent.value, ts[0])
    else ts == spec.downstream
  }

  /** The item of a container: the first component of its kind inside it, in dictionary order. */
  ghost predicate IsFirstItem(g: Graph, p: Id, w: Id)
    requires p in g.specs
  {
    exists k :: 0 <= k < |g.order| && g.order[k] == w && IsStartOf(g, p, w) && NoneBefore(g, p, k)
  }

  ghost predicate NoneBefore(g: Graph, p: Id, k: nat)
    requires p in g.specs && k <= |g.order|
  {
    forall j | 0 <= j < k :: !IsStartOf(g, p, g.order[j])
  }

  /** All of `ts` are laid on the path, in order, except that an id is not repeated right after
      itself: target `k` is at position `at[k]`. */
  ghost predicate LaidAt(path: seq<Id>, ts: seq<Id>, after: seq<Id>, at: seq<nat>) {
    && path != [] && path <= after && |at| == |ts|
    && (forall k | 0 <= k < |ts| :: LaidNext(path, ts, after, at, k))
    && |after| == 1 + if at == [] then |path| - 1 else at[|at| - 1]
  }

  ghost predicate LaidNext(path: seq<Id>, ts: seq<Id>, after: seq<Id>, at: seq<nat>, k: nat)
    requires path != [] && k < |ts| == |at|
  {
    var last := if k == 0 then |path| - 1 else at[k - 1];
    && last < |after| && at[k] < |after| && after[at[k]] == ts[k]
    && at[k] == if after[last] == ts[k] then last else last + 1
  }

  lemma {:induction false} ExtendLays(path: seq<Id>, ts: seq<Id>) returns (at: seq<nat>)
    requires path != []
    ensures LaidAt(path, ts, Extend(path, ts), at)
    decreases |ts|
  {
    if ts == [] {
      at := [];
    } else {
      var init, z := ts[..|ts| - 1], ts[|ts| - 1];
      var before := ExtendLays(path, init);
      var mid, after := Extend(path, init), Extend(path, ts);
      at := before + [|after| - 1];
      assert mid[|mid| - 1] == z || after == mid + [z];
      forall k | 0 <= k < |ts| ensures LaidNext(path, ts, after, at, k) {
        if k < |init| {
          assert LaidNext(path, init, mid, before, k);
        }
      }
    }
  }

  /** `v` jumps when it has an error and an exception handler with goto targets. */
  predicate Jumps(c: Spec, error: string) {
    error != "" && c.excMethod != "" && c.excGoto != []
  }

  lemma StartIsFirstItem(g: Graph, p: Id)
    requires p in g.specs && Start(g, p).Some?
    ensures IsFirstItem(g, p, Start(g, p).value)
  {
    var k := StartIsFirst(g, p, g.order);
    assert g.order[k] == Start(g, p).value && IsStartOf(g, p, g.order[k]);
    assert NoneBefore(g, p, k);
  }

  lemma SuccessorsAreDue(g: Graph, v: Id, c: Comp, ended: bool)
    requires WellFormed(g) && v in g.specs && (IsItem(g.specs[v].kind) ==> ended == (c.counter == -1))
    ensures Due(g, v, c, Successors(g, v, ended, RouteOf(g.specs[v], c)))
  {
    assert WellFormedSpec(g, v);
    var spec := g.specs[v];
    if IsContainer(spec.kind) {
      StartIsFirstItem(g, v);
    } else if spec.parent.Some? {
      assert WellFormedSpec(g, spec.parent.value);
      StartIsFirstItem(g, spec.parent.value);
    }
    hide WellFormed, WellFormedSpec;
  }

  /** Each target is due, and there is only one list of them. */
  lemma DueIsDetermined(g: Graph, v: Id, c: Comp, a: seq<Id>, b: seq<Id>)
    requires WellFormed(g) && v in g.specs && Due(g, v, c, a) && Due(g, v, c, b)
    ensures a == b
  {
    hide WellFormed;
  }

  /** Where control goes: to the goto targets, every one of them, or to all that are due. */
  ghost predicate MovesOn(g: Graph, f: Flow, v: Id, after: Flow)
    requires WellFormed(g) && v in g.specs && v in after.comps
  {
    if Jumps(g.specs[v], after.comps[v].error) then after.path == f.path + g.specs[v].excGoto
    else exists ts, at :: Due(g, v, after.comps[v], ts) && LaidAt(f.path, ts, after.path, at)
  }

  lemma PostMoves(g: Graph, f: Flow, v: Id, r: Reply)
    requires Sound(g, f) && v in g.specs && f.path != [] && !Post(g, f, v, r).crashed
    ensures MovesOn(g, f, v, Post(g, f, v, r))
  {
    hide WellFormed, MessageStep, Extend, Successors, RouteOf, Due, LaidAt, VerdictOf;
    var m := MessageStep(g, f, v, r);
    var h := ErrorStep(g, m, v);
    var e := EndStep(g, FinishStep(g, h, v), v, r);
    StepsKeepError(g, h, v, r);
    if !Jumps(g.specs[v], m.comps[v].error) {
      assert e.path == f.path;
      var ended := Ended(g, e.comps, v);
      SuccessorsAreDue(g, v, e.comps[v], ended);
      var ts := Successors(g, v, ended, RouteOf(g.specs[v], e.comps[v]));
      var at := ExtendLays(f.path, ts);
    }
  }

  /** Reporting and the end test keep all errors, the chosen route and the outputs. */
  lemma StepsKeepError(g: Graph, h: Flow, v: Id, r: Reply)
    requires Sound(g, h) && v in g.specs
    ensures EndStep(g, FinishStep(g, h, v), v, r).comps[v].error == h.comps[v].error
    ensures EndStep(g, FinishStep(g, h, v), v, r).error == h.error
  {
    assert WellFormedSpec(g, v);
    hide WellFormed, VerdictOf;
  }

  // ----- what becomes of an error -----

  /** An error without goto targets and without a default is the error of the run. */
  predicate EndsRun(c: Spec, error: string) {
    error != "" && (c.excMethod == "" || (c.excGoto == [] && c.excDefault == ""))
  }

  lemma PostTakesError(g: Graph, f: Flow, v: Id, r: Reply)
    requires Sound(g, f) && v in g.specs && !Post(g, f, v, r).crashed
    ensures var after := Post(g, f, v, r);
      after.error == if EndsRun(g.specs[v], after.comps[v].error) then after.comps[v].error else f.error
  {
    hide WellFormed, Extend, Successors, RouteOf, VerdictOf, Drainable, LateEvents, FinishStep, EndStep;
    StepsKeepError(g, ErrorStep(g, MessageStep(g, f, v, r), v), v, r);
  }

  // ----- what is reported -----

  /** A message leaves at the front of the queue only what is still a stream. `out` is what it takes
      off the queue, which it reports as late; other components take nothing. */
  ghost predicate Drains(g: Graph, f: Flow, v: Id, m: Flow, out: seq<Id>)
    requires v in g.specs
  {
    && f.partials == out + m.partials && m.events == f.events + LateEvents(out)
    && m.queued == f.queued && m.done == f.done && m.error == f.error
    && (!g.specs[v].kind.Message? ==> m == f && out == [])
    && (g.specs[v].kind.Message? ==>
          && (forall i | 0 <= i < |out| :: out[i] in m.comps && !m.comps[out[i]].pending)
          && (m.partials != [] ==> m.partials[0] in m.comps ==> m.comps[m.partials[0]].pending)
          && v in m.comps && !m.comps[v].pending)
  }

  lemma MessageDrains(g: Graph, f: Flow, v: Id, r: Reply) returns (out: seq<Id>)
    requires Sound(g, f) && v in g.specs && !MessageStep(g, f, v, r).crashed
    ensures Drains(g, f, v, MessageStep(g, f, v, r), out)
  {
    hide WellFormed, Streamed, LateEvents, Drainable;
    var m := MessageStep(g, f, v, r);
    out := f.partials[..|f.partials| - |m.partials|];
    if !g.specs[v].kind.Message? {
      assert LateEvents(out) == [];
      assert f.events + [] == f.events;
    } else {
      assert f.partials == out + m.partials;
    }
  }

  /** `v` is held back when its content is a stream and nothing has gone wrong. */
  predicate HeldBack(g: Graph, f: Flow, v: Id, after: Flow)
    requires v in g.specs && v in f.comps
  {
    !IsContainer(g.specs[v].kind) && !g.specs[v].kind.Message? && f.comps[v].pending && after.error == ""
  }

  function OwnReport(g: Graph, f: Flow, v: Id, after: Flow): seq<Event>
    requires v in g.specs && v in f.comps
  {
    if IsContainer(g.specs[v].kind) || HeldBack(g, f, v, after) then [] else [NodeFinished(v, false)]
  }

  /** The container is reported by its item, once that has ended. */
  function ContainerReport(g: Graph, v: Id, after: Flow): seq<Event>
    requires v in g.specs && v in after.comps
  {
    if IsItem(g.specs[v].kind) && g.specs[v].parent.Some? && after.comps[v].counter == -1
    then [NodeFinished(g.specs[v].parent.value, false)] else []
  }

  /** Everything that post-processing `v` reports and queues. */
  ghost predicate Reported(g: Graph, f: Flow, v: Id, after: Flow, out: seq<Id>)
    requires v in g.specs && v in f.comps && v in after.comps
  {
    var rest := f.partials[if |out| <= |f.partials| then |out| else 0..];
    var own := if HeldBack(g, f, v, after) then [v] else [];
    && f.partials == out + rest && after.partials == rest + own && after.queued == f.queued + own
    && after.done == f.done + [v]
    && after.events == f.events + LateEvents(out) + OwnReport(g, f, v, after) + ContainerReport(g, v, after)
    && (!g.specs[v].kind.Message? ==> out == [])
    && (g.specs[v].kind.Message? ==>
          && (forall i | 0 <= i < |out| :: out[i] in after.comps && !after.comps[out[i]].pending)
          && (after.partials == [] || after.partials[0] !in after.comps || after.comps[after.partials[0]].pending))
  }

  lemma PostReports(g: Graph, f: Flow, v: Id, r: Reply) returns (out: seq<Id>)
    requires Sound(g, f) && v in g.specs && !Post(g, f, v, r).crashed
    ensures Reported(g, f, v, Post(g, f, v, r), out)
  {
    hide WellFormed, MessageStep, Extend, Successors, RouteOf, VerdictOf, FinishStep, EndStep, Drains, Finishes, Ends,
      Reported, LateEvents;
    out := MessageDrains(g, f, v, r);
    var m := MessageStep(g, f, v, r);
    var h := ErrorStep(g, m, v);
    FinishSays(g, h, v);
    var n := FinishStep(g, h, v);
    EndSays(g, n, v, r);
    var e := EndStep(g, n, v, r);
    ReportsAdd(g, f, v, m, h, n, e, out);
    ReportsMove(g, f, v, e, Post(g, f, v, r), out);
  }

  /** The reports of the steps, put together. */
  lemma ReportsAdd(g: Graph, f: Flow, v: Id, m: Flow, h: Flow, n: Flow, e: Flow, out: seq<Id>)
    requires v in g.specs && v in f.comps && v in m.comps && v in n.comps && v in e.comps && h.comps == m.comps
    requires Drains(g, f, v, m, out) && Finishes(g, h, v, n) && Ends(g, n, v, e)
    requires h.partials == m.partials && h.queued == m.queued && h.events == m.events && h.done == m.done
    ensures Reported(g, f, v, e, out)
  {
    hide LateEvents;
    assert f.partials[|out|..] == m.partials;
    assert HeldBack(g, f, v, e) == Holds(g, h, v);
  }

  lemma ReportsMove(g: Graph, f: Flow, v: Id, e: Flow, after: Flow, out: seq<Id>)
    requires v in g.specs && v in f.comps && v in e.comps && Reported(g, f, v, e, out)
    requires after.comps == e.comps && after.error == e.error && after.partials == e.partials && after.done == e.done
    requires after.queued == e.queued && after.events == e.events
    ensures Reported(g, f, v, after, out)
  {
  }

  predicate Holds(g: Graph, h: Flow, v: Id)
    requires v in g.specs && v in h.comps
  {
    !IsContainer(g.specs[v].kind) && h.comps[v].pending && h.error == ""
  }

  ghost predicate Finishes(g: Graph, h: Flow, v: Id, n: Flow)
    requires v in g.specs && v in h.comps
  {
    var own := if Holds(g, h, v) then [v] else [];
    && n.error == h.error && n.done == h.done + [v] && n.comps.Keys == h.comps.Keys
    && n.partials == h.partials + own && n.queued == h.queued + own
    && n.events == h.events + (if Holds(g, h, v) || IsContainer(g.specs[v].kind) then [] else [NodeFinished(v, false)])
    && (forall w | w in h.comps && w != v :: n.comps[w] == h.comps[w])
    && n.comps[v] == if Holds(g, h, v) || IsContainer(g.specs[v].kind) then h.comps[v]
                     else h.comps[v].(pending := false, blank := h.comps[v].blank || h.comps[v].pending)
  }

  lemma FinishSays(g: Graph, h: Flow, v: Id)
    requires Sound(g, h) && v in g.specs
    ensures Finishes(g, h, v, FinishStep(g, h, v))
  {
    hide WellFormed;
  }

  ghost predicate Ends(g: Graph, n: Flow, v: Id, e: Flow)
    requires v in g.specs && v in n.comps
  {
    && e.error == n.error && e.done == n.done && e.partials == n.partials && e.queued == n.queued
    && e.comps.Keys == n.comps.Keys && e.events == n.events + ContainerReport(g, v, e)
    && (forall w | w in n.comps && w != v :: e.comps[w] == n.comps[w])
    && e.comps[v] == n.comps[v].(counter := e.comps[v].counter)
    && (e.comps[v].counter == n.comps[v].counter || (IsItem(g.specs[v].kind) && e.comps[v].counter == -1))
  }

  lemma EndSays(g: Graph, n: Flow, v: Id, r: Reply)
    requires Sound(g, n) && v in g.specs && !EndStep(g, n, v, r).crashed
    ensures Ends(g, n, v, EndStep(g, n, v, r))
  {
    assert WellFormedSpec(g, v);
    hide WellFormed, VerdictOf;
  }

  // ----- what is left in the outputs -----

  /** What a message does to component `w` when it reads its own stream. */
  function AfterStream(s: Streaming, c: Comp, w: Id, own: bool): Comp {
    c.(pending := c.pending && w !in s.settled && !own, error := if w in s.errors then s.errors[w] else c.error)
  }

  /** Reading a stream, reporting and the end test are all that touch a component. */
  ghost predicate Touches(g: Graph, f: Flow, v: Id, r: Reply, after: Flow, w: Id)
    requires v in g.specs && v in f.comps && w in f.comps && w in after.comps
  {
    var c := after.comps[w];
    var read := if g.specs[v].kind.Message? && f.comps[v].pending then AfterStream(r.streaming, f.comps[w], w, w == v)
                else f.comps[w];
    var kept := IsContainer(g.specs[v].kind) || HeldBack(g, f, v, after);
    && (w != v ==> c == read)
    && (w == v ==> c == read.(counter := c.counter, pending := kept && read.pending,
                              blank := read.blank || (!kept && read.pending)))
    && (c.counter == read.counter || (w == v && IsItem(g.specs[v].kind) && c.counter == -1))
  }

  lemma PostTouches(g: Graph, f: Flow, v: Id, r: Reply, w: Id)
    requires Sound(g, f) && v in g.specs && w in g.specs && !Post(g, f, v, r).crashed
    ensures Touches(g, f, v, r, Post(g, f, v, r), w)
  {
    hide WellFormed, MessageStep, Extend, Successors, RouteOf, VerdictOf, FinishStep, EndStep, Finishes, Ends, Touches,
      Reads;
    StreamSays(g, f, v, r, w);
    StreamSays(g, f, v, r, v);
    var m := MessageStep(g, f, v, r);
    var h := ErrorStep(g, m, v);
    FinishSays(g, h, v);
    var n := FinishStep(g, h, v);
    EndSays(g, n, v, r);
    TouchesAdd(g, f, v, r, m, h, n, EndStep(g, n, v, r), Post(g, f, v, r), w);
  }

  lemma TouchesAdd(g: Graph, f: Flow, v: Id, r: Reply, m: Flow, h: Flow, n: Flow, e: Flow, after: Flow, w: Id)
    requires v in g.specs && v in f.comps && w in f.comps && h.comps == m.comps && m.comps.Keys == f.comps.Keys
    requires Reads(g, f, v, r, m, w) && Reads(g, f, v, r, m, v) && Finishes(g, h, v, n) && Ends(g, n, v, e)
    requires after.comps == e.comps && after.error == e.error
    ensures w in after.comps && Touches(g, f, v, r, after, w)
  {
    assert HeldBack(g, f, v, after) == Holds(g, h, v);
  }

  /** A message reads its own stream, if it has one. */
  ghost predicate Reads(g: Graph, f: Flow, v: Id, r: Reply, m: Flow, w: Id)
    requires v in g.specs && v in f.comps && w in f.comps
  {
    && v in m.comps && w in m.comps
    && m.comps[w] == (if g.specs[v].kind.Message? && f.comps[v].pending
                      then AfterStream(r.streaming, f.comps[w], w, w == v) else f.comps[w])
    && (g.specs[v].kind.Message? ==> !m.comps[v].pending)
  }

  lemma StreamSays(g: Graph, f: Flow, v: Id, r: Reply, w: Id)
    requires Sound(g, f) && v in g.specs && w in g.specs && !MessageStep(g, f, v, r).crashed
    ensures Reads(g, f, v, r, MessageStep(g, f, v, r), w)
  {
    hide WellFormed, LateEvents, Drainable;
  }
}
