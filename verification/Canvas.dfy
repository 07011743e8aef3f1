/** The workflow engine in the form the program gives it: an object whose run edits its path,
    its queue of unfinished streams and the components' outputs in place. Each method is proved
    to compute the function of the same step in module `Scheduler`. */
module Canvases {
  import opened Wrappers
  import opened Values
  import opened LoopConditions
  import opened Components
  import opened Scheduler
  import opened SchedulerLemmas

  class Canvas {
    const g: Graph
    const oracle: Oracle
    var path: seq<Id>
    var error: string
    var comps: Comps
    var partials: seq<Id>   // components whose content is still a stream
    var events: seq<Event>  // what the generator has yielded
    var crashed: bool       // an exception has left the generator
    ghost var done: seq<Id>
    ghost var queued: seq<Id>

    ghost function Now(): Flow
      reads this
    {
      Flow(path, partials, error, events, comps, done, queued, crashed)
    }

    constructor (g: Graph, oracle: Oracle, path: seq<Id>, comps: Comps)
      requires WellFormed(g) && Known(g, path) && comps.Keys == g.specs.Keys
      ensures this.g == g && this.oracle == oracle
      ensures Now() == Flow(path, [], "", [], comps, [], [], false)
    {
      this.g, this.oracle, this.path, this.comps := g, oracle, path, comps;
      error, partials, events, crashed, done, queued := "", [], [], false, [], [];
    }

    /** `Iteration.get_start` and `Loop.get_start`. */
    method GetStart(container: Id) returns (r: Option<Id>)
      requires WellFormed(g) && container in g.specs
      ensures r == Start(g, container)
    {
      r := None;
      var i := 0;
      while i < |g.order|
        invariant 0 <= i <= |g.order|
        invariant Start(g, container) == StartIn(g, container, g.order[i..])
      {
        var v := g.order[i];
        if IsStartOf(g, container, v) {
          return Some(v);
        }
        i := i + 1;
      }
    }

    /** `output_collation` of an item of container `p`. */
    method OutputCollation(p: Id) returns (raised: bool)
      requires Sound(g, Now()) && p in g.specs
      modifies this`comps
      ensures Collation(comps, raised) == Collate(g, old(comps), p, g.order)
    {
      var i := 0;
      raised := false;
      assert g.order[..0] == [];
      while i < |g.order|
        invariant 0 <= i <= |g.order|
        invariant comps.Keys == g.specs.Keys
        invariant !raised && Collation(comps, false) == Collate(g, old(comps), p, g.order[..i])
      {
        var source := g.order[i];
        assert g.order[..i + 1][..i] == g.order[..i];
        if g.specs[source].parent == Some(p) {
          raised := CollateComponent(p, source);
          if raised {
            CollateRaised(g, old(comps), p, g.order, i + 1);
            return;
          }
        }
        i := i + 1;
      }
      assert g.order[..i] == g.order;
    }

    /** The inner loop: the outputs of `p` that refer to `source`. */
    method CollateComponent(p: Id, source: Id) returns (raised: bool)
      requires Sound(g, Now()) && p in g.specs && source in g.specs
      modifies this`comps
      ensures comps.Keys == g.specs.Keys
      ensures Collation(comps, raised) == CollateRefs(old(comps), p, source, g.specs[p].refs)
    {
      var refs := g.specs[p].refs;
      var k := 0;
      assert refs[..0] == [];
      while k < |refs|
        invariant 0 <= k <= |refs|
        invariant comps.Keys == g.specs.Keys
        invariant Collation(comps, false) == CollateRefs(old(comps), p, source, refs[..k])
      {
        assert refs[..k + 1][..k] == refs[..k];
        if refs[k].source == source {
          var v := Appended(Out(comps[p], refs[k].name), Out(comps[source], refs[k].variable));
          if v.None? {
            CollateRefsRaised(old(comps), p, source, refs, k + 1);
            return true;
          }
          comps := comps[p := comps[p].(outs := comps[p].outs[refs[k].name := v.value])];
        }
        k := k + 1;
      }
      assert refs[..k] == refs;
      raised := false;
    }

    method InvokeItem(v: Id, read: ListRead)
      requires Sound(g, Now()) && v in g.specs && g.specs[v].kind.IterationItem?
      modifies this`comps
      ensures comps == InvokeIterationItem(g, old(comps), v, read)
    {
      hide Collate, ElementAt, Excepted;
      assert WellFormedSpec(g, v);
      var c := g.specs[v];
      match read
      case Missing(msg) => comps := comps[v := Excepted(c, comps[v], msg)];
      case NotAnArray(msg) =>
        comps := comps[v := comps[v].(counter := -1)];
        comps := comps[v := Excepted(c, comps[v], msg)];
      case Array(vs) =>
        var raised := false;
        if comps[v].counter > 0 {
          raised := OutputCollation(c.parent.value);
        }
        if raised {
          comps := comps[v := Excepted(c, comps[v], "AttributeError")];
        } else {
          NextElement(v, vs);
        }
    }

    /** The part of an item's `_invoke` after the collation. */
    method NextElement(v: Id, vs: seq<Val>)
      requires v in g.specs && v in comps
      modifies this`comps
      ensures comps == Advance(g.specs[v], old(comps), v, vs)
    {
      var c := g.specs[v];
      if comps[v].counter >= |vs| {
        comps := comps[v := comps[v].(counter := -1)];
        return;
      }
      var x := ElementAt(vs, comps[v].counter);
      if x.None? {
        comps := comps[v := Excepted(c, comps[v], "IndexError")];
      } else {
        comps := comps[v := comps[v].(outs := comps[v].outs["item" := x.value])];
        comps := comps[v := comps[v].(outs := comps[v].outs["index" := Num(comps[v].counter as real)])];
        comps := comps[v := comps[v].(counter := comps[v].counter + 1)];
      }
    }

    method InvokeComponent(v: Id, r: Reply)
      requires Sound(g, Now()) && v in g.specs
      modifies this`comps
      ensures comps == Invoke(g, old(comps), v, r)
    {
      if g.specs[v].kind.IterationItem? {
        InvokeItem(v, r.read);
      } else if g.specs[v].kind.LoopItem? {
        comps := InvokeLoopItem(g, comps, v);
      } else {
        comps := InvokeForeign(g, comps, v, r);
      }
    }

    /** The scan of `_run_batch(f, t)`: delete in place what cannot run, and create one task for
        each component that stays. */
    method CreateTasks(f: nat, t: nat) returns (tasks: seq<Id>)
      requires Sound(g, Now()) && f <= t == |path|
      modifies this`path
      ensures tasks == Keep(g, old(path)[..f], old(path)[f..])
      ensures path == old(path)[..f] + tasks
    {
      ghost var before, all := path[..f], Scan(g, path, f);
      hide Admitted, Keep, WellFormed, Known, Scan;
      var i, end := f, t;
      tasks := [];
      while i < end
        invariant f <= i <= end == |path| && Known(g, path)
        invariant path[..i] == before + tasks
        invariant tasks + Scan(g, path, i) == all
        decreases end - i
      {
        ScanAt(g, path, i);
        var admitted := IsAdmitted(i);
        if admitted {
          tasks := tasks + [path[i]];
          i := i + 1;
        } else {
          path := path[..i] + path[i + 1..];
          end := end - 1;
        }
      }
      ScanEnd(g, path);
    }

    /** `_run_batch(f, t)`: create one task per survivor and wait for all. */
    method RunBatch(f: nat, t: nat) returns (tasks: seq<Id>)
      requires Sound(g, Now()) && f <= t == |path|
      modifies this`path, this`comps
      ensures tasks == Keep(g, old(path)[..f], old(path)[f..])
      ensures path == old(path)[..f] + tasks
      ensures comps == InvokeUpTo(g, oracle, old(comps), path, f, |path|)
    {
      hide Keep, InvokeUpTo;
      tasks := CreateTasks(f, t);
      Gather(f);
    }

    /** Every component of the batch is invoked. */
    method Gather(f: nat)
      requires Sound(g, Now()) && f <= |path|
      modifies this`comps
      ensures comps == InvokeUpTo(g, oracle, old(comps), path, f, |path|)
    {
      hide Invoke;
      var i := f;
      while i < |path|
        invariant f <= i <= |path| && comps.Keys == g.specs.Keys
        invariant comps == InvokeUpTo(g, oracle, old(comps), path, f, i)
      {
        InvokeComponent(path[i], oracle(i));
        i := i + 1;
      }
    }

    /** May the component at position `i` of the path run? */
    method IsAdmitted(i: nat) returns (ok: bool)
      requires Known(g, path) && i < |path|
      ensures ok == Admitted(g, path[..i], path[i])
    {
      var c := g.specs[path[i]];
      assert (path[..i] + [path[i]])[0] == path[0];
      if c.kind.Begin? || c.kind.UserFillUp? {
        return true;
      }
      var k := 0;
      while k < |c.needs|
        invariant 0 <= k <= |c.needs|
        invariant forall j | 0 <= j < k ::
          c.needs[j] == "" || c.needs[j] in path[..i] || NamesFillUp(path[0])
      {
        if c.needs[k] != "" && c.needs[k] !in path[..i] && !NamesFillUp(path[0]) {
          return false;
        }
        k := k + 1;
      }
      return true;
    }

    /** Report what is finished at the front of the queue. */
    method DrainPartials()
      requires Sound(g, Now())
      modifies this`partials, this`events
      ensures Now() == Drain(old(Now()))
    {
      ghost var n := 0;
      while partials != [] && !comps[partials[0]].pending
        invariant n <= |old(partials)| && partials == old(partials)[n..]
        invariant Drainable(old(partials), comps) == n + Drainable(partials, comps)
        invariant events == old(events) + LateEvents(old(partials)[..n])
        decreases |partials|
      {
        events := events + [NodeFinished(partials[0], true)];
        partials := partials[1..];
        n := n + 1;
      }
    }

    method AppendPath(v: Id)
      requires path != []
      modifies this`path
      ensures path == Append(old(path), v)
    {
      if path[|path| - 1] == v {
        return;
      }
      path := path + [v];
    }

    method ExtendPath(vs: seq<Id>)
      requires path != []
      modifies this`path
      ensures path == Extend(old(path), vs)
    {
      var i := 0;
      while i < |vs|
        invariant 0 <= i <= |vs| && path != []
        invariant path == Extend(old(path), vs[..i])
      {
        assert vs[..i + 1][..i] == vs[..i];
        AppendPath(vs[i]);
        i := i + 1;
      }
      assert vs[..i] == vs;
    }

    method ProcessMessage(v: Id, r: Reply)
      requires Sound(g, Now()) && v in g.specs
      modifies this
      ensures Now() == MessageStep(g, old(Now()), v, r)
    {
      if g.specs[v].kind.Message? {
        if comps[v].pending {
          if r.streaming.raises {
            crashed := true;
            return;
          }
          comps := Streamed(comps, r.streaming);
          comps := comps[v := comps[v].(pending := false)];
        } else if comps[v].blank {
          crashed := true;
          return;
        }
        DrainPartials();
      }
    }

    /** React to an error; the result says whether control has jumped to a goto target. */
    method HandleError(v: Id) returns (otherBranch: bool)
      requires Sound(g, Now()) && v in g.specs
      modifies this`path, this`error
      ensures Now() == ErrorStep(g, old(Now()), v)
      ensures otherBranch == ReactionTo(g.specs[v], comps[v].error).Jump?
    {
      var c := g.specs[v];
      otherBranch := false;
      if comps[v].error != "" {
        if c.excMethod != "" && c.excGoto != [] {
          path := path + c.excGoto;
          otherBranch := true;
        } else if !(c.excMethod != "" && c.excDefault != "") {
          error := comps[v].error;
        }
      }
    }

    method ReportFinished(v: Id)
      requires Sound(g, Now()) && v in g.specs
      modifies this
      ensures Now() == FinishStep(g, old(Now()), v)
    {
      done := done + [v];
      if !IsContainer(g.specs[v].kind) {
        if comps[v].pending {
          if error != "" {
            comps := comps[v := comps[v].(pending := false, blank := true)];
            events := events + [NodeFinished(v, false)];
          } else {
            partials := partials + [v];
            queued := queued + [v];
          }
        } else {
          assert comps[v := comps[v].(pending := false, blank := comps[v].blank)] == comps;
          events := events + [NodeFinished(v, false)];
        }
      }
    }

    /** `end()` of an item, and the report of its container. */
    method CheckEnd(v: Id, r: Reply) returns (ended: bool)
      requires Sound(g, Now()) && v in g.specs
      modifies this
      ensures Now() == EndStep(g, old(Now()), v, r)
      ensures !crashed ==> ended == Ended(g, comps, v)
    {
      ended := false;
      if IsItem(g.specs[v].kind) {
        assert WellFormedSpec(g, v);
        var p := g.specs[g.specs[v].parent.value];
        if comps[v].counter == -1 {
          ended := true;
        } else if g.specs[v].kind.LoopItem? {
          var verdict := Decide(p.conditions, p.logic, r.readings);
          if verdict.Abort? {
            crashed := true;
            return;
          }
          ended := verdict.Stop?;
        }
        if ended {
          comps := comps[v := comps[v].(counter := -1)];
          events := events + [NodeFinished(g.specs[v].parent.value, false)];
        }
      }
    }

    method Move(v: Id, ended: bool, otherBranch: bool)
      requires Sound(g, Now()) && v in g.specs && path != []
      requires ended == Ended(g, comps, v)
      modifies this`path, this`crashed
      ensures Now() == MoveStep(g, old(Now()), v, otherBranch)
    {
      assert WellFormedSpec(g, v);
      var c := g.specs[v];
      if otherBranch {
        return;
      }
      if IsItem(c.kind) && ended {
        ExtendPath(g.specs[c.parent.value].downstream);
      } else if IsRouter(c.kind) {
        if comps[v].next.Cleared? {
          crashed := true;
          return;
        }
        ExtendPath(RouteOf(c, comps[v]));
      } else if IsContainer(c.kind) {
        var start := GetStart(v);
        ExtendOne(path, start.value);
        AppendPath(start.value);
      } else if c.kind.ExitLoop? && g.specs[c.parent.value].kind.Loop? {
        ExtendPath(g.specs[c.parent.value].downstream);
      } else if c.downstream == [] && c.parent.Some? {
        assert WellFormedSpec(g, c.parent.value);
        var start := GetStart(c.parent.value);
        ExtendOne(path, start.value);
        AppendPath(start.value);
      } else {
        ExtendPath(c.downstream);
      }
    }

    /** The body of the post-processing loop for the component at position `i`. */
    method PostProcess(i: nat)
      requires Sound(g, Now()) && i < |path| && !crashed
      modifies this
      ensures Now() == Post(g, old(Now()), old(path)[i], oracle(i))
    {
      var v := path[i];
      ProcessMessage(v, oracle(i));
      if crashed {
        return;
      }
      var otherBranch := HandleError(v);
      ReportFinished(v);
      var ended := CheckEnd(v, oracle(i));
      if crashed {
        return;
      }
      Move(v, ended, otherBranch);
    }

    /** `[c for c in ids if (component_name == kind) is wanted]` */
    method Select(ids: seq<Id>, kind: Kind, wanted: bool) returns (r: seq<Id>)
      requires Known(g, ids)
      ensures r == OfKind(g, ids, kind, wanted)
    {
      r := [];
      var i := 0;
      while i < |ids|
        invariant 0 <= i <= |ids|
        invariant r == OfKind(g, ids[..i], kind, wanted)
      {
        assert ids[..i + 1][..i] == ids[..i];
        if (g.specs[ids[i]].kind == kind) == wanted {
          r := r + [ids[i]];
        }
        i := i + 1;
      }
      assert ids[..i] == ids;
    }

    method AnnounceStart(from: nat)
      requires from <= |path|
      modifies this`events
      ensures events == old(events) + StartedEvents(path[from..])
    {
      var i := from;
      while i < |path|
        invariant from <= i <= |path|
        invariant events == old(events) + StartedEvents(path[from..i])
      {
        assert path[from..i + 1] == path[from..i] + [path[i]];
        assert StartedEvents(path[from..i + 1]) == StartedEvents(path[from..i]) + [NodeStarted(path[i])];
        events := events + [NodeStarted(path[i])];
        i := i + 1;
      }
      assert path[from..i] == path[from..];
    }

    /** The post-processing loop over the batch. */
    method PostProcessAll(from: nat, end: nat)
      requires Sound(g, Now()) && from <= end == |path| && !crashed
      modifies this
      ensures Now() == PostUpTo(g, oracle, old(Now()), from, end)
    {
      hide Post;
      var i := from;
      while i < end
        invariant from <= i <= end <= |path| && Sound(g, Now()) && !crashed
        invariant Now() == PostUpTo(g, oracle, old(Now()), from, i)
      {
        PostProcess(i);
        i := i + 1;
        if crashed {
          CrashStays(g, oracle, old(Now()), from, i, end);
          return;
        }
      }
    }

    /** One pass of the outer loop, starting at `idx`. */
    method RunRound(idx: nat, ghost dropped: multiset<Id>)
      returns (status: Status, to: nat, ghost dropped': multiset<Id>)
      requires Ready(g, RunState(Now(), idx, Running, dropped))
      modifies this
      ensures RunState(Now(), to, status, dropped') == Round(g, oracle, RunState(old(Now()), idx, Running, dropped))
    {
      hide PostUpTo, InvokeUpTo, Keep, StartedEvents, Scheduler.Conclude, WellFormed;
      ghost var s := RunState(Now(), idx, Running, dropped);
      AnnounceStart(idx);
      if oracle(idx).canceled {
        return Canceled, idx, dropped;
      }
      var tasks := RunBatch(idx, |path|);
      to := |path|;
      dropped' := dropped + (multiset(s.flow.path[idx..]) - multiset(path[idx..]));
      assert Now() == Invoked(g, oracle, s);
      PostProcessAll(idx, to);
      if crashed {
        return Crashed, idx, dropped';
      }
      assert Now() == Processed(g, oracle, s);
      status, to := EndRound(idx, to, dropped');
    }

    /** What follows the post-processing: roll back, pause, go on, or finish. */
    method EndRound(idx: nat, end: nat, ghost dropped: multiset<Id>) returns (status: Status, to: nat)
      requires Sound(g, Now()) && !crashed && idx <= end <= |path|
      modifies this`path, this`events
      ensures RunState(Now(), to, status, dropped) == Scheduler.Conclude(g, old(Now()), idx, end, dropped)
    {
      hide OfKind, WellFormed, Occurs;
      to := end;
      if error != "" {
        path := path[..idx];
        if Occurs("Task has been canceled", error) {
          events := events + [WorkflowFinished];
        }
        return Failed, idx;
      }
      var fillups := Select(path[end..], UserFillUp, true);
      if fillups != [] {
        var others := Select(path[end..], UserFillUp, false);
        path := fillups + others;
        events := events + [UserInputs];
        return Paused, end;
      }
      if end < |path| {
        return Running, end;
      }
      assert path[..end] == path;
      path := path[..end];
      if path == [] {
        return Crashed, end;
      }
      events := events + [WorkflowFinished];
      status := Finished;
    }

    /** What `run` does before its outer loop. */
    method Prepare(canceled: bool) returns (idx: nat)
      requires Sound(g, Now())
      modifies this
      ensures RunState(Now(), idx, if canceled then Canceled else Running, multiset{}) ==
              Enter(g, old(path), old(comps), canceled)
    {
      hide Reset, NamesFillUp;
      comps := Reset(comps);
      partials, error, events, crashed, done, queued := [], "", [], false, [], [];
      if path == [] || !NamesFillUp(path[|path| - 1]) {
        path := path + ["begin"];
      }
      idx := |path| - 1;
      if !canceled {
        events := [WorkflowStarted];
      }
    }

    /** `run`, watched for at most `limit` passes of its outer loop. */
    method Run(canceled: bool, limit: nat) returns (status: Status, idx: nat, ghost dropped: multiset<Id>)
      requires Sound(g, Now())
      modifies this
      ensures RunState(Now(), idx, status, dropped) ==
              Rounds(g, oracle, Enter(g, old(path), old(comps), canceled), limit)
    {
      hide Round, Enter;
      ghost var s := Enter(g, path, comps, canceled);
      idx := Prepare(canceled);
      status, dropped := if canceled then Canceled else Running, multiset{};
      var n := 0;
      while n < limit && status == Running
        invariant n <= limit
        invariant RunState(Now(), idx, status, dropped) == Rounds(g, oracle, s, n)
      {
        status, idx, dropped := RunRound(idx, dropped);
        n := n + 1;
      }
      if n < limit {
        RoundsAdd(g, oracle, s, n, limit - n);
        OverStays(g, oracle, Rounds(g, oracle, s, n), limit - n);
      }
    }
  }
}
