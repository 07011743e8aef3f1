/** What becomes of control and of the queue over whole runs: nothing that is due is forgotten, and
    no finished stream stays unreported once a message has looked at the queue. */
module Handovers {
  import opened Components
  import opened Scheduler
  import opened SchedulerLemmas
  import opened Runs
  import opened Accounting
  import opened Posting

  // ----- every target is scheduled -----

  /** The flow right before and right after position `i` is post-processed in the round from `t`. */
  ghost function Before(g: Graph, o: Oracle, t: RunState, i: nat): Flow
    requires Ready(g, t) && t.idx <= i <= |Kept(g, t)|
  {
    PostUpTo(g, o, Invoked(g, o, t), t.idx, i)
  }

  /** Control is due to go from position `i` to `z`: a goto target when the component there jumps, or
      else one of the components due after it. */
  ghost predicate Handed(g: Graph, o: Oracle, t: RunState, i: nat, z: Id)
    requires Ready(g, t) && t.idx <= i < |Kept(g, t)|
  {
    var v := Kept(g, t)[i];
    var after := Before(g, o, t, i + 1);
    if Jumps(g.specs[v], after.comps[v].error) then z in g.specs[v].excGoto
    else exists ts :: Due(g, v, after.comps[v], ts) && z in ts
  }

  lemma {:induction false} PathGrows(g: Graph, o: Oracle, f: Flow, from: nat, mid: nat, hi: nat)
    requires Sound(g, f) && from <= mid <= hi <= |f.path| && !PostUpTo(g, o, f, from, hi).crashed
    ensures !PostUpTo(g, o, f, from, mid).crashed
    ensures PostUpTo(g, o, f, from, mid).path <= PostUpTo(g, o, f, from, hi).path
    decreases hi
  {
    hide Post, WellFormed;
    if mid < hi {
      PathGrows(g, o, f, from, mid, hi - 1);
    }
  }

  lemma StepAt(g: Graph, o: Oracle, t: RunState, i: nat)
    requires t.status.Running? && Ready(g, t) && t.idx <= i < |Kept(g, t)| && !Before(g, o, t, i + 1).crashed
    ensures !Before(g, o, t, i).crashed && Kept(g, t) <= Before(g, o, t, i).path
    ensures Before(g, o, t, i + 1) == Post(g, Before(g, o, t, i), Kept(g, t)[i], o(i))
  {
    hide Post, WellFormed, Keep, InvokeUpTo;
    assert PostUpTo(g, o, Invoked(g, o, t), t.idx, t.idx) == Invoked(g, o, t);
  }

  /** The last position of the batch of the round from `t`. */
  function LastOf(g: Graph, t: RunState): nat
    requires Ready(g, t)
  {
    if |Kept(g, t)| == 0 then 0 else |Kept(g, t)| - 1
  }

  /** Whatever a position hands over to is on the path after its batch when the round is done; only the
      last component of the batch, at the end of the path, is not repeated after itself. */
  lemma HandedIsScheduled(g: Graph, o: Oracle, t: RunState, i: nat, z: Id)
    requires t.status.Running? && Ready(g, t) && Unbroken(Round(g, o, t)) && t.idx <= i < |Kept(g, t)|
    requires Handed(g, o, t, i, z)
    ensures i <= LastOf(g, t) < |Round(g, o, t).flow.path| && z in Round(g, o, t).flow.path[LastOf(g, t)..]
  {
    hide Round, Post, WellFormed, Kept, Invoked, PostUpTo, Due, LaidAt;
    OutcomeOf(g, o, t);
    var kept := Kept(g, t);
    var path := Round(g, o, t).flow.path;
    PathGrows(g, o, Invoked(g, o, t), t.idx, i + 1, |kept|);
    StepAt(g, o, t, i);
    var before, v := Before(g, o, t, i), kept[i];
    PostMoves(g, before, v, o(i));
    var after := Before(g, o, t, i + 1);
    var j := PlaceOf(g, before, v, after, z);
    assert path[j] == after.path[j] == z;
    assert path[LastOf(g, t)..][j - LastOf(g, t)] == z;
  }

  /** The place of a target on the path. */
  lemma PlaceOf(g: Graph, f: Flow, v: Id, after: Flow, z: Id) returns (j: nat)
    requires WellFormed(g) && v in g.specs && v in after.comps && f.path != [] && MovesOn(g, f, v, after)
    requires if Jumps(g.specs[v], after.comps[v].error) then z in g.specs[v].excGoto
             else exists ts :: Due(g, v, after.comps[v], ts) && z in ts
    ensures |f.path| - 1 <= j < |after.path| && after.path[j] == z
  {
    hide WellFormed, Due;
    if Jumps(g.specs[v], after.comps[v].error) {
      var k :| 0 <= k < |g.specs[v].excGoto| && g.specs[v].excGoto[k] == z;
      j := |f.path| + k;
    } else {
      var ts, at :| Due(g, v, after.comps[v], ts) && LaidAt(f.path, ts, after.path, at);
      var us :| Due(g, v, after.comps[v], us) && z in us;
      DueIsDetermined(g, v, after.comps[v], ts, us);
      var k :| 0 <= k < |ts| && ts[k] == z;
      LaidAfter(f.path, ts, after.path, at, k);
      j := at[k];
    }
  }

  lemma {:induction false} LaidAfter(path: seq<Id>, ts: seq<Id>, after: seq<Id>, at: seq<nat>, k: nat)
    requires LaidAt(path, ts, after, at) && k < |ts|
    ensures |path| - 1 <= at[k] < |after| && after[at[k]] == ts[k]
    decreases k
  {
    assert LaidNext(path, ts, after, at, k);
    if k > 0 {
      LaidAfter(path, ts, after, at, k - 1);
    }
  }

  /** What a round that goes on or finishes leaves. */
  lemma OutcomeOf(g: Graph, o: Oracle, t: RunState)
    requires t.status.Running? && Ready(g, t) && Unbroken(Round(g, o, t))
    ensures var r := Round(g, o, t);
      && !Processed(g, o, t).crashed && r.flow.path == Processed(g, o, t).path && r.idx == |Kept(g, t)| <= |r.flow.path|
      && r.dropped == DroppedBy(g, t) && Kept(g, t) <= r.flow.path && t.flow.path[..t.idx] <= Kept(g, t)
      && r.flow.partials == Processed(g, o, t).partials && r.flow.queued == Processed(g, o, t).queued
      && Processed(g, o, t).events <= r.flow.events
      && Processed(g, o, t) == PostUpTo(g, o, Invoked(g, o, t), t.idx, |Kept(g, t)|)
  {
    hide Kept, WellFormed, OfKind, StartedEvents, DroppedBy, PostUpTo;
  }

  /** What is at a position from `i` on stays there or further down, if it survives the filter. */
  lemma FilterKeeps(path: seq<Id>, idx: nat, kept: seq<Id>, after: seq<Id>, i: nat, z: Id)
    requires i <= idx <= |path| && path[..idx] <= kept && kept <= after && z in path[i..]
    ensures z in after[i..] || (z in path[idx..] && z !in kept[idx..])
  {
    var d :| 0 <= d < |path[i..]| && path[i..][d] == z;
    if i + d < idx {
      assert after[i + d] == kept[i + d] == path[..idx][i + d] == z;
      assert after[i..][d] == z;
    } else {
      assert path[idx..][i + d - idx] == z;
      if z in kept[idx..] {
        var e :| 0 <= e < |kept[idx..]| && kept[idx..][e] == z;
        assert after[i..][idx + e - i] == z;
      }
    }
  }

  /** A round keeps what is on the path from position `i` on, or deletes it with a note. */
  lemma StaysOrDropped(g: Graph, o: Oracle, s: RunState, i: nat, z: Id)
    requires s.status.Running? && Ready(g, s) && Unbroken(Round(g, o, s)) && i <= s.idx && z in s.flow.path[i..]
    ensures i <= |Round(g, o, s).flow.path|
    ensures z in Round(g, o, s).flow.path[i..] || Round(g, o, s).dropped[z] > s.dropped[z]
    ensures forall x :: Round(g, o, s).dropped[x] >= s.dropped[x]
  {
    hide Round, WellFormed, Kept, Processed, Invoked;
    OutcomeOf(g, o, s);
    var kept, path := Kept(g, s), Round(g, o, s).flow.path;
    FilterKeeps(s.flow.path, s.idx, kept, path, i, z);
    if z !in path[i..] {
      var pending, survivors := multiset(s.flow.path[s.idx..]), multiset(kept[s.idx..]);
      assert z in pending && z !in survivors;
    }
  }

  /** Nothing that is due is forgotten: at every later round head, and when the run has finished, it
      is on the path after the batch that handed over to it, or it was deleted since. */
  lemma {:induction false} HandedIsKept(g: Graph, o: Oracle, s: RunState, k: nat, n: nat, i: nat, z: Id)
    requires s.status.Running? && Ready(g, s) && k < n
    requires Unbroken(Rounds(g, o, s, n)) && Rounds(g, o, s, k).status.Running?
    requires Rounds(g, o, s, k).idx <= i < |Kept(g, Rounds(g, o, s, k))| && Handed(g, o, Rounds(g, o, s, k), i, z)
    ensures i <= LastOf(g, Rounds(g, o, s, k)) < Rounds(g, o, s, n).idx <= |Rounds(g, o, s, n).flow.path|
    ensures
      || z in Rounds(g, o, s, n).flow.path[LastOf(g, Rounds(g, o, s, k))..]
      || Rounds(g, o, s, n).dropped[z] > Rounds(g, o, s, k + 1).dropped[z]
    ensures forall x :: Rounds(g, o, s, n).dropped[x] >= Rounds(g, o, s, k + 1).dropped[x]
    decreases n
  {
    hide Round, WellFormed, Kept, Handed;
    var t := Rounds(g, o, s, n - 1);
    if n == k + 1 {
      OutcomeOf(g, o, t);
      HandedIsScheduled(g, o, t, i, z);
    } else if t.status.Running? {
      HandedIsKept(g, o, s, k, n - 1, i, z);
      OutcomeOf(g, o, t);
      var last := LastOf(g, Rounds(g, o, s, k));
      if z in t.flow.path[last..] {
        StaysOrDropped(g, o, t, last, z);
      } else {
        DropsGrow(g, o, t);
      }
    } else {
      RoundOver(g, o, t);
      HandedIsKept(g, o, s, k, n - 1, i, z);
    }
  }

  lemma DropsGrow(g: Graph, o: Oracle, t: RunState)
    requires t.status.Running? && Ready(g, t) && Unbroken(Round(g, o, t))
    ensures forall x :: Round(g, o, t).dropped[x] >= t.dropped[x]
  {
    hide Round, WellFormed, Kept;
    OutcomeOf(g, o, t);
  }

  /** A round leaves the executed positions alone and adds its batch to them. */
  lemma ExecutedStays(g: Graph, o: Oracle, t: RunState, i: nat)
    requires t.status.Running? && Ready(g, t) && Unbroken(Round(g, o, t)) && i < Round(g, o, t).idx
    ensures i < |Round(g, o, t).flow.path| && i < |Kept(g, t)| && Kept(g, t)[i] == Round(g, o, t).flow.path[i]
    ensures i < t.idx ==> Round(g, o, t).flow.path[i] == t.flow.path[i]
  {
    hide Round, WellFormed, Kept;
    OutcomeOf(g, o, t);
    if i < t.idx {
      assert Kept(g, t)[i] == t.flow.path[..t.idx][i];
    }
  }

  /** Every executed position was executed in some round. */
  lemma {:induction false} RoundOf(g: Graph, o: Oracle, s: RunState, n: nat, i: nat) returns (k: nat)
    requires s.status.Running? && Ready(g, s) && Unbroken(Rounds(g, o, s, n)) && s.idx <= i < Rounds(g, o, s, n).idx
    ensures k < n && Rounds(g, o, s, k).status.Running?
    ensures Rounds(g, o, s, k).idx <= i < |Kept(g, Rounds(g, o, s, k))|
    ensures i < |Rounds(g, o, s, n).flow.path| && Kept(g, Rounds(g, o, s, k))[i] == Rounds(g, o, s, n).flow.path[i]
    decreases n
  {
    hide Round, WellFormed, Kept;
    assert n > 0;
    var t := Rounds(g, o, s, n - 1);
    if !t.status.Running? {
      RoundOver(g, o, t);
      k := RoundOf(g, o, s, n - 1, i);
      return;
    }
    ExecutedStays(g, o, t, i);
    if i < t.idx {
      k := RoundOf(g, o, s, n - 1, i);
    } else {
      k := n - 1;
    }
  }

  /** Where the configuration alone sends control after `v`: the item of a container, the successors
      of the loop that `v` exits, back to the item at the end of a body, or its own successors. Items
      and routers decide at run time. */
  ghost predicate Leads(g: Graph, v: Id, z: Id)
    requires WellFormed(g) && v in g.specs
  {
    assert WellFormedSpec(g, v);
    var spec := g.specs[v];
    && !IsItem(spec.kind) && !IsRouter(spec.kind)
    && if IsContainer(spec.kind) then IsFirstItem(g, v, z)
       else if spec.kind.ExitLoop? && g.specs[spec.parent.value].kind.Loop? then
         z in g.specs[spec.parent.value].downstream
       else if spec.downstream == [] && spec.parent.Some? then IsFirstItem(g, spec.parent.value, z)
       else z in spec.downstream
  }

  lemma LeadsIsDue(g: Graph, v: Id, c: Comp, z: Id)
    requires WellFormed(g) && v in g.specs && Leads(g, v, z)
    ensures exists ts :: Due(g, v, c, ts) && z in ts
  {
    assert WellFormedSpec(g, v);
    hide WellFormed, IsFirstItem;
    var spec := g.specs[v];
    if IsContainer(spec.kind) {
      assert Due(g, v, c, [z]) && z in [z];
    } else if spec.kind.ExitLoop? && g.specs[spec.parent.value].kind.Loop? {
      assert Due(g, v, c, g.specs[spec.parent.value].downstream);
    } else if spec.downstream == [] && spec.parent.Some? {
      assert Due(g, v, c, [z]) && z in [z];
    } else {
      assert Due(g, v, c, spec.downstream);
    }
  }

  /** A component that cannot jump: all that the configuration sends control to after it comes after
      it on the path, or was deleted because its inputs were never produced. */
  lemma SuccessorsFollow(g: Graph, o: Oracle, s: RunState, n: nat, i: nat, z: Id)
    requires s.status.Running? && Ready(g, s) && Unbroken(Rounds(g, o, s, n)) && s.idx <= i < Rounds(g, o, s, n).idx
    requires i < |Rounds(g, o, s, n).flow.path| && Rounds(g, o, s, n).flow.path[i] in g.specs
    requires var v := Rounds(g, o, s, n).flow.path[i];
      (g.specs[v].excMethod == "" || g.specs[v].excGoto == []) && Leads(g, v, z)
    ensures z in Rounds(g, o, s, n).flow.path[i..] || z in Rounds(g, o, s, n).dropped
  {
    hide Round, WellFormed, Kept, Invoked, PostUpTo, Leads, Due;
    var k := RoundOf(g, o, s, n, i);
    var t := Rounds(g, o, s, k);
    var v := Kept(g, t)[i];
    LeadsIsDue(g, v, Before(g, o, t, i + 1).comps[v], z);
    assert Handed(g, o, t, i, z);
    HandedIsKept(g, o, s, k, n, i, z);
    if z in Rounds(g, o, s, n).flow.path[LastOf(g, t)..] {
      LaterPart(Rounds(g, o, s, n).flow.path, i, LastOf(g, t), z);
    }
  }

  lemma LaterPart(path: seq<Id>, i: nat, j: nat, z: Id)
    requires i <= j <= |path| && z in path[j..]
    ensures z in path[i..]
  {
    assert path[i..][j - i..] == path[j..];
  }

  // ----- the queue empties -----

  /** What the log of late reports, the queue and all that was ever queued have to do with each other. */
  ghost predicate InOrder(f: Flow) {
    f.queued == Late(f.events) + f.partials
  }

  lemma {:induction false} LateGrows(a: seq<Event>, b: seq<Event>)
    requires a <= b
    ensures Late(a) <= Late(b)
    decreases |b|
  {
    if |a| < |b| {
      LateGrows(a, b[..|b| - 1]);
    } else {
      assert a == b;
    }
  }

  /** If nothing has been queued since the queue was empty, it is empty. */
  lemma StaysEmpty(f: Flow, r: Flow)
    requires InOrder(f) && InOrder(r) && f.events <= r.events && f.partials == [] && r.queued == f.queued
    ensures r.partials == []
  {
    LateGrows(f.events, r.events);
    assert |r.queued| == |Late(r.events)| + |r.partials|;
    assert |f.queued| == |Late(f.events)|;
  }

  lemma {:induction false} EventsGrow(g: Graph, o: Oracle, f: Flow, from: nat, mid: nat, hi: nat)
    requires Sound(g, f) && from <= mid <= hi <= |f.path| && !PostUpTo(g, o, f, from, hi).crashed
    ensures !PostUpTo(g, o, f, from, mid).crashed
    ensures PostUpTo(g, o, f, from, mid).events <= PostUpTo(g, o, f, from, hi).events
    decreases hi
  {
    hide Post, WellFormed;
    if mid < hi {
      var before := PostUpTo(g, o, f, from, hi - 1);
      EventsGrow(g, o, f, from, mid, hi - 1);
      EventsGrowAt(g, before, before.path[hi - 1], o(hi - 1));
    }
  }

  lemma EventsGrowAt(g: Graph, f: Flow, v: Id, r: Reply)
    requires Sound(g, f) && v in g.specs && !Post(g, f, v, r).crashed
    ensures f.events <= Post(g, f, v, r).events
  {
    hide Post, WellFormed, LateEvents;
    var out := PostReports(g, f, v, r);
  }

  lemma RoundEventsGrow(g: Graph, o: Oracle, t: RunState)
    requires t.status.Running? && Ready(g, t) && Unbroken(Round(g, o, t))
    ensures t.flow.events <= Round(g, o, t).flow.events
  {
    hide Round, WellFormed, Kept, InvokeUpTo, PostUpTo, StartedEvents;
    OutcomeOf(g, o, t);
    EventsGrow(g, o, Invoked(g, o, t), t.idx, t.idx, |Kept(g, t)|);
    EmptyBatch(g, o, Invoked(g, o, t), t.idx);
  }

  lemma {:induction false} LaterEvents(g: Graph, o: Oracle, s: RunState, k: nat, n: nat)
    requires s.status.Running? && Ready(g, s) && k <= n && Unbroken(Rounds(g, o, s, n)) && Unbroken(Rounds(g, o, s, k))
    ensures Rounds(g, o, s, k).flow.events <= Rounds(g, o, s, n).flow.events
    decreases n
  {
    hide Round, WellFormed;
    if k < n {
      var t := Rounds(g, o, s, n - 1);
      if t.status.Running? {
        RoundEventsGrow(g, o, t);
      } else {
        RoundOver(g, o, t);
      }
      LaterEvents(g, o, s, k, n - 1);
    }
  }

  lemma UnbrokenBefore(g: Graph, o: Oracle, s: RunState, k: nat, n: nat)
    requires s.status.Running? && Ready(g, s) && k <= n && Unbroken(Rounds(g, o, s, n))
    ensures Unbroken(Rounds(g, o, s, k))
  {
    hide Round, WellFormed;
    if !Rounds(g, o, s, k).status.Running? {
      RoundsAdd(g, o, s, k, n - k);
      OverStays(g, o, Rounds(g, o, s, k), n - k);
    }
  }

  /** Right after a message was post-processed the queue is empty or starts with an unread stream. */
  lemma MessageServesQueue(g: Graph, o: Oracle, t: RunState, i: nat)
    requires t.status.Running? && Ready(g, t) && Unbroken(Round(g, o, t)) && t.idx <= i < |Kept(g, t)|
    requires g.specs[Kept(g, t)[i]].kind.Message? && Balanced(g, t.flow)
    ensures var f := Before(g, o, t, i + 1);
      && InOrder(f) && f.events <= Round(g, o, t).flow.events
      && (f.partials == [] || f.partials[0] !in f.comps || f.comps[f.partials[0]].pending)
  {
    hide Round, WellFormed, Kept, Invoked, PostUpTo, Post, Work, Reports, Late, LateEvents;
    OutcomeOf(g, o, t);
    var kept := Kept(g, t);
    EventsGrow(g, o, Invoked(g, o, t), t.idx, i + 1, |kept|);
    StepAt(g, o, t, i);
    var out := PostReports(g, Before(g, o, t, i), kept[i], o(i));
    InvokedBalances(g, o, t);
    PostUpToBalances(g, o, Invoked(g, o, t), t.idx, i + 1);
  }

  /** If no stream that is held back is unread after a message, and nothing is held back after it,
      then nothing is held back in the end, and everything executed has been reported. */
  lemma NothingHeldBack(g: Graph, o: Oracle, s: RunState, k: nat, i: nat, n: nat)
    requires s.status.Running? && Ready(g, s) && Balanced(g, s.flow) && Logged(s, s.idx)
    requires k < n && Unbroken(Rounds(g, o, s, n)) && Rounds(g, o, s, k).status.Running?
    requires Rounds(g, o, s, k).idx <= i < |Kept(g, Rounds(g, o, s, k))|
    requires g.specs[Kept(g, Rounds(g, o, s, k))[i]].kind.Message?
    requires var f := Before(g, o, Rounds(g, o, s, k), i + 1);
      && (forall x | x in f.partials :: x in f.comps && !f.comps[x].pending)
      && Rounds(g, o, s, n).flow.queued == f.queued
    ensures Rounds(g, o, s, n).flow.partials == []
    ensures multiset(Work(g, Rounds(g, o, s, n).flow.done)) == multiset(Reports(g, Rounds(g, o, s, n).flow.events))
  {
    hide Round, WellFormed, Kept, Before, Work, Reports, Late, Starts;
    var t, r := Rounds(g, o, s, k), Rounds(g, o, s, n);
    EveryStartIsAccountedFor(g, o, s, k);
    EveryStartIsAccountedFor(g, o, s, n);
    UnbrokenBefore(g, o, s, k + 1, n);
    MessageServesQueue(g, o, t, i);
    LaterEvents(g, o, s, k + 1, n);
    StaysEmpty(Before(g, o, t, i + 1), r.flow);
  }
}
