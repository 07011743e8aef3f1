/** Where a run starts, what survives in a batch, how a failed invocation is taken, and how a round
    ends, each said in terms of ids, texts and the configuration. */
module Outcomes {
  import opened Wrappers
  import opened Values
  import opened Components
  import opened Scheduler
  import opened Runs

  // ----- where a run starts -----

  /** `part` reads "userfillup" when upper and lower case are not told apart. */
  predicate SpellsFillUp(part: string) {
    |part| == 10 && forall i | 0 <= i < 10 :: part[i] == "userfillup"[i] || part[i] == "USERFILLUP"[i]
  }

  ghost predicate MentionsFillUp(v: Id) {
    exists x, part, y :: v == Parts(x, part, y) && SpellsFillUp(part)
  }

  function Parts(x: string, part: string, y: string): string {
    x + part + y
  }

  lemma LowerSpells(part: string)
    ensures Lower(part) == "userfillup" <==> SpellsFillUp(part)
  {
    if |part| == 10 {
      forall i | 0 <= i < 10
        ensures Lower(part)[i] == "userfillup"[i] <==> part[i] == "userfillup"[i] || part[i] == "USERFILLUP"[i]
      {
        CaseOf(i);
      }
      if Lower(part) == "userfillup" {
        assert forall i | 0 <= i < 10 :: Lower(part)[i] == "userfillup"[i];
      }
    }
  }

  lemma CaseOf(i: nat)
    requires i < 10
    ensures 'a' <= "userfillup"[i] <= 'z' && "userfillup"[i] as int == "USERFILLUP"[i] as int + 32
  {
  }

  lemma MentionMeans(v: Id)
    ensures NamesFillUp(v) <==> MentionsFillUp(v)
  {
    if NamesFillUp(v) {
      var i :| 0 <= i <= |v| && NamesFillUpAt(v, i);
      LowerPart(v, i);
      LowerSpells(v[i..i + 10]);
      assert v == Parts(v[..i], v[i..i + 10], v[i + 10..]);
    }
    forall x, part, y | v == Parts(x, part, y) && SpellsFillUp(part) ensures NamesFillUp(v) {
      LowerSpells(part);
      assert v[|x|..|x| + 10] == part;
      LowerPart(v, |x|);
      assert NamesFillUpAt(v, |x|);
    }
  }

  lemma LowerPart(v: string, i: nat)
    requires i + 10 <= |v|
    ensures Lower(v)[i..i + 10] == Lower(v[i..i + 10])
  {
  }

  /** A run starts at the end of the path it was given if that is a form, and else at `begin`, which
      it puts there. Either way exactly one component is pending, and nothing is left of an earlier
      run but the item counters and which routers ever chose. */
  lemma RunStarts(g: Graph, path: seq<Id>, comps: Comps)
    requires WellFormed(g) && Known(g, path) && comps.Keys == g.specs.Keys
    ensures var s := Enter(g, path, comps, false);
      && s.status.Running? && s.idx == |s.flow.path| - 1
      && s.flow.path == (if path != [] && MentionsFillUp(path[|path| - 1]) then path else path + ["begin"])
      && s.flow.partials == [] && s.flow.error == "" && s.flow.events == [WorkflowStarted]
      && s.flow.comps.Keys == comps.Keys && forall v | v in comps :: StartsClear(comps[v], s.flow.comps[v])
    ensures Enter(g, path, comps, true) ==
            Enter(g, path, comps, false).(status := Canceled, flow := Enter(g, path, comps, false).flow.(events := []))
  {
    hide NamesFillUp, MentionsFillUp;
    if path != [] {
      MentionMeans(path[|path| - 1]);
    }
  }

  predicate StartsClear(was: Comp, c: Comp) {
    && c.error == "" && !c.pending && c.blank && !c.next.Chosen? && (c.next.Unset? <==> was.next.Unset?)
    && c.counter == was.counter && c.outs.Keys == was.outs.Keys && forall k | k in c.outs :: c.outs[k] == Null
  }

  /** So the past of a run is these counters and names alone: two dictionaries that agree on them
      give the same run. */
  lemma RunsForgetThePast(g: Graph, path: seq<Id>, a: Comps, b: Comps, canceled: bool)
    requires WellFormed(g) && Known(g, path) && a.Keys == g.specs.Keys == b.Keys
    requires forall v | v in a ::
      a[v].counter == b[v].counter && a[v].next.Unset? == b[v].next.Unset? && a[v].outs.Keys == b[v].outs.Keys
    ensures Enter(g, path, a, canceled) == Enter(g, path, b, canceled)
  {
    forall v | v in a ensures Reset(a)[v] == Reset(b)[v] {
      assert Reset(a)[v].outs == Reset(b)[v].outs;
    }
    assert Reset(a) == Reset(b);
    hide NamesFillUp;
  }

  // ----- the batch -----

  /** The first id of the path at the time when `v` is looked at. */
  function FirstOf(before: seq<Id>, v: Id): Id {
    if before == [] then v else before[0]
  }

  /** A pending component survives exactly when it is a begin or a form, or the path starts with a
      form, or everything it reads is produced by what precedes it: what was executed, and the
      survivors to its left. */
  lemma SurvivesExactly(g: Graph, before: seq<Id>, pending: seq<Id>, j: nat)
    requires Known(g, pending) && j < |pending|
    ensures var v, left := pending[j], before + Keep(g, before, pending[..j]);
      var survives := g.specs[v].kind.Begin? || g.specs[v].kind.UserFillUp? || MentionsFillUp(FirstOf(left, v)) ||
                      (forall i | 0 <= i < |g.specs[v].needs| ::
                        g.specs[v].needs[i] == "" || g.specs[v].needs[i] in left);
      Keep(g, before, pending[..j + 1]) == Keep(g, before, pending[..j]) + if survives then [v] else []
  {
    hide Keep, NamesFillUp, MentionsFillUp;
    BatchIsGreedy(g, before, pending, j);
    var v, left := pending[j], before + Keep(g, before, pending[..j]);
    MentionMeans(FirstOf(left, v));
    assert (left + [v])[0] == FirstOf(left, v);
    assert (forall n | n in g.specs[v].needs :: n == "" || n in left) <==>
           (forall i | 0 <= i < |g.specs[v].needs| :: g.specs[v].needs[i] == "" || g.specs[v].needs[i] in left);
  }

  // ----- an invocation that fails -----

  /** How a raised exception is taken: with a comment and a default it is hidden, and the default
      becomes the result; otherwise it is the error of the component. Nothing else changes. */
  ghost predicate Takes(c: Spec, before: Comp, msg: string, after: Comp) {
    && after == before.(error := after.error, outs := after.outs)
    && (if c.excMethod == "comment" && c.excDefault != ""
        then after.error == before.error && after.outs == before.outs["result" := Str(c.excDefault)]
        else after.error == msg && after.outs == before.outs)
  }

  lemma ForeignFailures(g: Graph, comps: Comps, v: Id, r: Reply)
    requires v in g.specs && v in comps
    ensures var fine := InvokeForeign(g, comps, v, r.(outcome := Fine))[v];
      var quiet := if g.specs[v].kind.Message? then fine.(blank := InvokeForeign(g, comps, v, r)[v].blank) else fine;
      match r.outcome
      case Fine => true
      case Flagged(msg) => InvokeForeign(g, comps, v, r)[v] == quiet.(error := msg)
      case Raised(msg) => Takes(g.specs[v], quiet, msg, InvokeForeign(g, comps, v, r)[v])
  {
  }

  /** An iteration item that cannot read its list keeps its counter; one that reads something else
      than a list has ended, whatever becomes of the exception. */
  lemma ItemFailures(g: Graph, comps: Comps, v: Id, msg: ErrorText)
    requires WellFormed(g) && v in g.specs && g.specs[v].kind.IterationItem? && comps.Keys == g.specs.Keys
    ensures var after := InvokeIterationItem(g, comps, v, Missing(msg));
      after == comps[v := after[v]] && Takes(g.specs[v], comps[v], msg, after[v])
    ensures var after := InvokeIterationItem(g, comps, v, NotAnArray(msg));
      after == comps[v := after[v]] && Takes(g.specs[v], comps[v].(counter := -1), msg, after[v])
  {
    hide WellFormed;
  }

  // ----- how a round ends -----

  /** `at` are the positions of the forms, or of the others, among `ids`. */
  ghost predicate AreForms(g: Graph, ids: seq<Id>, at: seq<nat>, wanted: bool)
    requires Known(g, ids)
  {
    && (forall i, j | 0 <= i < j < |at| :: at[i] < at[j])
    && forall i :: i in at <==> 0 <= i < |ids| && g.specs[ids[i]].kind.UserFillUp? == wanted
  }

  ghost predicate Taken(ids: seq<Id>, at: seq<nat>, r: seq<Id>) {
    |r| == |at| && forall j | 0 <= j < |at| :: at[j] < |ids| && r[j] == ids[at[j]]
  }

  lemma {:induction false} FormsAt(g: Graph, ids: seq<Id>, wanted: bool) returns (at: seq<nat>)
    requires Known(g, ids)
    ensures AreForms(g, ids, at, wanted) && Taken(ids, at, OfKind(g, ids, UserFillUp, wanted))
  {
    if ids == [] {
      at := [];
    } else {
      var n := |ids| - 1;
      var before := FormsAt(g, ids[..n], wanted);
      var hit := g.specs[ids[n]].kind.UserFillUp? == wanted;
      at := before + if hit then [n] else [];
      FormsMore(g, ids, before, wanted);
      assert OfKind(g, ids, UserFillUp, wanted) ==
             OfKind(g, ids[..n], UserFillUp, wanted) + if hit then [ids[n]] else [];
      hide AreForms, OfKind;
    }
  }

  lemma FormsMore(g: Graph, ids: seq<Id>, at: seq<nat>, wanted: bool)
    requires ids != [] && Known(g, ids) && AreForms(g, ids[..|ids| - 1], at, wanted)
    ensures AreForms(g, ids,
                     at + (if g.specs[ids[|ids| - 1]].kind.UserFillUp? == wanted then [|ids| - 1] else []), wanted)
  {
    var n := |ids| - 1;
    forall j | 0 <= j < |at| ensures at[j] < n {
      assert at[j] in at;
    }
    assert forall i | 0 <= i < n :: ids[..n][i] == ids[i];
  }

  /** A pause leaves the pending forms in their order, and then the other pending components in
      theirs; there is at least one form. */
  ghost predicate PausedAt(g: Graph, pending: seq<Id>, path: seq<Id>, forms: seq<nat>, others: seq<nat>)
    requires Known(g, pending)
  {
    && AreForms(g, pending, forms, true) && AreForms(g, pending, others, false) && forms != []
    && |forms| <= |path| && Taken(pending, forms, path[..|forms|]) && Taken(pending, others, path[|forms|..])
  }

  ghost predicate HasForm(g: Graph, ids: seq<Id>)
    requires Known(g, ids)
  {
    exists i :: 0 <= i < |ids| && g.specs[ids[i]].kind.UserFillUp?
  }

  /** The status after a batch that was processed to `f`, which did not raise; positions below `to`
      are executed. */
  ghost predicate EndsAs(g: Graph, f: Flow, idx: nat, to: nat, r: RunState)
    requires Sound(g, f) && idx <= to <= |f.path|
  {
    && (r.status.Failed? <==> f.error != "")
    && (r.status.Paused? <==> f.error == "" && HasForm(g, f.path[to..]))
    && (r.status.Running? <==> f.error == "" && !HasForm(g, f.path[to..]) && to < |f.path|)
    && (r.status.Finished? <==> f.error == "" && to == |f.path| > 0)
    && (r.status.Crashed? <==> f.error == "" && f.path == [])
    && r.flow == f.(path := r.flow.path, events := r.flow.events)
    && r.idx == (if r.status.Failed? then idx else to)
    && (r.status.Failed? ==> r.flow.path == f.path[..idx])
    && (r.status.Paused? ==> exists forms, others :: PausedAt(g, f.path[to..], r.flow.path, forms, others))
    && (r.status.Running? || r.status.Finished? || r.status.Crashed? ==> r.flow.path == f.path)
    && r.flow.events == f.events + (if r.status.Paused? then [UserInputs]
                                    else if r.status.Finished? || TellsCancel(f.error) then [WorkflowFinished]
                                    else [])
  }

  /** The error speaks of a cancellation. */
  ghost predicate TellsCancel(error: string) {
    exists x, y :: error == Parts(x, "Task has been canceled", y)
  }

  lemma CancelMeans(error: string)
    ensures Occurs("Task has been canceled", error) <==> TellsCancel(error)
    ensures error == "" ==> !TellsCancel(error)
  {
    var t := "Task has been canceled";
    assert |t| == 22;
    if Occurs(t, error) {
      var i :| 0 <= i <= |error| && OccursAt(t, error, i);
      assert error == Parts(error[..i], t, error[i + |t|..]);
    }
    forall x, y | error == Parts(x, t, y) ensures Occurs(t, error) && error != "" {
      assert OccursAt(t, error, |x|);
    }
  }

  lemma ConcludesAs(g: Graph, f: Flow, idx: nat, to: nat, dropped: multiset<Id>)
    requires Sound(g, f) && !f.crashed && idx <= to <= |f.path|
    ensures EndsAs(g, f, idx, to, Conclude(g, f, idx, to, dropped))
    ensures Conclude(g, f, idx, to, dropped).dropped == dropped
  {
    hide WellFormed, OfKind, AreForms, Taken, Occurs, TellsCancel;
    var pending := f.path[to..];
    CancelMeans(f.error);
    var forms := FormsAt(g, pending, true);
    var others := FormsAt(g, pending, false);
    FormsThere(g, pending, forms, OfKind(g, pending, UserFillUp, true));
    var r := Conclude(g, f, idx, to, dropped);
    if r.status.Paused? {
      TakenBoth(pending, forms, others, OfKind(g, pending, UserFillUp, true), OfKind(g, pending, UserFillUp, false),
                r.flow.path);
      assert PausedAt(g, pending, r.flow.path, forms, others);
    }
  }

  lemma TakenBoth(ids: seq<Id>, forms: seq<nat>, others: seq<nat>, a: seq<Id>, b: seq<Id>, path: seq<Id>)
    requires Taken(ids, forms, a) && Taken(ids, others, b) && path == a + b
    ensures |forms| <= |path| && Taken(ids, forms, path[..|forms|]) && Taken(ids, others, path[|forms|..])
  {
    assert path[..|forms|] == a && path[|forms|..] == b;
  }

  lemma FormsThere(g: Graph, pending: seq<Id>, forms: seq<nat>, taken: seq<Id>)
    requires Known(g, pending) && AreForms(g, pending, forms, true) && Taken(pending, forms, taken)
    ensures taken != [] <==> HasForm(g, pending)
    ensures taken != [] <==> forms != []
    ensures pending == [] ==> !HasForm(g, pending)
  {
    if forms != [] {
      assert forms[0] in forms;
    }
    if HasForm(g, pending) {
      var i: nat :| i < |pending| && g.specs[pending[i]].kind.UserFillUp?;
      assert i in forms;
    }
  }

  /** How a round ends, and what it leaves. */
  ghost predicate RoundEndsAs(g: Graph, o: Oracle, s: RunState, r: RunState)
    requires Ready(g, s)
  {
    var f := Processed(g, o, s);
    if o(s.idx).canceled then
      r.status.Canceled? && r.idx == s.idx &&
      r.flow == s.flow.(events := s.flow.events + StartedEvents(s.flow.path[s.idx..]))
    else if f.crashed then r.status.Crashed? && r.flow == f
    else s.idx <= |Kept(g, s)| <= |f.path| && EndsAs(g, f, s.idx, |Kept(g, s)|, r)
  }

  lemma RoundEnds(g: Graph, o: Oracle, s: RunState)
    requires s.status.Running? && Ready(g, s)
    ensures RoundEndsAs(g, o, s, Round(g, o, s))
  {
    hide WellFormed, Conclude, EndsAs, Processed, DroppedBy, StartedEvents;
    var f := Processed(g, o, s);
    if !o(s.idx).canceled && !f.crashed {
      ConcludesAs(g, f, s.idx, |Kept(g, s)|, DroppedBy(g, s));
    }
  }
}
