/** What one run of the workflow engine means, step by step, as functions on values. The class
    `Canvas` is proved to compute exactly these functions, and the properties of whole runs are
    proved about them.

    Component bodies are foreign code. Whatever they do is read from an oracle: the reply at
    position `i` of the path says how the execution at that position turned out. A position is
    executed at most once in a run, so quantifying over all oracles covers every behaviour. */
module Scheduler {
  import opened Wrappers
  import opened Values
  import opened LoopConditions
  import opened Components

  /** How the body of a component ended: normally, by setting its error output, or by raising. */
  datatype Outcome = Fine | Flagged(msg: string) | Raised(msg: string)

  /** What the body left in the `content` output: a finished value or a stream still to be read. */
  datatype Content = Untouched | Text | Lazy

  /** The errors that reading a variable or a stream can raise or record all have a text. */
  type ErrorText = s: string | s != "" witness "error"

  /** What an iteration item finds when it reads its list. */
  datatype ListRead = Missing(msg: ErrorText) | NotAnArray(msg: ErrorText) | Array(vs: seq<Val>)

  /** The side effects of reading the stream of a message: streams of other components that were
      read to the end on the way, and errors those streams recorded. */
  datatype Streaming = Streaming(raises: bool, settled: set<Id>, errors: map<Id, ErrorText>)

  datatype Reply = Reply(
    canceled: bool,       // looked at when a batch starts at this position
    outcome: Outcome,
    content: Content,
    route: Option<nat>,   // index into the configured target lists
    writes: map<Id, map<string, Val>>,
    settled: set<Id>,
    read: ListRead,       // iteration items only
    readings: seq<Reading>, // loop items only, for the termination test
    streaming: Streaming) // messages only

  type Oracle = nat -> Reply

  /** The `_next` output of a router: never set, cleared by the reset at run start, or set. */
  datatype NextOutput = Unset | Cleared | Chosen(r: nat)

  /** `pending` says that the `content` output is a stream, `blank` that it is None. */
  datatype Comp = Comp(
    error: string, pending: bool, blank: bool, next: NextOutput, counter: int, outs: map<string, Val>)

  type Comps = map<Id, Comp>

  datatype Event =
    | WorkflowStarted
    | NodeStarted(v: Id)
    | NodeFinished(v: Id, late: bool)  // `late` when it was held back in `partials`
    | UserInputs
    | WorkflowFinished

  /** The variables of a run. `done` and `queued` are logs: the components post-processed so far,
      and all that were ever held back. */
  datatype Flow = Flow(
    path: seq<Id>, partials: seq<Id>, error: string, events: seq<Event>, comps: Comps,
    done: seq<Id>, queued: seq<Id>, crashed: bool)

  /** All ids name components, and every component has its state. */
  predicate Sound(g: Graph, f: Flow) {
    WellFormed(g) && Known(g, f.path) && Known(g, f.partials) && f.comps.Keys == g.specs.Keys
  }

  // ----- the batch -----

  predicate NamesFillUpAt(v: Id, i: nat) {
    i + 10 <= |v| && Lower(v)[i..i + 10] == "userfillup"
  }

  predicate NamesFillUp(v: Id) {
    exists i | 0 <= i <= |v| :: NamesFillUpAt(v, i)
  }

  /** May `v` run when exactly `before` precedes it on the path? */
  predicate Admitted(g: Graph, before: seq<Id>, v: Id)
    requires v in g.specs
  {
    || g.specs[v].kind in {Begin, UserFillUp}
    || (forall n | n in g.specs[v].needs :: n == "" || n in before)
    || NamesFillUp((before + [v])[0])
  }

  /** The pending components that survive, taken greedily from left to right. */
  function Keep(g: Graph, before: seq<Id>, pending: seq<Id>): (r: seq<Id>)
    requires Known(g, pending)
    ensures Known(g, r) && |r| <= |pending|
    decreases |pending|
  {
    if pending == [] then []
    else if Admitted(g, before, pending[0]) then
      [pending[0]] + Keep(g, before + [pending[0]], pending[1..])
    else Keep(g, before, pending[1..])
  }

  // ----- invoking a component -----

  /** The `except` branch of `invoke`. */
  function Excepted(c: Spec, s: Comp, msg: string): Comp {
    if c.excMethod == "comment" && c.excDefault != "" then s.(outs := s.outs["result" := Str(c.excDefault)])
    else s.(error := msg)
  }

  function Settled(comps: Comps, ids: set<Id>): (r: Comps)
    ensures r.Keys == comps.Keys
  {
    map v | v in comps :: if v in ids then comps[v].(pending := false) else comps[v]
  }

  function Written(comps: Comps, writes: map<Id, map<string, Val>>): (r: Comps)
    ensures r.Keys == comps.Keys
  {
    map v | v in comps :: if v in writes then comps[v].(outs := comps[v].outs + writes[v]) else comps[v]
  }

  /** A component whose body is foreign. A message that does not fail has set its content. */
  function InvokeForeign(g: Graph, comps: Comps, v: Id, r: Reply): (after: Comps)
    requires v in g.specs && v in comps
    ensures after.Keys == comps.Keys
  {
    var c := g.specs[v];
    var others := Written(Settled(comps, r.settled), r.writes);
    var s := others[v].(
      pending := if r.content.Untouched? then others[v].pending else r.content.Lazy?,
      blank := others[v].blank && r.content.Untouched? && !(c.kind.Message? && r.outcome.Fine?),
      next := if IsRouter(c.kind) && r.route.Some? then Chosen(r.route.value) else others[v].next);
    others[v := match r.outcome
                case Fine => s
                case Flagged(msg) => s.(error := msg)
                case Raised(msg) => Excepted(c, s, msg)]
  }

  function Out(c: Comp, name: string): Val {
    if name in c.outs then c.outs[name] else Str("")
  }

  /** One appended value of `output_collation`; `None` when the output is no list. */
  function Appended(old_: Val, v: Val): Option<Val> {
    if !Truthy(old_) then Some(List([v]))
    else if old_.List? then Some(List(old_.items + [v]))
    else None
  }

  datatype Collation = Collation(comps: Comps, raised: bool)

  /** The references of container `p` to component `source`, in order. */
  function CollateRefs(comps: Comps, p: Id, source: Id, refs: seq<Ref>): (r: Collation)
    requires p in comps && source in comps
    ensures r.comps.Keys == comps.Keys
  {
    if refs == [] then Collation(comps, false)
    else
      var before := CollateRefs(comps, p, source, refs[..|refs| - 1]);
      var ref := refs[|refs| - 1];
      if before.raised || ref.source != source then before
      else
        match Appended(Out(before.comps[p], ref.name), Out(before.comps[source], ref.variable))
        case None => before.(raised := true)
        case Some(v) =>
          before.(comps := before.comps[p := before.comps[p].(outs := before.comps[p].outs[ref.name := v])])
  }

  /** `output_collation` over the components `ids`. */
  function Collate(g: Graph, comps: Comps, p: Id, ids: seq<Id>): (r: Collation)
    requires p in comps && p in g.specs && Known(g, ids) && comps.Keys == g.specs.Keys
    ensures r.comps.Keys == comps.Keys
  {
    if ids == [] then Collation(comps, false)
    else
      var before := Collate(g, comps, p, ids[..|ids| - 1]);
      var source := ids[|ids| - 1];
      if before.raised || g.specs[source].parent != Some(p) then before
      else CollateRefs(before.comps, p, source, g.specs[p].refs)
  }

  /** The element at a possibly negative index, as the source language counts. */
  function ElementAt(vs: seq<Val>, i: int): Option<Val> {
    if 0 <= i < |vs| then Some(vs[i])
    else if 0 <= |vs| + i < |vs| then Some(vs[|vs| + i])
    else None
  }

  /** Publish the next element, or mark the item as ended when there is none. */
  function Advance(c: Spec, comps: Comps, v: Id, vs: seq<Val>): (after: Comps)
    requires v in comps
    ensures after.Keys == comps.Keys
  {
    var s := comps[v];
    if s.counter >= |vs| then comps[v := s.(counter := -1)]
    else
      match ElementAt(vs, s.counter)
      case None => comps[v := Excepted(c, s, "IndexError")]
      case Some(x) =>
        comps[v := s.(outs := s.outs["item" := x]["index" := Num(s.counter as real)], counter := s.counter + 1)]
  }

  function InvokeIterationItem(g: Graph, comps: Comps, v: Id, read: ListRead): (after: Comps)
    requires WellFormed(g) && v in g.specs && g.specs[v].kind.IterationItem? && comps.Keys == g.specs.Keys
    ensures after.Keys == comps.Keys
  {
    assert WellFormedSpec(g, v);
    var c := g.specs[v];
    match read
    case Missing(msg) => comps[v := Excepted(c, comps[v], msg)]
    case NotAnArray(msg) => comps[v := Excepted(c, comps[v].(counter := -1), msg)]
    case Array(vs) =>
      var done := if comps[v].counter > 0 then Collate(g, comps, c.parent.value, g.order)
                  else Collation(comps, false);
      if done.raised then done.comps[v := Excepted(c, done.comps[v], "AttributeError")]
      else Advance(c, done.comps, v, vs)
  }

  function InvokeLoopItem(g: Graph, comps: Comps, v: Id): (after: Comps)
    requires WellFormed(g) && v in g.specs && g.specs[v].kind.LoopItem? && v in comps
    ensures after.Keys == comps.Keys
  {
    assert WellFormedSpec(g, v);
    var s := comps[v];
    comps[v := s.(counter := if s.counter >= g.specs[g.specs[v].parent.value].maxLoops then -1 else s.counter + 1)]
  }

  function Invoke(g: Graph, comps: Comps, v: Id, r: Reply): (after: Comps)
    requires WellFormed(g) && v in g.specs && comps.Keys == g.specs.Keys
    ensures after.Keys == comps.Keys
  {
    if g.specs[v].kind.IterationItem? then InvokeIterationItem(g, comps, v, r.read)
    else if g.specs[v].kind.LoopItem? then InvokeLoopItem(g, comps, v)
    else InvokeForeign(g, comps, v, r)
  }

  /** The state after positions `from..to` of the path have been invoked. */
  function InvokeUpTo(g: Graph, o: Oracle, comps: Comps, path: seq<Id>, from: nat, to: nat): (after: Comps)
    requires WellFormed(g) && Known(g, path) && comps.Keys == g.specs.Keys && from <= to <= |path|
    ensures after.Keys == comps.Keys
  {
    if from == to then comps
    else Invoke(g, InvokeUpTo(g, o, comps, path, from, to - 1), path[to - 1], o(to - 1))
  }

  // ----- post-processing a component -----

  /** How many components at the front of the queue have finished their content. */
  function Drainable(partials: seq<Id>, comps: Comps): (n: nat)
    ensures n <= |partials|
    ensures forall i | 0 <= i < n :: partials[i] in comps && !comps[partials[i]].pending
    ensures n < |partials| ==> partials[n] !in comps || comps[partials[n]].pending
  {
    if partials == [] || partials[0] !in comps || comps[partials[0]].pending then 0
    else 1 + Drainable(partials[1..], comps)
  }

  function LateEvents(ids: seq<Id>): (r: seq<Event>)
    ensures |r| == |ids|
    ensures forall i | 0 <= i < |ids| :: r[i] == NodeFinished(ids[i], true)
  {
    seq(|ids|, i requires 0 <= i < |ids| => NodeFinished(ids[i], true))
  }

  function Drain(f: Flow): Flow {
    var n := Drainable(f.partials, f.comps);
    f.(partials := f.partials[n..], events := f.events + LateEvents(f.partials[..n]))
  }

  function Streamed(comps: Comps, s: Streaming): (r: Comps)
    ensures r.Keys == comps.Keys
  {
    map v | v in comps ::
      comps[v].(pending := comps[v].pending && v !in s.settled,
                error := if v in s.errors then s.errors[v] else comps[v].error)
  }

  /** A message reads its own stream, and then whatever is finished at the front of the queue
      is reported. A message without any content raises: its content is searched for citations. */
  function MessageStep(g: Graph, f: Flow, v: Id, r: Reply): (after: Flow)
    requires Sound(g, f) && v in g.specs
    ensures Sound(g, after) && after.path == f.path
  {
    if !g.specs[v].kind.Message? then f
    else if (if f.comps[v].pending then r.streaming.raises else f.comps[v].blank) then f.(crashed := true)
    else if !f.comps[v].pending then Drain(f)
    else
      var comps := Streamed(f.comps, r.streaming);
      Drain(f.(comps := comps[v := comps[v].(pending := false)]))
  }

  datatype Reaction = NoError | Jump | Default | Fatal

  function ReactionTo(c: Spec, error: string): Reaction {
    if error == "" then NoError
    else if c.excMethod != "" && c.excGoto != [] then Jump
    else if c.excMethod != "" && c.excDefault != "" then Default
    else Fatal
  }

  function ErrorStep(g: Graph, f: Flow, v: Id): (after: Flow)
    requires Sound(g, f) && v in g.specs
    ensures Sound(g, after) && f.path <= after.path
  {
    assert WellFormedSpec(g, v);
    match ReactionTo(g.specs[v], f.comps[v].error)
    case Jump => f.(path := f.path + g.specs[v].excGoto)
    case Fatal => f.(error := f.comps[v].error)
    case _ => f
  }

  /** Report a component as finished, or hold it back while its content is still a stream. */
  function FinishStep(g: Graph, f: Flow, v: Id): (after: Flow)
    requires Sound(g, f) && v in g.specs
    ensures Sound(g, after) && after.path == f.path
  {
    var f' := f.(done := f.done + [v]);
    if IsContainer(g.specs[v].kind) then f'
    else if f.comps[v].pending && f.error == "" then
      f'.(partials := f.partials + [v], queued := f.queued + [v])
    else
      f'.(comps := f.comps[v := f.comps[v].(pending := false, blank := f.comps[v].blank || f.comps[v].pending)],
          events := f.events + [NodeFinished(v, false)])
  }

  /** Items ask whether their container is done. Afterwards an item's counter is -1 exactly when
      it is. */
  function EndStep(g: Graph, f: Flow, v: Id, r: Reply): (after: Flow)
    requires Sound(g, f) && v in g.specs
    ensures Sound(g, after) && after.path == f.path
  {
    assert WellFormedSpec(g, v);
    var c := g.specs[v];
    if !IsItem(c.kind) then f
    else
      var p := g.specs[c.parent.value];
      var verdict := if f.comps[v].counter == -1 then Stop
                     else if c.kind.IterationItem? then Go
                     else VerdictOf(p.conditions, p.logic, r.readings);
      match verdict
      case Abort => f.(crashed := true)
      case Go => f
      case Stop => f.(comps := f.comps[v := f.comps[v].(counter := -1)],
                      events := f.events + [NodeFinished(c.parent.value, false)])
  }

  function Append(path: seq<Id>, v: Id): (r: seq<Id>)
    ensures path <= r
  {
    if path != [] && path[|path| - 1] == v then path else path + [v]
  }

  /** Append each id unless the path already ends with it. */
  function Extend(path: seq<Id>, vs: seq<Id>): (r: seq<Id>)
    ensures path <= r
  {
    if vs == [] then path else Append(Extend(path, vs[..|vs| - 1]), vs[|vs| - 1])
  }

  lemma ExtendIds(g: Graph, path: seq<Id>, vs: seq<Id>)
    ensures forall x | x in Extend(path, vs)[|path|..] :: x in vs
    ensures Known(g, path) && Known(g, vs) ==> Known(g, Extend(path, vs))
  {
    if vs != [] {
      ExtendIds(g, path, vs[..|vs| - 1]);
    }
  }

  function RouteOf(c: Spec, s: Comp): seq<Id> {
    if s.next.Chosen? && s.next.r < |c.routes| then c.routes[s.next.r] else []
  }

  /** A component is done with its container exactly when its counter says so. */
  predicate Ended(g: Graph, comps: Comps, v: Id)
    requires v in g.specs && v in comps
  {
    IsItem(g.specs[v].kind) && comps[v].counter == -1
  }

  function MoveStep(g: Graph, f: Flow, v: Id, jumped: bool): (after: Flow)
    requires Sound(g, f) && v in g.specs
    ensures Sound(g, after) && f.path <= after.path
  {
    assert WellFormedSpec(g, v);
    var s := f.comps[v];
    if jumped then f
    else if IsRouter(g.specs[v].kind) && s.next.Cleared? then f.(crashed := true)
    else
      var targets := Successors(g, v, Ended(g, f.comps, v), RouteOf(g.specs[v], s));
      ExtendIds(g, f.path, targets);
      f.(path := Extend(f.path, targets))
  }

  function Post(g: Graph, f: Flow, v: Id, r: Reply): (after: Flow)
    requires Sound(g, f) && v in g.specs
    ensures Sound(g, after) && f.path <= after.path
  {
    var m := MessageStep(g, f, v, r);
    if m.crashed then m
    else
      var e := EndStep(g, FinishStep(g, ErrorStep(g, m, v), v), v, r);
      if e.crashed then e
      else MoveStep(g, e, v, ReactionTo(g.specs[v], m.comps[v].error).Jump?)
  }

  /** The flow after positions `from..to` of the path have been post-processed. */
  function PostUpTo(g: Graph, o: Oracle, f: Flow, from: nat, to: nat): (after: Flow)
    requires Sound(g, f) && from <= to <= |f.path|
    ensures Sound(g, after) && f.path <= after.path
  {
    if from == to then f
    else
      var before := PostUpTo(g, o, f, from, to - 1);
      if before.crashed then before else Post(g, before, before.path[to - 1], o(to - 1))
  }

  // ----- rounds and runs -----

  datatype Status = Running | Finished | Failed | Paused | Canceled | Crashed

  datatype RunState = RunState(flow: Flow, idx: nat, status: Status, dropped: multiset<Id>)

  predicate Ready(g: Graph, s: RunState) {
    Sound(g, s.flow) && !s.flow.crashed && s.idx < |s.flow.path| && s.flow.error == ""
  }

  function StartedEvents(ids: seq<Id>): (r: seq<Event>)
    ensures |r| == |ids|
    ensures forall i | 0 <= i < |ids| :: r[i] == NodeStarted(ids[i])
  {
    seq(|ids|, i requires 0 <= i < |ids| => NodeStarted(ids[i]))
  }

  function OfKind(g: Graph, ids: seq<Id>, k: Kind, wanted: bool): (r: seq<Id>)
    requires Known(g, ids)
    ensures Known(g, r)
  {
    if ids == [] then []
    else
      var before := OfKind(g, ids[..|ids| - 1], k, wanted);
      var v := ids[|ids| - 1];
      if (g.specs[v].kind == k) == wanted then before + [v] else before
  }

  /** The path when a round begins to invoke: what was executed, and what survives of the rest. */
  function Kept(g: Graph, s: RunState): (r: seq<Id>)
    requires Ready(g, s)
    ensures Known(g, r) && s.flow.path[..s.idx] <= r
  {
    s.flow.path[..s.idx] + Keep(g, s.flow.path[..s.idx], s.flow.path[s.idx..])
  }

  /** All pending components deleted so far, this round included. */
  function DroppedBy(g: Graph, s: RunState): multiset<Id>
    requires Ready(g, s)
  {
    s.dropped + (multiset(s.flow.path[s.idx..]) - multiset(Kept(g, s)[s.idx..]))
  }

  /** The flow after a round has invoked its batch, and after it has post-processed it. */
  function Invoked(g: Graph, o: Oracle, s: RunState): (f: Flow)
    requires Ready(g, s)
    ensures Sound(g, f) && f.path == Kept(g, s)
  {
    var path := Kept(g, s);
    s.flow.(path := path,
            events := s.flow.events + StartedEvents(s.flow.path[s.idx..]),
            comps := InvokeUpTo(g, o, s.flow.comps, path, s.idx, |path|))
  }

  function Processed(g: Graph, o: Oracle, s: RunState): (f: Flow)
    requires Ready(g, s)
    ensures Sound(g, f) && Kept(g, s) <= f.path
  {
    var i := Invoked(g, o, s);
    PostUpTo(g, o, i, s.idx, |i.path|)
  }

  /** A failed run is reported as finished only when its error is a cancellation. */
  function Farewell(error: string): seq<Event> {
    if Occurs("Task has been canceled", error) then [WorkflowFinished] else []
  }

  /** What follows a batch that was post-processed without a crash. */
  function Conclude(g: Graph, f: Flow, idx: nat, to: nat, dropped: multiset<Id>): (r: RunState)
    requires Sound(g, f) && !f.crashed && idx <= to <= |f.path|
    ensures r.status.Running? ==> Ready(g, r)
  {
    if f.error != "" then
      RunState(f.(path := f.path[..idx], events := f.events + Farewell(f.error)), idx, Failed, dropped)
    else
      var pending := f.path[to..];
      var fillups := OfKind(g, pending, UserFillUp, true);
      if fillups != [] then
        RunState(f.(path := fillups + OfKind(g, pending, UserFillUp, false), events := f.events + [UserInputs]),
                 to, Paused, dropped)
      else if to < |f.path| then RunState(f, to, Running, dropped)
      else if f.path == [] then RunState(f, to, Crashed, dropped)
      else RunState(f.(events := f.events + [WorkflowFinished]), to, Finished, dropped)
  }

  /** One pass of the outer loop of `run`. A run that is over stays as it is. */
  function Round(g: Graph, o: Oracle, s: RunState): (r: RunState)
    requires s.status.Running? ==> Ready(g, s)
    ensures r.status.Running? ==> Ready(g, r)
  {
    if !s.status.Running? then s
    else
      var started := s.flow.(events := s.flow.events + StartedEvents(s.flow.path[s.idx..]));
      if o(s.idx).canceled then RunState(started, s.idx, Canceled, s.dropped)
      else
        var f := Processed(g, o, s);
        if f.crashed then RunState(f, s.idx, Crashed, DroppedBy(g, s))
        else Conclude(g, f, s.idx, |Kept(g, s)|, DroppedBy(g, s))
  }

  function Rounds(g: Graph, o: Oracle, s: RunState, n: nat): (r: RunState)
    requires s.status.Running? ==> Ready(g, s)
    ensures r.status.Running? ==> Ready(g, r)
  {
    if n == 0 then s else Round(g, o, Rounds(g, o, s, n - 1))
  }

  /** `reset(True)`: outputs are cleared, item counters are not. */
  function Reset(comps: Comps): (r: Comps)
    ensures r.Keys == comps.Keys
  {
    map v | v in comps ::
      comps[v].(error := "", pending := false, blank := true,
                next := if comps[v].next.Unset? then Unset else Cleared,
                outs := map k | k in comps[v].outs :: Null)
  }

  /** The state in which the outer loop is entered. */
  function Enter(g: Graph, path: seq<Id>, comps: Comps, canceled: bool): (r: RunState)
    requires WellFormed(g) && Known(g, path) && comps.Keys == g.specs.Keys
    ensures r.status.Running? ==> Ready(g, r)
  {
    var path' := if path == [] || !NamesFillUp(path[|path| - 1]) then path + ["begin"] else path;
    RunState(Flow(path', [], "", if canceled then [] else [WorkflowStarted], Reset(comps), [], [], false),
             |path'| - 1, if canceled then Canceled else Running, multiset{})
  }
}
