/** The static side of a workflow: the components of a canvas, what each one declares, and the
    control edges between them. */
module Components {
  import opened Wrappers
  import opened LoopConditions

  type Id = string

  /** The component classes the scheduler tells apart. Every other class is `Plain`. */
  datatype Kind =
    | Begin | UserFillUp | Message | Categorize | Switch
    | Iteration | IterationItem | Loop | LoopItem | ExitLoop | Plain

  predicate IsContainer(k: Kind) { k.Iteration? || k.Loop? }

  predicate IsItem(k: Kind) { k.IterationItem? || k.LoopItem? }

  predicate IsRouter(k: Kind) { k.Categorize? || k.Switch? }

  /** An output of an iteration that collects variable `variable` of component `source`. */
  datatype Ref = Ref(name: string, source: Id, variable: string)

  datatype Spec = Spec(
    kind: Kind,
    downstream: seq<Id>,
    parent: Option<Id>,
    needs: seq<Id>,              // components whose outputs this one reads
    routes: seq<seq<Id>>,        // target lists of a categorize or switch
    excMethod: string,           // "" when no exception method is configured
    excGoto: seq<Id>,
    excDefault: string,
    refs: seq<Ref>,              // collated outputs of an iteration
    conditions: seq<Condition>,  // termination conditions of a loop
    logic: string,
    maxLoops: int)

  /** `order` is the insertion order of the component dictionary. */
  datatype Graph = Graph(order: seq<Id>, specs: map<Id, Spec>)

  predicate IsStartOf(g: Graph, container: Id, v: Id)
    requires container in g.specs
  {
    v in g.specs && g.specs[v].parent == Some(container) &&
    g.specs[v].kind == (if g.specs[container].kind.Iteration? then IterationItem else LoopItem)
  }

  /** The first component, in dictionary order, that is the item of this container. */
  function StartIn(g: Graph, container: Id, ids: seq<Id>): (r: Option<Id>)
    requires container in g.specs
    ensures r.Some? ==> r.value in ids && IsStartOf(g, container, r.value)
    ensures r.None? ==> forall v | v in ids :: !IsStartOf(g, container, v)
  {
    if ids == [] then None
    else if IsStartOf(g, container, ids[0]) then Some(ids[0])
    else StartIn(g, container, ids[1..])
  }

  /** It is the first one: no component before it in the order matches. */
  lemma {:induction false} StartIsFirst(g: Graph, container: Id, ids: seq<Id>) returns (k: nat)
    requires container in g.specs && StartIn(g, container, ids).Some?
    ensures k < |ids| && StartIn(g, container, ids) == Some(ids[k])
    ensures forall j | 0 <= j < k :: !IsStartOf(g, container, ids[j])
  {
    if IsStartOf(g, container, ids[0]) {
      k := 0;
    } else {
      var rest := StartIsFirst(g, container, ids[1..]);
      k := rest + 1;
      assert forall j | 1 <= j < k :: ids[j] == ids[1..][j - 1];
    }
  }

  function Start(g: Graph, container: Id): Option<Id>
    requires container in g.specs
  {
    StartIn(g, container, g.order)
  }

  predicate Known(g: Graph, ids: seq<Id>) {
    forall i | 0 <= i < |ids| :: ids[i] in g.specs
  }

  /** What the engine takes for granted of a component: it looks all of these up without a check. */
  predicate WellFormedSpec(g: Graph, v: Id)
    requires v in g.specs
  {
    var c := g.specs[v];
    && Known(g, c.downstream) && Known(g, c.excGoto)
    && (forall r | r in c.routes :: Known(g, r))
    && (c.parent.Some? ==>
          c.parent.value in g.specs && IsContainer(g.specs[c.parent.value].kind) &&
          Known(g, g.specs[c.parent.value].downstream))
    && (IsContainer(c.kind) ==> Start(g, v).Some?)
    && (IsItem(c.kind) ==> c.parent.Some? && IsStartOf(g, c.parent.value, v))
    && (c.kind.ExitLoop? ==> c.parent.Some?)
  }

  predicate WellFormed(g: Graph) {
    && "begin" in g.specs
    && Known(g, g.order)
    && (forall v {:trigger WellFormedSpec(g, v)} | v in g.specs :: WellFormedSpec(g, v))
  }

  /** Every component occurs once in the dictionary order. */
  ghost predicate ListsAll(g: Graph) {
    && (forall v {:trigger Listed(g, v)} | v in g.specs :: Listed(g, v))
    && (forall i, j {:trigger Differ(g, i, j)} | 0 <= i < j < |g.order| :: Differ(g, i, j))
  }

  ghost predicate Listed(g: Graph, v: Id) {
    v in g.order
  }

  ghost predicate Differ(g: Graph, i: int, j: int)
    requires 0 <= i < j < |g.order|
  {
    g.order[i] != g.order[j]
  }

  /** The components that `v` hands control to once it has run without an error. For a router
      `chosen` is its `_next` output; for an item `ended` says whether its container is done. */
  function Successors(g: Graph, v: Id, ended: bool, chosen: seq<Id>): (r: seq<Id>)
    requires WellFormed(g) && v in g.specs
    ensures Known(g, chosen) ==> Known(g, r)
  {
    assert WellFormedSpec(g, v);
    var c := g.specs[v];
    if IsItem(c.kind) && ended then g.specs[c.parent.value].downstream
    else if IsRouter(c.kind) then chosen
    else if IsContainer(c.kind) then [Start(g, v).value]
    else if c.kind.ExitLoop? && g.specs[c.parent.value].kind.Loop? then g.specs[c.parent.value].downstream
    else if c.downstream == [] && c.parent.Some? then
      assert WellFormedSpec(g, c.parent.value);
      [Start(g, c.parent.value).value]
    else c.downstream
  }

  /** The control edges that the configuration draws: normal successors, the target lists of
      routers, container entry, loop back, container exit, and the goto of an exception handler. */
  ghost predicate Edge(g: Graph, u: Id, v: Id)
    requires WellFormed(g)
  {
    u in g.specs &&
    ( || (g.specs[u].excMethod != "" && v in g.specs[u].excGoto)
      || (IsRouter(g.specs[u].kind) && exists r | r in g.specs[u].routes :: v in r)
      || (!IsRouter(g.specs[u].kind) && v in Successors(g, u, false, []))
      || (IsItem(g.specs[u].kind) && v in Successors(g, u, true, [])))
  }
}
