/** When the order of two invocations in a batch does not matter. The engine runs a batch
    concurrently; the model invokes its components one after the other. */
module Commuting {
  import opened Components
  import opened Scheduler

  /** Neither component writes to the other or reads the other's stream to its end, and what both
      write to a third one has different names. */
  predicate Independent(u: Id, a: Reply, v: Id, b: Reply) {
    && u != v
    && v !in a.writes && u !in b.writes && v !in a.settled && u !in b.settled
    && (forall w | w in a.writes && w in b.writes :: a.writes[w].Keys !! b.writes[w].Keys)
  }

  /** What the invocation of `u` does to component `w`. */
  function Touched(g: Graph, u: Id, r: Reply, w: Id, s: Comp): Comp
    requires u in g.specs
  {
    var settled := if w in r.settled then s.(pending := false) else s;
    var written := if w in r.writes then settled.(outs := settled.outs + r.writes[w]) else settled;
    if w == u then Answered(g.specs[u], r, written) else written
  }

  /** What the component's own reply does to it. */
  function Answered(c: Spec, r: Reply, s: Comp): Comp {
    var t := s.(
      pending := if r.content.Untouched? then s.pending else r.content.Lazy?,
      blank := s.blank && r.content.Untouched? && !(c.kind.Message? && r.outcome.Fine?),
      next := if IsRouter(c.kind) && r.route.Some? then Chosen(r.route.value) else s.next);
    match r.outcome
    case Fine => t
    case Flagged(msg) => t.(error := msg)
    case Raised(msg) => Excepted(c, t, msg)
  }

  lemma InvokeTouches(g: Graph, comps: Comps, u: Id, r: Reply, w: Id)
    requires u in g.specs && u in comps && w in comps
    ensures InvokeForeign(g, comps, u, r)[w] == Touched(g, u, r, w, comps[w])
  {
    hide Excepted;
  }

  lemma TouchesCommute(g: Graph, u: Id, a: Reply, v: Id, b: Reply, w: Id, s: Comp)
    requires u in g.specs && v in g.specs && Independent(u, a, v, b)
    ensures Touched(g, v, b, w, Touched(g, u, a, w, s)) == Touched(g, u, a, w, Touched(g, v, b, w, s))
  {
    if w != u && w != v && w in a.writes && w in b.writes {
      assert s.outs + a.writes[w] + b.writes[w] == s.outs + b.writes[w] + a.writes[w];
    }
  }

  /** Independent invocations may be exchanged. */
  lemma InvocationsCommute(g: Graph, comps: Comps, u: Id, a: Reply, v: Id, b: Reply)
    requires u in g.specs && v in g.specs && u in comps && v in comps && Independent(u, a, v, b)
    ensures InvokeForeign(g, InvokeForeign(g, comps, u, a), v, b) ==
            InvokeForeign(g, InvokeForeign(g, comps, v, b), u, a)
  {
    hide InvokeForeign, Touched;
    var x, y := InvokeForeign(g, comps, u, a), InvokeForeign(g, comps, v, b);
    forall w | w in comps ensures InvokeForeign(g, x, v, b)[w] == InvokeForeign(g, y, u, a)[w] {
      InvokeTouches(g, comps, u, a, w);
      InvokeTouches(g, comps, v, b, w);
      InvokeTouches(g, x, v, b, w);
      InvokeTouches(g, y, u, a, w);
      TouchesCommute(g, u, a, v, b, w, comps[w]);
    }
  }
}
