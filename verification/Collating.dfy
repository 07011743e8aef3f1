/** What `output_collation` does to the outputs of an iteration: every collected output grows by
    exactly the current value of the component it refers to, and nothing else changes. */
module Collating {
  import opened Wrappers
  import opened Values
  import opened Components
  import opened Scheduler

  /** The output holds exactly the values `vs`. An output without values may be any false value. */
  predicate Collected(v: Val, vs: seq<Val>) {
    if vs == [] then !Truthy(v) else v == List(vs)
  }

  /** An output that was never set reads as the empty text, which counts as nothing. */
  lemma UnsetReadsEmpty(c: Comp, name: string)
    requires name !in c.outs
    ensures Out(c, name) == Str("") && Collected(Out(c, name), [])
  {
  }

  lemma AppendedCollects(v: Val, vs: seq<Val>, x: Val)
    requires Collected(v, vs)
    ensures Appended(v, x) == Some(List(vs + [x]))
  {
    assert [] + [x] == [x];
  }

  ghost predicate DistinctNames(refs: seq<Ref>) {
    forall i, j | 0 <= i < j < |refs| :: refs[i].name != refs[j].name
  }

  /** `after` differs from `before` only in the outputs of `p`. */
  ghost predicate OnlyOutputs(before: Comps, after: Comps, p: Id)
    requires p in before
  {
    && after.Keys == before.Keys
    && (forall x | x in before && x != p :: after[x] == before[x])
    && after[p] == before[p].(outs := after[p].outs)
  }

  /** The effect of a collation on reference `k` when it has (`hit`) or has not been processed. */
  ghost predicate Effect(before: Comps, after: Comps, p: Id, ref: Ref, hit: bool)
    requires p in before && p in after
  {
    var old_ := Out(before[p], ref.name);
    if hit then
      ref.source in before && Appended(old_, Out(before[ref.source], ref.variable)) == Some(Out(after[p], ref.name))
    else Out(after[p], ref.name) == old_
  }

  ghost predicate Appendable(comps: Comps, p: Id, ref: Ref)
    requires p in comps
  {
    && ref.source in comps && ref.source != p
    && Appended(Out(comps[p], ref.name), Out(comps[ref.source], ref.variable)).Some?
  }

  /** `done` tells which references have been processed. */
  ghost predicate Effects(before: Comps, r: Collation, p: Id, refs: seq<Ref>, done: set<nat>)
    requires p in before
  {
    && !r.raised && OnlyOutputs(before, r.comps, p)
    && forall k | 0 <= k < |refs| :: Effect(before, r.comps, p, refs[k], k in done)
  }

  function HitsUpTo(refs: seq<Ref>, source: Id, m: nat): set<nat> {
    set k: nat | k < m && k < |refs| && refs[k].source == source
  }

  function WithOutput(comps: Comps, p: Id, name: string, v: Val): Comps
    requires p in comps
  {
    comps[p := comps[p].(outs := comps[p].outs[name := v])]
  }

  lemma RefEffect(first: Comps, before: Comps, p: Id, refs: seq<Ref>, k: nat, done: set<nat>)
    requires p in first && k < |refs| && DistinctNames(refs) && k !in done
    requires Effects(first, Collation(before, false), p, refs, done) && Appendable(first, p, refs[k])
    ensures refs[k].source in before
    ensures var v := Appended(Out(before[p], refs[k].name), Out(before[refs[k].source], refs[k].variable));
      v.Some? && Effects(first, Collation(WithOutput(before, p, refs[k].name, v.value), false), p, refs, done + {k})
  {
    hide Appended;
    var ref := refs[k];
    assert Effect(first, before, p, ref, false);
    assert before[ref.source] == first[ref.source];
    var v := Appended(Out(before[p], ref.name), Out(before[ref.source], ref.variable));
    var after := WithOutput(before, p, ref.name, v.value);
    forall j | 0 <= j < |refs| ensures Effect(first, after, p, refs[j], j in done + {k}) {
      assert Effect(first, before, p, refs[j], j in done);
      if j != k {
        assert refs[j].name != ref.name;
        assert Out(after[p], refs[j].name) == Out(before[p], refs[j].name);
      }
    }
  }

  lemma {:induction false} CollateRefsEffects(
    first: Comps, comps: Comps, p: Id, source: Id, refs: seq<Ref>, m: nat, done: set<nat>)
    requires p in first && m <= |refs| && DistinctNames(refs)
    requires Effects(first, Collation(comps, false), p, refs, done) && source in first
    requires forall k: nat | k < |refs| && refs[k].source == source :: Appendable(first, p, refs[k]) && k !in done
    ensures Effects(first, CollateRefs(comps, p, source, refs[..m]), p, refs, done + HitsUpTo(refs, source, m))
    decreases m
  {
    hide Appended, Effects, Appendable, DistinctNames;
    NotRaised(first, Collation(comps, false), p, refs, done);
    if m == 0 {
      assert done + HitsUpTo(refs, source, 0) == done;
    } else {
      assert refs[..m][..m - 1] == refs[..m - 1];
      CollateRefsEffects(first, comps, p, source, refs, m - 1, done);
      var before := CollateRefs(comps, p, source, refs[..m - 1]);
      NotRaised(first, before, p, refs, done + HitsUpTo(refs, source, m - 1));
      if refs[m - 1].source == source {
        assert done + HitsUpTo(refs, source, m) == done + HitsUpTo(refs, source, m - 1) + {m - 1};
        RefEffect(first, before.comps, p, refs, m - 1, done + HitsUpTo(refs, source, m - 1));
      } else {
        assert HitsUpTo(refs, source, m) == HitsUpTo(refs, source, m - 1);
      }
    }
  }

  lemma NotRaised(first: Comps, r: Collation, p: Id, refs: seq<Ref>, done: set<nat>)
    requires p in first && Effects(first, r, p, refs, done)
    ensures !r.raised && r == Collation(r.comps, false) && r.comps.Keys == first.Keys
  {
  }

  /** The references whose source is a child of `p` among `ids`. */
  function HitsIn(g: Graph, p: Id, refs: seq<Ref>, ids: seq<Id>): set<nat> {
    set k: nat | k < |refs| && refs[k].source in ids &&
                 refs[k].source in g.specs && g.specs[refs[k].source].parent == Some(p)
  }

  lemma {:induction false} CollateEffects(g: Graph, comps: Comps, p: Id, ids: seq<Id>)
    requires p in g.specs && comps.Keys == g.specs.Keys && Known(g, ids)
    requires forall i, j | 0 <= i < j < |ids| :: ids[i] != ids[j]
    requires DistinctNames(g.specs[p].refs)
    requires forall k: nat | k < |g.specs[p].refs| && k in HitsIn(g, p, g.specs[p].refs, ids) ::
      Appendable(comps, p, g.specs[p].refs[k])
    ensures Effects(comps, Collate(g, comps, p, ids), p, g.specs[p].refs, HitsIn(g, p, g.specs[p].refs, ids))
    decreases |ids|
  {
    hide Appended, CollateRefs;
    var refs := g.specs[p].refs;
    if ids == [] {
      assert HitsIn(g, p, refs, []) == {};
    } else {
      var init, source := ids[..|ids| - 1], ids[|ids| - 1];
      assert ids == init + [source];
      var done := HitsIn(g, p, refs, init);
      CollateEffects(g, comps, p, init);
      if g.specs[source].parent == Some(p) {
        assert refs[..|refs|] == refs;
        CollateRefsEffects(comps, Collate(g, comps, p, init).comps, p, source, refs, |refs|, done);
        assert HitsIn(g, p, refs, ids) == done + HitsUpTo(refs, source, |refs|);
      } else {
        assert HitsIn(g, p, refs, ids) == done;
      }
    }
  }

  /** The references that a collation of `p` serves. */
  ghost predicate Serves(g: Graph, p: Id, ref: Ref) {
    ref.source in g.specs && g.specs[ref.source].parent == Some(p)
  }

  /** One collation over the whole component dictionary. */
  lemma CollationAppendsEach(g: Graph, comps: Comps, p: Id)
    requires WellFormed(g) && ListsAll(g) && p in g.specs && comps.Keys == g.specs.Keys
    requires DistinctNames(g.specs[p].refs)
    requires forall k | 0 <= k < |g.specs[p].refs| && Serves(g, p, g.specs[p].refs[k]) ::
      Appendable(comps, p, g.specs[p].refs[k])
    ensures var r := Collate(g, comps, p, g.order);
      && !r.raised && OnlyOutputs(comps, r.comps, p)
      && forall k | 0 <= k < |g.specs[p].refs| ::
           Effect(comps, r.comps, p, g.specs[p].refs[k], Serves(g, p, g.specs[p].refs[k]))
  {
    hide Appended, Collate, Effect;
    var refs := g.specs[p].refs;
    forall i, j | 0 <= i < j < |g.order| ensures g.order[i] != g.order[j] {
      assert Differ(g, i, j);
    }
    assert forall k: nat | k < |refs| && Serves(g, p, refs[k]) :: Listed(g, refs[k].source);
    assert forall k: nat | k < |refs| :: (k in HitsIn(g, p, refs, g.order) <==> Serves(g, p, refs[k]));
    CollateEffects(g, comps, p, g.order);
  }

  // ----- when a collation raises -----

  /** Values can be appended to a list, and to what counts as nothing; everything else raises. */
  lemma AppendableExactly(v: Val, x: Val)
    ensures Appended(v, x).Some? <==>
      v.List? || v == Null || v == Str("") || v == Num(0.0) || v == Bool(false) || (v.Dict? && v.size == 0)
    ensures v.List? ==> Appended(v, x) == Some(List(v.items + [x]))
    ensures Appended(v, x).Some? && !v.List? ==> Appended(v, x) == Some(List([x]))
  {
    if v == List([]) {
      assert [] + [x] == [x];
    }
  }

  /** Reference `k` can be served from these values. */
  ghost predicate CanServe(comps: Comps, p: Id, ref: Ref)
    requires p in comps && ref.source in comps
  {
    Appended(Out(comps[p], ref.name), Out(comps[ref.source], ref.variable)).Some?
  }

  /** If the references to `source` are served without raising, all of them could be from the start. */
  lemma {:induction false} QuietRefsFit(
    first: Comps, comps: Comps, p: Id, source: Id, refs: seq<Ref>, m: nat, done: set<nat>)
    requires p in first && m <= |refs| && DistinctNames(refs) && source in first && source != p
    requires Effects(first, Collation(comps, false), p, refs, done)
    requires forall k: nat | k < |refs| && refs[k].source == source :: k !in done
    requires p in comps && source in comps && !CollateRefs(comps, p, source, refs[..m]).raised
    ensures forall k: nat | k < m && refs[k].source == source :: CanServe(first, p, refs[k])
    ensures Effects(first, CollateRefs(comps, p, source, refs[..m]), p, refs, done + HitsUpTo(refs, source, m))
    decreases m
  {
    hide Appended, Effects, CanServe, DistinctNames, CollateRefs, HitsUpTo;
    HitsStep(refs, source, m);
    if m == 0 {
      assert done + HitsUpTo(refs, source, 0) == done;
      NoRefs(comps, p, source, refs);
    } else {
      QuietRef(first, comps, p, source, refs, m);
      QuietRefsFit(first, comps, p, source, refs, m - 1, done);
      var hit := done + HitsUpTo(refs, source, m - 1);
      NotRaised(first, CollateRefs(comps, p, source, refs[..m - 1]), p, refs, hit);
      if refs[m - 1].source == source {
        assert done + HitsUpTo(refs, source, m) == hit + {m - 1};
        QuietRefFits(first, CollateRefs(comps, p, source, refs[..m - 1]).comps, p, refs, m - 1, hit);
        RefEffect(first, CollateRefs(comps, p, source, refs[..m - 1]).comps, p, refs, m - 1, hit);
      }
    }
  }

  lemma HitsStep(refs: seq<Ref>, source: Id, m: nat)
    requires m <= |refs|
    ensures HitsUpTo(refs, source, 0) == {}
    ensures m > 0 ==> m - 1 !in HitsUpTo(refs, source, m - 1)
    ensures m > 0 && refs[m - 1].source == source ==>
              HitsUpTo(refs, source, m) == HitsUpTo(refs, source, m - 1) + {m - 1}
    ensures m > 0 && refs[m - 1].source != source ==> HitsUpTo(refs, source, m) == HitsUpTo(refs, source, m - 1)
  {
  }

  lemma NoRefs(comps: Comps, p: Id, source: Id, refs: seq<Ref>)
    requires p in comps && source in comps
    ensures CollateRefs(comps, p, source, refs[..0]) == Collation(comps, false)
  {
  }

  /** A collation that does not raise serves its last reference from the values before it. */
  lemma QuietRef(first: Comps, comps: Comps, p: Id, source: Id, refs: seq<Ref>, m: nat)
    requires p in first && source in first && p in comps && source in comps && 0 < m <= |refs|
    requires !CollateRefs(comps, p, source, refs[..m]).raised
    ensures var before, after := CollateRefs(comps, p, source, refs[..m - 1]), CollateRefs(comps, p, source, refs[..m]);
      && !before.raised && before.comps.Keys == comps.Keys
      && if refs[m - 1].source != source then after == before
         else
           var v := Appended(Out(before.comps[p], refs[m - 1].name), Out(before.comps[source], refs[m - 1].variable));
           v.Some? && after == Collation(WithOutput(before.comps, p, refs[m - 1].name, v.value), false)
  {
    hide Appended;
    assert refs[..m][..m - 1] == refs[..m - 1];
  }

  lemma QuietRefFits(first: Comps, before: Comps, p: Id, refs: seq<Ref>, k: nat, done: set<nat>)
    requires p in first && p in before && k < |refs| && k !in done
    requires refs[k].source in first && refs[k].source in before && refs[k].source != p
    requires Effects(first, Collation(before, false), p, refs, done)
    requires Appended(Out(before[p], refs[k].name), Out(before[refs[k].source], refs[k].variable)).Some?
    ensures CanServe(first, p, refs[k]) && Appendable(first, p, refs[k])
  {
    hide Appended;
    assert Effect(first, before, p, refs[k], false);
  }

  lemma {:induction false} QuietCollationFits(g: Graph, comps: Comps, p: Id, ids: seq<Id>)
    requires p in g.specs && comps.Keys == g.specs.Keys && Known(g, ids) && g.specs[p].parent != Some(p)
    requires forall i, j | 0 <= i < j < |ids| :: ids[i] != ids[j]
    requires DistinctNames(g.specs[p].refs) && !Collate(g, comps, p, ids).raised
    ensures forall k: nat | k < |g.specs[p].refs| && k in HitsIn(g, p, g.specs[p].refs, ids) ::
      CanServe(comps, p, g.specs[p].refs[k])
    ensures Effects(comps, Collate(g, comps, p, ids), p, g.specs[p].refs, HitsIn(g, p, g.specs[p].refs, ids))
    decreases |ids|
  {
    hide Appended, CollateRefs, CanServe;
    var refs := g.specs[p].refs;
    if ids == [] {
      assert HitsIn(g, p, refs, []) == {};
    } else {
      var init, source := ids[..|ids| - 1], ids[|ids| - 1];
      assert ids == init + [source];
      var done := HitsIn(g, p, refs, init);
      QuietCollationFits(g, comps, p, init);
      if g.specs[source].parent == Some(p) {
        assert refs[..|refs|] == refs;
        QuietRefsFit(comps, Collate(g, comps, p, init).comps, p, source, refs, |refs|, done);
        assert HitsIn(g, p, refs, ids) == done + HitsUpTo(refs, source, |refs|);
      } else {
        assert HitsIn(g, p, refs, ids) == done;
      }
    }
  }

  /** A collation raises exactly when an output that it serves is something that values cannot be
      appended to. */
  lemma CollationRaisesExactly(g: Graph, comps: Comps, p: Id)
    requires WellFormed(g) && ListsAll(g) && p in g.specs && comps.Keys == g.specs.Keys
    requires DistinctNames(g.specs[p].refs) && g.specs[p].parent != Some(p)
    ensures Collate(g, comps, p, g.order).raised <==>
      exists k ::
        0 <= k < |g.specs[p].refs| && Serves(g, p, g.specs[p].refs[k]) && !CanServe(comps, p, g.specs[p].refs[k])
  {
    hide Appended, Collate, Effect;
    var refs := g.specs[p].refs;
    forall i, j | 0 <= i < j < |g.order| ensures g.order[i] != g.order[j] {
      assert Differ(g, i, j);
    }
    assert forall k: nat | k < |refs| && Serves(g, p, refs[k]) :: Listed(g, refs[k].source);
    assert forall k: nat | k < |refs| :: (k in HitsIn(g, p, refs, g.order) <==> Serves(g, p, refs[k]));
    if Collate(g, comps, p, g.order).raised {
      if forall k | 0 <= k < |refs| && Serves(g, p, refs[k]) :: CanServe(comps, p, refs[k]) {
        CollationAppendsEach(g, comps, p);
      }
    } else {
      QuietCollationFits(g, comps, p, g.order);
    }
  }
}
