/** Small facts about the functions of module `Scheduler`. */
module SchedulerLemmas {
  import opened Components
  import opened Scheduler

  /** What the filter still has to keep when it has come to position `i` of the path. */
  function Scan(g: Graph, path: seq<Id>, i: nat): seq<Id>
    requires Known(g, path) && i <= |path|
  {
    Keep(g, path[..i], path[i..])
  }

  lemma ScanAt(g: Graph, path: seq<Id>, i: nat)
    requires Known(g, path) && i < |path|
    ensures path[i] in g.specs && path[..i + 1] == path[..i] + [path[i]]
    ensures Admitted(g, path[..i], path[i]) ==> Scan(g, path, i) == [path[i]] + Scan(g, path, i + 1)
    ensures !Admitted(g, path[..i], path[i]) ==>
      var shorter := path[..i] + path[i + 1..];
      Known(g, shorter) && shorter[..i] == path[..i] && Scan(g, path, i) == Scan(g, shorter, i)
  {
    hide Admitted;
    assert path[i..][1..] == path[i + 1..];
    assert path[..i] + [path[i]] == path[..i + 1];
    var shorter := path[..i] + path[i + 1..];
    assert shorter[..i] == path[..i] && shorter[i..] == path[i + 1..];
  }

  lemma ScanEnd(g: Graph, path: seq<Id>)
    requires Known(g, path)
    ensures Scan(g, path, |path|) == [] && path[..|path|] == path
  {
    assert path[|path|..] == [];
  }

  lemma ExtendOne(path: seq<Id>, v: Id)
    ensures Extend(path, [v]) == Append(path, v)
  {
    assert Extend(path, [v][..0]) == path;
  }

  lemma {:induction false} CollateRefsRaised(comps: Comps, p: Id, source: Id, refs: seq<Ref>, k: nat)
    requires p in comps && source in comps && k <= |refs|
    requires CollateRefs(comps, p, source, refs[..k]).raised
    ensures CollateRefs(comps, p, source, refs) == CollateRefs(comps, p, source, refs[..k])
    decreases |refs|
  {
    if k < |refs| {
      assert refs[..|refs| - 1][..k] == refs[..k];
      CollateRefsRaised(comps, p, source, refs[..|refs| - 1], k);
    } else {
      assert refs[..k] == refs;
    }
  }

  lemma {:induction false} CollateRaised(g: Graph, comps: Comps, p: Id, ids: seq<Id>, k: nat)
    requires p in comps && p in g.specs && Known(g, ids) && comps.Keys == g.specs.Keys && k <= |ids|
    requires Collate(g, comps, p, ids[..k]).raised
    ensures Collate(g, comps, p, ids) == Collate(g, comps, p, ids[..k])
    decreases |ids|
  {
    if k < |ids| {
      assert ids[..|ids| - 1][..k] == ids[..k];
      CollateRaised(g, comps, p, ids[..|ids| - 1], k);
    } else {
      assert ids[..k] == ids;
    }
  }

  lemma {:induction false} CrashStays(g: Graph, o: Oracle, f: Flow, from: nat, k: nat, hi: nat)
    requires Sound(g, f) && from <= k <= hi <= |f.path|
    requires PostUpTo(g, o, f, from, k).crashed
    ensures PostUpTo(g, o, f, from, hi) == PostUpTo(g, o, f, from, k)
    decreases hi
  {
    hide Post;
    if k < hi {
      CrashStays(g, o, f, from, k, hi - 1);
    }
  }

  lemma {:induction false} OverStays(g: Graph, o: Oracle, s: RunState, n: nat)
    requires !s.status.Running?
    ensures Rounds(g, o, s, n) == s
  {
    if n > 0 {
      OverStays(g, o, s, n - 1);
    }
  }

  lemma {:induction false} RoundsAdd(g: Graph, o: Oracle, s: RunState, m: nat, n: nat)
    requires s.status.Running? ==> Ready(g, s)
    ensures Rounds(g, o, s, m + n) == Rounds(g, o, Rounds(g, o, s, m), n)
  {
    if n > 0 {
      RoundsAdd(g, o, s, m, n - 1);
    }
  }

  lemma RoundOver(g: Graph, o: Oracle, s: RunState)
    requires !s.status.Running?
    ensures Round(g, o, s) == s
  {
  }

  /** The run goes on or has finished: nothing went wrong, and it did not pause. */
  predicate Unbroken(s: RunState) {
    s.status.Running? || s.status.Finished?
  }

  /** A run that is still going has not been over before. */
  lemma RunningBefore(g: Graph, o: Oracle, s: RunState, m: nat, n: nat)
    requires s.status.Running? && Ready(g, s) && m <= n && Rounds(g, o, s, n).status.Running?
    ensures Rounds(g, o, s, m).status.Running?
  {
    hide Round;
    if !Rounds(g, o, s, m).status.Running? {
      RoundsAdd(g, o, s, m, n - m);
      OverStays(g, o, Rounds(g, o, s, m), n - m);
    }
  }
}
