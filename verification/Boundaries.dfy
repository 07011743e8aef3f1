/** That termination demands no more than it needs to: two small workflows whose runs never end,
    although each of them misses only one demand. Both consist of a begin, a container, its item
    and one component in its body. */
module Boundaries {
  import opened Wrappers
  import opened LoopConditions
  import opened Components
  import opened Scheduler
  import opened SchedulerLemmas
  import opened Termination
  import opened Threads
  import opened Entries
  import opened Unrolling
  import Loops
  import Reentry
  import Retrying

  function Simple(kind: Kind, downstream: seq<Id>, parent: Option<Id>): Spec {
    Spec(kind, downstream, parent, [], [], "", [], "", [], [], "or", 0)
  }

  function Sample(container: Spec, item: Spec): Graph {
    Graph(["i", "b", "p", "begin"],
          map["begin" := Simple(Begin, ["p"], None), "p" := container, "i" := item,
              "b" := Simple(Plain, [], Some("p"))])
  }

  ghost predicate Sampled(container: Spec, item: Spec) {
    && container.kind in {Loop, Iteration} && container.parent.None? && container.needs == []
    && container.excGoto == [] && container.routes == [] && container.maxLoops <= 0
    && (container.downstream == [] || container.downstream == ["p"])
    && item.kind == (if container.kind.Iteration? then IterationItem else LoopItem)
    && item.parent == Some("p") && item.downstream == ["b"] && item.needs == [] && item.excGoto == []
    && item.routes == []
  }

  lemma Names()
    ensures "begin" != "p" && "begin" != "i" && "begin" != "b" && "p" != "i" && "p" != "b" && "i" != "b"
  {
    assert "p"[0] != "i"[0] && "p"[0] != "b"[0] && "i"[0] != "b"[0];
    assert |"begin"| > |"p"| && |"p"| == |"i"| == |"b"|;
  }

  lemma SampleSpecs(c: Spec, i: Spec)
    ensures Sample(c, i).specs.Keys == {"begin", "p", "i", "b"} && Sample(c, i).order == ["i", "b", "p", "begin"]
    ensures Sample(c, i).specs["p"] == c && Sample(c, i).specs["i"] == i
    ensures Sample(c, i).specs["begin"] == Simple(Begin, ["p"], None)
    ensures Sample(c, i).specs["b"] == Simple(Plain, [], Some("p"))
  {
    Names();
  }

  lemma SampleFits(c: Spec, i: Spec)
    requires Sampled(c, i)
    ensures var g := Sample(c, i); WellFormed(g) && Straight(g, "p", "i", ["b"]) && Members(g, "p") == {"i", "b"}
  {
    Names();
    SampleSpecs(c, i);
    hide Sample;
    var g := Sample(c, i);
    assert IsStartOf(g, "p", "i");
    assert Start(g, "p") == Some("i");
    assert WellFormedSpec(g, "begin");
    assert Known(g, c.downstream);
    assert WellFormedSpec(g, "p");
    assert WellFormedSpec(g, "i");
    assert WellFormedSpec(g, "b");
    assert BodyAt(g, "p", ["b"], 0);
    FlatMembers(g, "p", {"i", "b"});
  }

  /** All control edges of a sample. */
  lemma SampleEdges(c: Spec, i: Spec, u: Id, v: Id)
    requires Sampled(c, i) && WellFormed(Sample(c, i)) && Edge(Sample(c, i), u, v)
    ensures (u == "begin" && v == "p") || (u in {"p", "b"} && v == "i") ||
            (u == "i" && (v == "b" || (v == "p" && "p" in c.downstream)))
  {
    Names();
    SampleSpecs(c, i);
    SampleFits(c, i);
    var g := Sample(c, i);
    hide WellFormed;
    assert Start(g, "p") == Some("i");
  }

  const RANKS: map<Id, nat> := map["begin" := 0, "p" := 1, "i" := 0, "b" := 0]

  lemma SampleRanked(c: Spec, i: Spec)
    requires Sampled(c, i)
    ensures Ranked(Sample(c, i), RANKS, 1)
    ensures WellFormed(Sample(c, i)) && SingleThread(Sample(c, i), "p")
  {
    Names();
    SampleSpecs(c, i);
    SampleFits(c, i);
    var g := Sample(c, i);
    hide WellFormed, Edge, SingleThread, Straight, Sample;
    forall u, v | Edge(g, u, v) && u in RANKS && v in RANKS && !ItemAt(g, u) && !ItemAt(g, v)
      ensures RANKS[u] < RANKS[v]
    {
      SampleEdges(c, i, u, v);
    }
    forall u, v | Edge(g, u, v) && v in Members(g, "p") ensures u in Home(g, "p") {
      SampleEdges(c, i, u, v);
    }
    StraightIsSingleThread(g, "p", "i", ["b"]);
  }

  // ----- runs -----

  const SILENCE := Reply(false, Fine, Text, None, map[], {}, Missing("not found"), [], Streaming(false, {}, map[]))

  /** Nothing goes wrong but that no list can be read. */
  ghost predicate Silent(o: Oracle) {
    forall k: nat :: o(k) == SILENCE
  }

  /** The container, at position 1, cannot read its list either, and raises. */
  ghost predicate Failing(o: Oracle) {
    forall k: nat :: o(k) == if k == 1 then SILENCE.(outcome := Raised("not found")) else SILENCE
  }

  function Fresh(g: Graph): Comps {
    map v | v in g.specs :: Comp("", false, true, Unset, 0, map[])
  }

  function Begun(c: Spec, i: Spec): (s: RunState)
    requires WellFormed(Sample(c, i))
    ensures s.status.Running? ==> Ready(Sample(c, i), s)
  {
    Enter(Sample(c, i), [], Fresh(Sample(c, i)), false)
  }

  lemma SampleStarts(c: Spec, i: Spec)
    requires Sampled(c, i)
    ensures WellFormed(Sample(c, i)) && Onward(Sample(c, i), "begin", "p") && Onward(Sample(c, i), "p", "i")
    ensures Solo(Sample(c, i), Begun(c, i), "begin") && Begun(c, i).idx == 0
    ensures NoErrors(Begun(c, i).flow.comps, ["begin", "p"])
  {
    Names();
    SampleSpecs(c, i);
    SampleFits(c, i);
    assert Begun(c, i).flow.path == ["begin"];
    ContainerOnward(Sample(c, i), "p", "i", ["b"]);
    hide WellFormed, Sample, Straight;
  }

  /** Two rounds in a row that each hand over to one component. */
  lemma TwoRounds(g: Graph, o: Oracle, s: RunState, u: Id, v: Id, w: Id)
    requires Onward(g, u, v) && Onward(g, v, w) && Solo(g, s, u)
    requires g.specs[u].needs == [] && Untroubled(g, u, o(s.idx), {}) && s.flow.comps[u].error == ""
    requires g.specs[v].needs == [] && Untroubled(g, v, o(s.idx + 1), {}) && s.flow.comps[v].error == ""
    ensures var r := Rounds(g, o, s, 2);
      Solo(g, r, w) && r.idx == s.idx + 2 && Steady(s.flow.comps, r.flow.comps, {})
  {
    hide Round, Rounds, WellFormed, Steady, Onward, Untroubled;
    OnwardEnds(g, u, v);
    OnwardEnds(g, v, w);
    OnwardRound(g, o, s, {}, u, v);
    var t := Round(g, o, s);
    SteadyAt(s.flow.comps, t.flow.comps, {}, v);
    OnwardRound(g, o, t, {}, v, w);
    SteadyTwice(s.flow.comps, t.flow.comps, Round(g, o, t).flow.comps, {});
    RoundsZero(g, o, s);
    OneMoreRound(g, o, s, 0);
    OneMoreRound(g, o, s, 1);
  }

  lemma OnwardEnds(g: Graph, u: Id, w: Id)
    requires Onward(g, u, w)
    ensures u in g.specs && w in g.specs && WellFormed(g)
  {
  }

  lemma RoundsZero(g: Graph, o: Oracle, s: RunState)
    requires s.status.Running? ==> Ready(g, s)
    ensures Rounds(g, o, s, 0) == s
  {
    hide Round;
  }

  /** Two rounds bring control to the item, and disturb nothing. */
  lemma ToTheItem(c: Spec, i: Spec, o: Oracle)
    requires Sampled(c, i) && WellFormed(Sample(c, i))
    requires Silent(o) || (Failing(o) && c.excMethod == "comment" && c.excDefault != "")
    ensures var g, s := Sample(c, i), Begun(c, i);
      && Solo(g, s, "begin") && s.idx == 0 && Solo(g, Rounds(g, o, s, 2), "i") && Rounds(g, o, s, 2).idx == 2
      && Steady(s.flow.comps, Rounds(g, o, s, 2).flow.comps, {})
  {
    SampleSpecs(c, i);
    SampleStarts(c, i);
    var g, s := Sample(c, i), Begun(c, i);
    var ids := ["begin", "p"];
    assert s.flow.comps[ids[0]].error == "" && s.flow.comps[ids[1]].error == "";
    hide Round, Rounds, WellFormed, Steady, Sample, Begun, Onward, NoErrors;
    TwoRounds(g, o, s, "begin", "p", "i");
  }

  lemma SampleThreaded(c: Spec, i: Spec)
    requires Sampled(c, i) && !HidesFailure(i)
    ensures WellFormed(Sample(c, i)) && Threaded(Sample(c, i))
  {
    hide WellFormed, Sample, SingleThread, HidesFailure, Straight, Members, Ranked;
    Names();
    SampleSpecs(c, i);
    SampleFits(c, i);
    SampleRanked(c, i);
    hide WellFormed, Sample, SingleThread, HidesFailure;
  }

  /** The bounds and the start of a sample's run. */
  lemma SampleBegins(c: Spec, i: Spec, o: Oracle)
    requires Sampled(c, i) && (Silent(o) || Failing(o))
    ensures WellFormed(Sample(c, i)) && AllWithin(Sample(c, i), o, 0)
    ensures Begun(c, i).status.Running? && Outside(Sample(c, i), Begun(c, i), 0)
    ensures AtRoot(Sample(c, i), PLAN, Begun(c, i))
    ensures NoErrors(Begun(c, i).flow.comps, ["p", "i", "b"]) && Begun(c, i).flow.comps["i"].counter == 0
  {
    hide WellFormed, Straight, Members;
    Names();
    SampleSpecs(c, i);
    SampleFits(c, i);
    assert Begun(c, i).flow.path == ["begin"];
    hide WellFormed, Sample;
  }

  lemma LoopOrbit(c: Spec, i: Spec, o: Oracle, s: RunState, t: RunState)
    requires Sampled(c, i) && c.kind.Loop? && c.downstream == ["p"] && c.maxLoops == 0
    requires c.conditions == [] && c.logic == "or" && Silent(o)
    requires Solo(Sample(c, i), t, "i") && Steady(s.flow.comps, t.flow.comps, {})
    requires NoErrors(s.flow.comps, ["p", "i", "b"]) && s.flow.comps["i"].counter == 0
    ensures var x := Loops.LoopSite("p", "i", ["b"]);
      && Reentry.SelfFeeding(Sample(c, i), x) && Reentry.Undisturbed(Sample(c, i), o, x)
      && Reentry.Orbit(Sample(c, i), t, x, 0)
  {
    hide WellFormed, Sample, Straight, Members;
    SampleSpecs(c, i);
    SampleFits(c, i);
    EmptyList([]);
    var ids := ["p", "i", "b"];
    assert s.flow.comps[ids[0]].error == "" && s.flow.comps[ids[1]].error == "" && s.flow.comps[ids[2]].error == "";
  }

  /** A loop that allows no pass and is its own successor. */
  ghost predicate SelfFeedingSample(c: Spec, i: Spec) {
    && Sampled(c, i) && c.kind.Loop? && c.downstream == ["p"] && c.maxLoops == 0
    && c.conditions == [] && c.logic == "or"
  }

  /** No component of a sample hands control to more than one. */
  lemma SampleNeverForks(c: Spec, i: Spec)
    requires Sampled(c, i)
    ensures WellFormed(Sample(c, i)) && Fed(Sample(c, i), Sample(c, i).specs.Keys, Sample(c, i).specs.Keys)
  {
    Names();
    SampleSpecs(c, i);
    SampleFits(c, i);
    var g := Sample(c, i);
    var all := g.specs.Keys;
    assert Start(g, "p") == Some("i");
    hide WellFormed, Sample, Straight, Members;
    forall u | u in all ensures Narrow(g, u, all) {
      CountInZero([], all);
      CountInAtMost(Successors(g, u, false, []), all);
      CountInAtMost(c.downstream, all);
    }
  }

  lemma SampleIsLone(c: Spec, i: Spec, o: Oracle, n: nat)
    requires Sampled(c, i) && (Silent(o) || Failing(o)) && WellFormed(Sample(c, i)) && Begun(c, i).status.Running?
    ensures LoneUpTo(Sample(c, i), o, "p", Begun(c, i), n)
  {
    SampleNeverForks(c, i);
    SampleStarts(c, i);
    SampleSpecs(c, i);
    SampleFits(c, i);
    var g, s := Sample(c, i), Begun(c, i);
    hide WellFormed, Round, Rounds, Sample, Begun, Fed, CountIn, Onward, NoErrors, Straight;
    assert Home(g, "p") <= g.specs.Keys;
    forall k: nat | k < n && Rounds(g, o, s, k).status.Running? ensures Lone(g, "p", Rounds(g, o, s, k)) {
      NeverForks(g, o, s, k);
      CountInWithin(Rounds(g, o, s, k).flow.path[Rounds(g, o, s, k).idx..], Home(g, "p"), g.specs.Keys);
    }
  }

  /** A run that never ends meets every demand of `ThreadedRunsEnd` but that containers are
      entered only so often. */
  lemma EnteringAgainMayNeverEnd(c: Spec, i: Spec, o: Oracle, n: nat)
    requires SelfFeedingSample(c, i) && Silent(o)
    ensures var g := Sample(c, i);
      && Ranked(g, RANKS, 1) && Threaded(g) && AllWithin(g, o, 0)
      && Begun(c, i).status.Running? && Outside(g, Begun(c, i), 0)
      && LoneUpTo(g, o, "p", Begun(c, i), n) && Rounds(g, o, Begun(c, i), n).status.Running?
  {
    hide WellFormed, Round, SingleThread, Steady, Straight, Sample, Threaded, Outside, Ranked, AllWithin, NoErrors,
      LoneUpTo, Reentry.SelfFeeding, Reentry.Undisturbed, Reentry.Orbit;
    SampleRanked(c, i);
    var g, s := Sample(c, i), Begun(c, i);
    SampleThreaded(c, i);
    SampleBegins(c, i, o);
    SampleIsLone(c, i, o, n);
    ToTheItem(c, i, o);
    LoopOrbit(c, i, o, s, Rounds(g, o, s, 2));
    Reentry.SelfFeedingLoopNeverEnds(g, o, Rounds(g, o, s, 2), Loops.LoopSite("p", "i", ["b"]), n);
    RoundsAdd(g, o, s, 2, n);
    RunningBefore(g, o, s, n, 2 + n);
  }

  const PLAN: Plan := map["begin" := Place(None, 0, 0), "p" := Place(Some("begin"), 1, 0)]

  lemma SampleTree(c: Spec, i: Spec)
    requires Sampled(c, i) && c.downstream == []
    ensures WellFormed(Sample(c, i)) && Tree(Sample(c, i), PLAN, 0)
  {
    hide WellFormed, Edge, Sample, Straight, Members;
    Names();
    SampleSpecs(c, i);
    SampleFits(c, i);
    var g := Sample(c, i);
    NoMembers(g, "begin");
    var among := Reach(g, "begin", "p");
    assert among == {"p"};
    assert Successors(g, "begin", false, []) == ["p"];
    CountInAtMost(["p"], among);
    CountInZero([], among);
    assert Narrow(g, "begin", among);
    forall u, v | Edge(g, u, v) && v in among ensures u in Home(g, "begin") {
      SampleEdges(c, i, u, v);
    }
    assert Fed(g, Home(g, "begin"), among);
    forall u ensures !Edge(g, u, "begin") {
      if Edge(g, u, "begin") {
        SampleEdges(c, i, u, "begin");
      }
    }
    assert Branch(g, PLAN, "p") && Branch(g, PLAN, "begin");
  }

  lemma RetryTrying(c: Spec, i: Spec, o: Oracle, s: RunState, t: RunState)
    requires Sampled(c, i) && HidesFailure(i) && Failing(o) && t.idx >= 2
    requires Solo(Sample(c, i), t, "i") && Steady(s.flow.comps, t.flow.comps, {})
    requires NoErrors(s.flow.comps, ["p", "i", "b"]) && s.flow.comps["i"].counter == 0
    ensures Retrying.Hiding(Sample(c, i), "p", "i", ["b"]) && Retrying.Unreadable(o, 2)
    ensures Retrying.Trying(Sample(c, i), t, "i", ["b"], 2)
  {
    hide WellFormed, Sample, Straight, Members;
    SampleSpecs(c, i);
    SampleFits(c, i);
    var ids := ["p", "i", "b"];
    assert s.flow.comps[ids[0]].error == "" && s.flow.comps[ids[1]].error == "" && s.flow.comps[ids[2]].error == "";
  }

  /** An iteration that replaces every error by a default, and whose item answers its failures. */
  ghost predicate HidingSample(c: Spec, i: Spec) {
    && Sampled(c, i) && c.kind.Iteration? && c.downstream == [] && Forgiving(i)
    && c.excMethod == "comment" && c.excDefault != ""
  }

  /** A run that never ends meets every demand of `ConfiguredRunsEnd` but that the item's handler
      does not hide its failures. Neither the container nor its item can ever read the list. */
  lemma HidingFailuresMayNeverEnd(c: Spec, i: Spec, o: Oracle, n: nat)
    requires HidingSample(c, i) && Failing(o)
    ensures var g := Sample(c, i);
      && Ranked(g, RANKS, 1) && SingleThread(g, "p") && Tree(g, PLAN, 0) && AllWithin(g, o, 0)
      && Begun(c, i).status.Running? && Outside(g, Begun(c, i), 0) && AtRoot(g, PLAN, Begun(c, i))
      && Rounds(g, o, Begun(c, i), n).status.Running?
  {
    hide WellFormed, Round, SingleThread, Steady, Straight, Sample, Threaded, Outside, Ranked, Tree, AllWithin,
      NoErrors,
      Retrying.Hiding, Retrying.Unreadable, Retrying.Trying;
    SampleRanked(c, i);
    var g, s := Sample(c, i), Begun(c, i);
    SampleTree(c, i);
    SampleBegins(c, i, o);
    ToTheItem(c, i, o);
    RetryTrying(c, i, o, s, Rounds(g, o, s, 2));
    Retrying.HiddenFailureNeverEnds(g, o, Rounds(g, o, s, 2), "p", "i", ["b"], 2, n);
    RoundsAdd(g, o, s, 2, n);
    RunningBefore(g, o, s, n, 2 + n);
  }

  /** There are such workflows. */
  lemma SamplesExist()
    ensures SelfFeedingSample(Simple(Loop, ["p"], None), Simple(LoopItem, ["b"], Some("p")))
    ensures HidingSample(Simple(Iteration, [], None).(excMethod := "comment", excDefault := "none"),
                         Simple(IterationItem, ["b"], Some("p")).(excMethod := "comment", excDefault := "none"))
  {
  }
}
