/** A loop inside a loop, to which the termination theorem applies: begin, the outer loop `p` with
    its item `i`, in its body the inner loop `q` with item `j` and component `b`, and `c` after it. */
module Nesting {
  import opened Wrappers
  import opened Components
  import opened Scheduler
  import opened Termination
  import opened Threads
  import opened Entries
  import opened Boundaries

  const INSIDE: set<Id> := {"i", "q", "j", "b", "c"}

  function Nested(most: int): Graph {
    Graph(["i", "j", "p", "q", "b", "c", "begin"],
          map["begin" := Simple(Begin, ["p"], None),
              "p" := Simple(Loop, [], None).(maxLoops := most), "i" := Simple(LoopItem, ["q"], Some("p")),
              "q" := Simple(Loop, ["c"], Some("p")).(maxLoops := most), "j" := Simple(LoopItem, ["b"], Some("q")),
              "b" := Simple(Plain, [], Some("q")), "c" := Simple(Plain, [], Some("p"))])
  }

  ghost predicate IsNested(g: Graph, most: int) {
    && g.specs.Keys == {"begin", "p"} + INSIDE && g.order == ["i", "j", "p", "q", "b", "c", "begin"]
    && g.specs["begin"] == Simple(Begin, ["p"], None) && g.specs["p"] == Simple(Loop, [], None).(maxLoops := most)
    && g.specs["i"] == Simple(LoopItem, ["q"], Some("p"))
    && g.specs["q"] == Simple(Loop, ["c"], Some("p")).(maxLoops := most)
    && g.specs["j"] == Simple(LoopItem, ["b"], Some("q"))
    && g.specs["b"] == Simple(Plain, [], Some("q")) && g.specs["c"] == Simple(Plain, [], Some("p"))
  }

  lemma Letters()
    ensures "begin" !in {"p"} + INSIDE && "p" !in INSIDE && |INSIDE| == 5
    ensures "i" != "q" && "i" != "j" && "i" != "b" && "i" != "c" && "q" != "j" && "q" != "b" && "q" != "c"
    ensures "j" != "b" && "j" != "c" && "b" != "c"
  {
    assert |"begin"| == 5;
    assert "p"[0] == 'p' && "i"[0] == 'i' && "q"[0] == 'q' && "j"[0] == 'j' && "b"[0] == 'b' && "c"[0] == 'c';
  }

  lemma NestedFits(most: int)
    ensures IsNested(Nested(most), most)
  {
    Letters();
  }

  lemma NestedStarts(g: Graph, most: int)
    requires IsNested(g, most)
    ensures Start(g, "p") == Some("i") && Start(g, "q") == Some("j")
  {
    Letters();
    assert !IsStartOf(g, "q", "i");
    assert g.order[1..][0] == "j";
    assert StartIn(g, "q", g.order[1..]) == Some("j");
  }

  lemma ContainersFit(g: Graph, most: int)
    requires IsNested(g, most)
    ensures "p" in g.specs && "q" in g.specs && WellFormedSpec(g, "p") && WellFormedSpec(g, "q")
  {
    hide StartIn;
    Letters();
    NestedStarts(g, most);
  }

  lemma OthersFit(g: Graph, most: int)
    requires IsNested(g, most)
    ensures forall v | v in {"begin", "i", "j", "b", "c"} :: v in g.specs && WellFormedSpec(g, v)
  {
    hide StartIn;
    Letters();
    assert g.specs["p"].downstream == [] && g.specs["q"].downstream == ["c"];
  }

  lemma NestedIsWellFormed(g: Graph, most: int)
    requires IsNested(g, most)
    ensures WellFormed(g)
  {
    hide WellFormedSpec;
    ContainersFit(g, most);
    OthersFit(g, most);
  }

  /** Where control goes from each component, and where it goes from an item that has ended. */
  function Next(u: Id): Id {
    if u == "begin" then "p" else if u == "p" || u == "c" then "i" else if u == "i" then "q"
    else if u == "q" || u == "b" then "j" else "b"
  }

  lemma NestedMoves(g: Graph, most: int, u: Id)
    requires IsNested(g, most) && WellFormed(g) && u in g.specs
    ensures Successors(g, u, false, []) == [Next(u)]
    ensures u == "i" ==> Successors(g, u, true, []) == []
    ensures u == "j" ==> Successors(g, u, true, []) == ["c"]
  {
    hide WellFormed, StartIn;
    if u in {"b", "c"} {
      LeafMoves(g, most, u);
    } else {
      Letters();
      NestedStarts(g, most);
    }
  }

  lemma LeafMoves(g: Graph, most: int, u: Id)
    requires IsNested(g, most) && WellFormed(g) && u in {"b", "c"}
    ensures Successors(g, u, false, []) == [Next(u)] && u != "i" && u != "j"
  {
    hide WellFormed, StartIn;
    Letters();
    NestedStarts(g, most);
  }

  lemma NestedEdges(g: Graph, most: int, u: Id, v: Id)
    requires IsNested(g, most) && WellFormed(g) && Edge(g, u, v)
    ensures v == Next(u) || (u == "j" && v == "c")
  {
    hide WellFormed, Successors, StartIn, Next;
    Letters();
    NestedMoves(g, most, u);
  }

  lemma NestedMembers(g: Graph, most: int)
    requires IsNested(g, most) && WellFormed(g)
    ensures Members(g, "p") == INSIDE && Members(g, "q") == {"j", "b"} && Members(g, "i") == {}
    ensures Members(g, "begin") == {}
  {
    hide WellFormed, Members, IsNested, ItemAt;
    KindsOf(g, most);
    ParentsOf(g, most);
    InnerMembers(g, most);
    NoMembers(g, "i");
    NoMembers(g, "begin");
    DirectMembers(g, "i");
    DirectMembers(g, "q");
    DirectMembers(g, "c");
    Threads.NestedMembers(g, "p", "q");
    forall v | v in Members(g, "p") ensures v in INSIDE {
      MembersKnown(g, v, "p");
      MembersHaveParents(g, v, "p");
    }
  }

  lemma InnerMembers(g: Graph, most: int)
    requires IsNested(g, most) && WellFormed(g)
    ensures Members(g, "q") == {"j", "b"} && g.specs["c"].parent == Some("p")
    ensures !IsContainer(g.specs["i"].kind) && !IsContainer(g.specs["begin"].kind)
  {
    hide WellFormed, Members;
    Letters();
    FlatMembers(g, "q", {"j", "b"});
  }

  lemma MembersKnown(g: Graph, v: Id, p: Id)
    requires v in Members(g, p)
    ensures v in g.specs
  {
  }

  lemma NestedNarrow(g: Graph, most: int, u: Id, among: set<Id>)
    requires IsNested(g, most) && WellFormed(g) && u in g.specs
    ensures Narrow(g, u, among)
  {
    hide WellFormed, Successors, CountIn, Next;
    Letters();
    NestedMoves(g, most, u);
    CountInAtMost([Next(u)], among);
    CountInAtMost(Successors(g, u, true, []), among);
    CountInZero([], among);
  }

  /** `among` is fed from `home` when the only ways into it start there. */
  lemma NestedFed(g: Graph, most: int, home: set<Id>, among: set<Id>)
    requires IsNested(g, most) && WellFormed(g) && home <= g.specs.Keys
    requires forall u | u in g.specs && Next(u) in among :: u in home
    requires "c" in among ==> "j" in home
    ensures Fed(g, home, among)
  {
    hide WellFormed, Successors, CountIn, Edge, Narrow, Next, IsNested;
    forall u | u in home ensures u in g.specs && Narrow(g, u, among) {
      NestedNarrow(g, most, u, among);
    }
    EdgesFromKnown(g);
    forall u, v | Edge(g, u, v) && v in among ensures u in home {
      NestedEdges(g, most, u, v);
    }
  }

  lemma WaysIn()
    ensures forall u | u in {"begin", "p"} + INSIDE ::
      && (Next(u) in INSIDE ==> u in INSIDE + {"p"}) && (Next(u) in {"j", "b"} ==> u in {"j", "b", "q"})
      && (Next(u) == "p" ==> u == "begin") && (Next(u) == "q" ==> u == "i")
  {
    Letters();
  }

  lemma KindTable(g: Graph, most: int)
    requires IsNested(g, most)
    ensures g.specs.Keys == {"begin", "p", "i", "q", "j", "b", "c"}
    ensures g.specs["begin"].kind.Begin? && g.specs["p"].kind.Loop? && g.specs["q"].kind.Loop?
    ensures g.specs["i"].kind.LoopItem? && g.specs["j"].kind.LoopItem?
    ensures g.specs["b"].kind.Plain? && g.specs["c"].kind.Plain?
  {
    assert {"begin", "p"} + INSIDE == {"begin", "p", "i", "q", "j", "b", "c"};
  }

  /** The items of the workflow, and its containers. */
  lemma KindsOf(g: Graph, most: int)
    requires IsNested(g, most)
    ensures forall w | ItemAt(g, w) :: w == "i" || w == "j"
    ensures forall p | p in g.specs && IsContainer(g.specs[p].kind) :: p == "p" || p == "q"
    ensures !ItemAt(g, "begin") && !ItemAt(g, "p") && !ItemAt(g, "q") && ItemAt(g, "i") && ItemAt(g, "j")
  {
    hide IsNested;
    KindTable(g, most);
  }

  lemma ParentsOf(g: Graph, most: int)
    requires IsNested(g, most)
    ensures g.specs["begin"].parent.None? && g.specs["p"].parent.None? && g.specs["q"].parent == Some("p")
    ensures g.specs["i"].parent == Some("p") && g.specs["j"].parent == Some("q")
    ensures !HidesFailure(g.specs["i"]) && !HidesFailure(g.specs["j"])
    ensures g.specs.Keys == {"begin", "p"} + INSIDE
  {
    Letters();
  }

  lemma OuterThread(g: Graph, most: int)
    requires IsNested(g, most) && WellFormed(g)
    ensures SingleThread(g, "p")
  {
    hide WellFormed, Successors, CountIn, Members, Fed, Narrow, Leaves, IsNested, Next, ItemAt;
    KindsOf(g, most);
    ParentsOf(g, most);
    NestedMembers(g, most);
    WaysIn();
    assert "p" !in INSIDE by { Letters(); }
    assert "p" != "q" by { Letters(); }
    NestedFed(g, most, Home(g, "p"), INSIDE);
    NestedLeaves(g, most);
  }

  lemma InnerThread(g: Graph, most: int)
    requires IsNested(g, most) && WellFormed(g)
    ensures SingleThread(g, "q")
  {
    hide WellFormed, Successors, CountIn, Members, Fed, Narrow, Leaves, IsNested, Next, ItemAt;
    KindsOf(g, most);
    ParentsOf(g, most);
    NestedMembers(g, most);
    WaysIn();
    assert "p" != "q" && "q" != "j" && "q" != "b" && "c" != "j" && "c" != "b" by { Letters(); }
    assert Home(g, "q") == {"j", "b", "q"};
    NestedFed(g, most, Home(g, "q"), {"j", "b"});
    NestedLeaves(g, most);
  }

  lemma NestedThreads(g: Graph, most: int)
    requires IsNested(g, most) && WellFormed(g)
    ensures Threaded(g)
  {
    hide WellFormed, SingleThread, IsNested, ItemAt, HidesFailure;
    KindsOf(g, most);
    ParentsOf(g, most);
    OuterThread(g, most);
    InnerThread(g, most);
  }

  lemma NestedLeaves(g: Graph, most: int)
    requires IsNested(g, most) && WellFormed(g) && Members(g, "p") == INSIDE && Members(g, "q") == {"j", "b"}
    ensures ItemAt(g, "i") && ItemAt(g, "j") && Leaves(g, "p", "i") && Leaves(g, "q", "j")
  {
    hide WellFormed, Successors, CountIn, Members;
    Letters();
    NestedMoves(g, most, "i");
    NestedMoves(g, most, "j");
    CountInZero([], INSIDE);
    CountInZero([], {"j", "b"});
    CountInZero(["c"], {"j", "b"});
  }

  lemma EdgesFromKnown(g: Graph)
    requires WellFormed(g)
    ensures forall u, v | Edge(g, u, v) :: u in g.specs
  {
    hide WellFormed, Successors;
  }

  const STEPS: map<Id, nat> := map v | v in {"begin", "p"} + INSIDE :: if v == "begin" then 0 else 1

  const PLACES: Plan :=
    map["begin" := Place(None, 0, 0), "p" := Place(Some("begin"), 1, 0), "i" := Place(None, 2, 1),
        "q" := Place(Some("i"), 3, 1)]

  lemma NestedTree(g: Graph, most: int)
    requires IsNested(g, most) && WellFormed(g)
    ensures Tree(g, PLACES, 1)
  {
    hide WellFormed, Successors, Members, Fed, Edge, IsNested, Next, ItemAt, Branch;
    KindsOf(g, most);
    ParentsOf(g, most);
    OuterBranches(g, most);
    InnerBranches(g, most);
  }

  lemma OuterBranches(g: Graph, most: int)
    requires IsNested(g, most) && WellFormed(g)
    ensures Branch(g, PLACES, "begin") && Branch(g, PLACES, "p")
  {
    hide WellFormed, Successors, Members, Fed, Edge, IsNested, Next, ItemAt;
    KindsOf(g, most);
    ParentsOf(g, most);
    NestedMembers(g, most);
    WaysIn();
    assert "begin" != "p" && "c" != "p" by { Letters(); }
    assert Reach(g, "begin", "p") == {"p"} && Home(g, "begin") == {"begin"};
    NestedFed(g, most, {"begin"}, {"p"});
    forall u ensures !Edge(g, u, "begin") {
      NoWayBack(g, most, u);
    }
  }

  lemma InnerBranches(g: Graph, most: int)
    requires IsNested(g, most) && WellFormed(g)
    ensures Branch(g, PLACES, "i") && Branch(g, PLACES, "q")
  {
    hide WellFormed, Successors, Members, Fed, Edge, IsNested, Next, ItemAt;
    KindsOf(g, most);
    ParentsOf(g, most);
    NestedMembers(g, most);
    WaysIn();
    assert "i" != "q" && "c" != "q" && "p" != "i" && "p" != "q" by { Letters(); }
    assert Reach(g, "i", "q") == {"q"} && Home(g, "i") == {"i"};
    NestedFed(g, most, {"i"}, {"q"});
  }

  lemma NoWayBack(g: Graph, most: int, u: Id)
    requires IsNested(g, most) && WellFormed(g)
    ensures !Edge(g, u, "begin")
  {
    hide WellFormed, Edge;
    Letters();
    if Edge(g, u, "begin") {
      NestedEdges(g, most, u, "begin");
    }
  }

  /** The workflow meets all that termination asks of a configuration. */
  lemma NestedIsConfigured(most: int)
    ensures WellFormed(Nested(most)) && Configured(Nested(most), STEPS, 1, PLACES, 1)
  {
    hide WellFormed, Tree, Threaded, Ranked, Nested;
    var g := Nested(most);
    NestedFits(most);
    NestedIsWellFormed(g, most);
    NestedThreads(g, most);
    NestedTree(g, most);
    NestedRanked(g, most);
  }

  /** So nested loops end, whatever their tests say. */
  lemma NestedRunsEnd(o: Oracle, most: nat, s: RunState, n: nat)
    requires s.status.Running? && Ready(Nested(most), s)
    requires AtRoot(Nested(most), PLACES, s) && Outside(Nested(most), s, most)
    requires n > (|Items(Nested(most))| * ((most + 2) * Power(most + 2, 1))) * 3 + 2
    ensures !Rounds(Nested(most), o, s, n).status.Running?
  {
    hide WellFormed, Round, Rounds, Configured, AtRoot, Outside, AllWithin, Nested, Power;
    NestedIsConfigured(most);
    NestedFits(most);
    NestedWithin(Nested(most), o, most);
    ConfiguredRunsEnd(Nested(most), o, STEPS, 1, PLACES, 1, most, s, n);
  }

  lemma NestedRanked(g: Graph, most: int)
    requires IsNested(g, most) && WellFormed(g)
    ensures Ranked(g, STEPS, 1)
  {
    hide WellFormed, Edge;
    Letters();
    forall u, v | Edge(g, u, v) ensures v == Next(u) || (u == "j" && v == "c") {
      NestedEdges(g, most, u, v);
    }
  }

  lemma NestedWithin(g: Graph, o: Oracle, most: nat)
    requires IsNested(g, most) && WellFormed(g)
    ensures AllWithin(g, o, most)
  {
    hide WellFormed;
    Letters();
  }
}
