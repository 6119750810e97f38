/**
 Concrete scenarios: the nested-schedules example tree, a parent nested
 in itself, and a state that changes while its schedule runs.
 */
module Scenarios {
  import opened Host
  import opened Labels
  import opened Containers
  import opened Executor
  import opened Nesting
  import opened States
  import opened Fuel

  /** The tuple `(A, B)` the example nests under `Update`. */
  const UpdateChildren: TupleLabels := ["A", "B"]

  /** The tuple `(AChildren::A, AChildren::B)` the example nests under `A`. */
  const AChildren: TupleLabels := ["AChildren::A", "AChildren::B"]

  /** `Update -> (A, B)`, `A -> (AChildren::A, AChildren::B)`, `B -> BA`. */
  function AddTree(w: World): World {
    var w := AddSchedules(w, "Update", Tuple(UpdateChildren));
    var w := AddSchedules(w, "A", Tuple(AChildren));
    AddSchedules(w, "B", Single("BA"))
  }

  /** The systems printing `A` and `B`. */
  function AddParentSystems(w: World): World {
    var w := AddSystem(w, "A", Emit("A"));
    AddSystem(w, "B", Emit("B"))
  }

  /** The systems printing `AA`, `AB` and `BA`. */
  function AddLeafSystems(w: World): World {
    var w := AddSystem(w, "AChildren::A", Emit("AA"));
    var w := AddSystem(w, "AChildren::B", Emit("AB"));
    AddSystem(w, "BA", Emit("BA"))
  }

  /** The nested-schedules example program, call for call: the tree, the
      printing systems, then `Update -> A` again. */
  function ExampleProgram(): World {
    AddSchedules(AddLeafSystems(AddParentSystems(AddTree(EmptyWorld))), "Update", Single("A"))
  }

  /** The same calls with the printing systems added before the tree. */
  function OwnSystemsFirstProgram(): World {
    AddSchedules(AddTree(AddLeafSystems(AddParentSystems(EmptyWorld))), "Update", Single("A"))
  }

  /** The child lists of the example tree, with `A` listed twice under `Update`. */
  const TreeLists: Store<seq<Label>> :=
    map["Update" := ["A", "B", "A"],
        "A" := ["AChildren::A", "AChildren::B"],
        "B" := ["BA"]]

  /** The tree as the example builds it (`TreeShaped` with the
      run-children systems first): `Update` holds its run-children system,
      `A` and `B` their run-children system and then their printing system,
      the leaves one printing system each; `Update` lists `A, B, A`. */
  const TreeWorld: World := TreeStep4.(nested := Some(TreeLists))

  /** The same tree with each parent's printing system ahead of its
      run-children system. */
  const TreeWorldOwnFirst: World := OwnStep4.(nested := Some(TreeLists))

  /** The schedules one `add_schedules` call leaves, named from what its
      contract says about each schedule. */
  lemma AddedSchedulesAre(w: World, parent: Label, lbls: seq<Label>, rs: map<Label, seq<Op>>)
    requires forall l :: l in rs <==> l in w.schedules || l in lbls || (l == parent && parent !in w.markers)
    requires forall l :: l in rs ==> rs[l] == ScheduleAfterAdd(w, parent, l)
    ensures AddLabels(w, parent, lbls).schedules == rs
  {
    var a := AddLabels(w, parent, lbls).schedules;
    forall l
      ensures l in a <==> l in rs
      ensures l in a ==> a[l] == rs[l]
    {
      AddLabelsAt(w, parent, lbls, l);
    }
  }

  /** Names a world as the result of one `add_schedules` call from what the
      contract of that call says about it. */
  lemma AddSchedulesGives(w: World, parent: Label, children: IntoLabels, list: seq<Label>, r: World)
    requires ChildrenOf(w, parent) + ToVec(children) == list
    requires r.nested == Some(Entries(w.nested)[parent := list])
    requires r.markers == w.markers + {parent} && r.containers == w.containers && r.state == w.state
    requires forall l :: l in r.schedules <==>
               l in w.schedules || l in ToVec(children) || (l == parent && parent !in w.markers)
    requires forall l :: l in r.schedules ==> r.schedules[l] == ScheduleAfterAdd(w, parent, l)
    ensures AddSchedules(w, parent, children) == r
  {
    AddedSchedulesAre(w, parent, ToVec(children), r.schedules);
  }

  const TreeStep1: World := World(
    map["A" := [], "B" := [], "Update" := [RunChildren("Update")]],
    Some(map["Update" := ["A", "B"]]), {"Update"}, None, None)

  const TreeStep2: World := World(
    TreeStep1.schedules["A" := [RunChildren("A")]]["AChildren::A" := []]["AChildren::B" := []],
    Some(TreeStep1.nested.value["A" := ["AChildren::A", "AChildren::B"]]), {"Update", "A"}, None, None)

  const TreeStep3: World := World(
    TreeStep2.schedules["B" := [RunChildren("B")]]["BA" := []],
    Some(TreeStep2.nested.value["B" := ["BA"]]), {"Update", "A", "B"}, None, None)

  const TreeStep3a: World := TreeStep3.(schedules := TreeStep3.schedules
    ["A" := [RunChildren("A"), Emit("A")]]
    ["B" := [RunChildren("B"), Emit("B")]])

  const TreeStep4: World := TreeStep3a.(schedules := TreeStep3a.schedules
    ["AChildren::A" := [Emit("AA")]]
    ["AChildren::B" := [Emit("AB")]]
    ["BA" := [Emit("BA")]])

  lemma TreeStep1Built()
    ensures AddSchedules(EmptyWorld, "Update", Tuple(UpdateChildren)) == TreeStep1
  {
    var list: seq<Label> := ["A", "B"];
    assert ChildrenOf(EmptyWorld, "Update") + ToVec(Tuple(UpdateChildren)) == list;
    AddSchedulesGives(EmptyWorld, "Update", Tuple(UpdateChildren), list, TreeStep1);
  }

  lemma TreeStep2Built()
    ensures AddSchedules(TreeStep1, "A", Tuple(AChildren)) == TreeStep2
  {
    var list: seq<Label> := ["AChildren::A", "AChildren::B"];
    assert ChildrenOf(TreeStep1, "A") == [];
    assert ChildrenOf(TreeStep1, "A") + ToVec(Tuple(AChildren)) == list;
    AddSchedulesGives(TreeStep1, "A", Tuple(AChildren), list, TreeStep2);
  }

  lemma TreeStep3Built()
    ensures AddSchedules(TreeStep2, "B", Single("BA")) == TreeStep3
  {
    var list: seq<Label> := ["BA"];
    assert ChildrenOf(TreeStep2, "B") == [];
    assert ChildrenOf(TreeStep2, "B") + ToVec(Single("BA")) == list;
    AddSchedulesGives(TreeStep2, "B", Single("BA"), list, TreeStep3);
  }

  lemma TreeParentsPrint()
    ensures AddParentSystems(TreeStep3) == TreeStep3a
  {
    assert Registered(TreeStep3.schedules, "A") + [Emit("A")] == [RunChildren("A"), Emit("A")];
    var w1 := AddSystem(TreeStep3, "A", Emit("A"));
    assert Registered(w1.schedules, "B") + [Emit("B")] == [RunChildren("B"), Emit("B")];
  }

  lemma TreeLeavesPrint()
    ensures AddLeafSystems(TreeStep3a) == TreeStep4
  {
    assert Registered(TreeStep3a.schedules, "AChildren::A") + [Emit("AA")] == [Emit("AA")];
    var w1 := AddSystem(TreeStep3a, "AChildren::A", Emit("AA"));
    assert Registered(w1.schedules, "AChildren::B") + [Emit("AB")] == [Emit("AB")];
    var w2 := AddSystem(w1, "AChildren::B", Emit("AB"));
    assert Registered(w2.schedules, "BA") + [Emit("BA")] == [Emit("BA")];
  }

  lemma TreeWorldBuilt()
    ensures AddSchedules(TreeStep4, "Update", Single("A")) == TreeWorld
  {
    var list: seq<Label> := ["A", "B", "A"];
    assert ChildrenOf(TreeStep4, "Update") == ["A", "B"];
    assert ChildrenOf(TreeStep4, "Update") + ToVec(Single("A")) == list;
    assert Entries(TreeStep4.nested)["Update" := list] == TreeLists;
    AddToMarkedParent(TreeStep4, "Update", ["A"]);
  }

  lemma TreeBuilt()
    ensures AddTree(EmptyWorld) == TreeStep3
  {
    TreeStep1Built();
    TreeStep2Built();
    TreeStep3Built();
  }

  /** The example program builds `TreeWorld`: `A` is listed twice under
      `Update`, and each parent has exactly one run-children system, ahead
      of its printing system. */
  lemma ExampleProgramBuildsTree()
    ensures ExampleProgram() == TreeWorld
  {
    TreeBuilt();
    TreeParentsPrint();
    TreeLeavesPrint();
    TreeWorldBuilt();
  }

  const OwnStep1: World := World(
    map["A" := [Emit("A")], "B" := [Emit("B")],
        "AChildren::A" := [Emit("AA")], "AChildren::B" := [Emit("AB")], "BA" := [Emit("BA")]],
    None, {}, None, None)

  const OwnStep2: World := World(
    OwnStep1.schedules["Update" := [RunChildren("Update")]],
    Some(map["Update" := ["A", "B"]]), {"Update"}, None, None)

  const OwnStep3: World := World(
    OwnStep2.schedules["A" := [Emit("A"), RunChildren("A")]],
    Some(map["Update" := ["A", "B"], "A" := ["AChildren::A", "AChildren::B"]]), {"Update", "A"}, None, None)

  const OwnStep4: World := World(
    OwnStep3.schedules["B" := [Emit("B"), RunChildren("B")]],
    Some(map["Update" := ["A", "B"], "A" := ["AChildren::A", "AChildren::B"], "B" := ["BA"]]),
    {"Update", "A", "B"}, None, None)

  lemma OwnStep1Built()
    ensures AddLeafSystems(AddParentSystems(EmptyWorld)) == OwnStep1
  {
    assert Registered(EmptyWorld.schedules, "A") + [Emit("A")] == [Emit("A")];
    var w1 := AddSystem(EmptyWorld, "A", Emit("A"));
    assert w1.schedules == map["A" := [Emit("A")]];
    assert Registered(w1.schedules, "B") + [Emit("B")] == [Emit("B")];
    var w2 := AddSystem(w1, "B", Emit("B"));
    assert w2.schedules == w1.schedules["B" := [Emit("B")]];
    assert Registered(w2.schedules, "AChildren::A") + [Emit("AA")] == [Emit("AA")];
    var w3 := AddSystem(w2, "AChildren::A", Emit("AA"));
    assert w3.schedules == w2.schedules["AChildren::A" := [Emit("AA")]];
    assert Registered(w3.schedules, "AChildren::B") + [Emit("AB")] == [Emit("AB")];
    var w4 := AddSystem(w3, "AChildren::B", Emit("AB"));
    assert w4.schedules == w3.schedules["AChildren::B" := [Emit("AB")]];
    assert Registered(w4.schedules, "BA") + [Emit("BA")] == [Emit("BA")];
    var w5 := AddSystem(w4, "BA", Emit("BA"));
    assert w5.schedules == w4.schedules["BA" := [Emit("BA")]];
    assert w5.schedules == OwnStep1.schedules;
  }

  lemma OwnStep2Built()
    ensures AddSchedules(OwnStep1, "Update", Tuple(UpdateChildren)) == OwnStep2
  {
    var list: seq<Label> := ["A", "B"];
    assert ChildrenOf(OwnStep1, "Update") + ToVec(Tuple(UpdateChildren)) == list;
    assert ScheduleAfterAdd(OwnStep1, "Update", "Update") == [RunChildren("Update")];
    AddSchedulesGives(OwnStep1, "Update", Tuple(UpdateChildren), list, OwnStep2);
  }

  lemma OwnStep3Built()
    ensures AddSchedules(OwnStep2, "A", Tuple(AChildren)) == OwnStep3
  {
    var list: seq<Label> := ["AChildren::A", "AChildren::B"];
    assert ChildrenOf(OwnStep2, "A") == [];
    assert ChildrenOf(OwnStep2, "A") + ToVec(Tuple(AChildren)) == list;
    assert ScheduleAfterAdd(OwnStep2, "A", "A") == [Emit("A")] + [RunChildren("A")];
    AddSchedulesGives(OwnStep2, "A", Tuple(AChildren), list, OwnStep3);
  }

  lemma OwnStep4Built()
    ensures AddSchedules(OwnStep3, "B", Single("BA")) == OwnStep4
  {
    var list: seq<Label> := ["BA"];
    assert ChildrenOf(OwnStep3, "B") == [];
    assert ChildrenOf(OwnStep3, "B") + ToVec(Single("BA")) == list;
    assert ScheduleAfterAdd(OwnStep3, "B", "B") == [Emit("B")] + [RunChildren("B")];
    AddSchedulesGives(OwnStep3, "B", Single("BA"), list, OwnStep4);
  }

  lemma OwnWorldBuilt()
    ensures AddSchedules(OwnStep4, "Update", Single("A")) == TreeWorldOwnFirst
  {
    var list: seq<Label> := ["A", "B", "A"];
    assert ChildrenOf(OwnStep4, "Update") == ["A", "B"];
    assert ChildrenOf(OwnStep4, "Update") + ToVec(Single("A")) == list;
    assert Entries(OwnStep4.nested)["Update" := list] == TreeLists;
    AddToMarkedParent(OwnStep4, "Update", ["A"]);
  }

  /** Adding each parent's printing system before building the tree gives
      the same tree with the printing systems ahead of the run-children
      systems. */
  lemma OwnSystemsFirstBuildsTree()
    ensures OwnSystemsFirstProgram() == TreeWorldOwnFirst
  {
    OwnStep1Built();
    OwnStep2Built();
    OwnStep3Built();
    OwnStep4Built();
    OwnWorldBuilt();
  }

  /** One system that leaves the world as it is, followed by the rest. */
  lemma OpsCons(fuel: nat, op: Op, rest: seq<Op>, w: World, t1: Trace, t2: Trace)
    requires RunOp(fuel, op, w) == Ok(Step(w, t1))
    requires RunOps(fuel, rest, w) == Ok(Step(w, t2))
    ensures RunOps(fuel, [op] + rest, w) == Ok(Step(w, t1 + t2))
  {
    assert ([op] + rest)[0] == op;
    assert ([op] + rest)[1..] == rest;
  }

  /** One schedule that leaves the world as it is, followed by the rest. */
  lemma LabelsCons(fuel: nat, l: Label, rest: seq<Label>, w: World, t1: Trace, t2: Trace)
    requires RunSchedule(fuel, l, w) == Ok(Step(w, t1))
    requires RunLabels(fuel, rest, w) == Ok(Step(w, t2))
    ensures RunLabels(fuel, [l] + rest, w) == Ok(Step(w, t1 + t2))
  {
    assert ([l] + rest)[0] == l;
    assert ([l] + rest)[1..] == rest;
  }

  /** A schedule whose only system prints `tag` prints `tag` and changes nothing. */
  lemma LeafRuns(fuel: nat, l: Label, w: World, tag: string)
    requires l in w.schedules && w.schedules[l] == [Emit(tag)]
    ensures RunSchedule(fuel, l, w) == Ok(Step(w, [tag]))
  {
    assert RunOps(fuel, [], w) == Ok(Step(w, []));
    OpsCons(fuel, Emit(tag), [], w, [tag], []);
    assert [Emit(tag)] + [] == [Emit(tag)];
    assert [tag] + [] == [tag];
    assert RunSchedule(fuel, l, w) == RunOps(fuel, [Emit(tag)], w);
  }

  /** The run-children system of `p`, when the run of its list succeeds
      without touching the state. */
  lemma ChildrenRun(fuel: nat, p: Label, w: World, t: Trace)
    requires fuel > 0 && w.nested.Some? && p in w.nested.value
    requires RunLabels(fuel - 1, w.nested.value[p], w.(nested := Some(w.nested.value - {p}))) ==
             Ok(Step(w.(nested := Some(w.nested.value - {p})), t))
    ensures RunOp(fuel, RunChildren(p), w) == Ok(Step(w, t))
  {
    var m := w.nested.value;
    assert (m - {p})[p := m[p]] == m;
  }

  /** A parent whose schedule is its run-children system and then one
      printing system, or the two the other way round. */
  lemma ParentRuns(fuel: nat, p: Label, w: World, tag: string, t: Trace, childrenFirst: bool)
    requires p in w.schedules
    requires w.schedules[p] == (if childrenFirst then [RunChildren(p), Emit(tag)] else [Emit(tag), RunChildren(p)])
    requires RunOp(fuel, RunChildren(p), w) == Ok(Step(w, t))
    ensures RunSchedule(fuel, p, w) == Ok(Step(w, if childrenFirst then t + [tag] else [tag] + t))
  {
    assert RunOps(fuel, [], w) == Ok(Step(w, []));
    assert RunOp(fuel, Emit(tag), w) == Ok(Step(w, [tag]));
    if childrenFirst {
      OpsCons(fuel, Emit(tag), [], w, [tag], []);
      assert [Emit(tag)] + [] == [Emit(tag)];
      assert [tag] + [] == [tag];
      OpsCons(fuel, RunChildren(p), [Emit(tag)], w, t, [tag]);
      assert [RunChildren(p)] + [Emit(tag)] == w.schedules[p];
    } else {
      OpsCons(fuel, RunChildren(p), [], w, t, []);
      assert [RunChildren(p)] + [] == [RunChildren(p)];
      OpsCons(fuel, Emit(tag), [RunChildren(p)], w, [tag], t + []);
      assert [Emit(tag)] + [RunChildren(p)] == w.schedules[p];
      assert t + [] == t;
    }
  }

  /** What one run of `A` prints: its children, then `A`, or the other
      way round. */
  function ParentATrace(childrenFirst: bool): Trace {
    if childrenFirst then ["AA", "AB", "A"] else ["A", "AA", "AB"]
  }

  /** What one run of `B` prints. */
  function ParentBTrace(childrenFirst: bool): Trace {
    if childrenFirst then ["BA", "B"] else ["B", "BA"]
  }

  /** The trace of one run of `Update` in the example tree: the children in
      list order, `A` both times it is listed. */
  function TreeTrace(childrenFirst: bool): Trace {
    ParentATrace(childrenFirst) + ParentBTrace(childrenFirst) + ParentATrace(childrenFirst)
  }

  /** The schedules of the example tree, with each parent's run-children
      system before or after its own printing system. */
  predicate TreeShaped(w: World, childrenFirst: bool) {
    && "Update" in w.schedules && w.schedules["Update"] == [RunChildren("Update")]
    && "A" in w.schedules
    && w.schedules["A"] == (if childrenFirst then [RunChildren("A"), Emit("A")] else [Emit("A"), RunChildren("A")])
    && "B" in w.schedules
    && w.schedules["B"] == (if childrenFirst then [RunChildren("B"), Emit("B")] else [Emit("B"), RunChildren("B")])
    && "AChildren::A" in w.schedules && w.schedules["AChildren::A"] == [Emit("AA")]
    && "AChildren::B" in w.schedules && w.schedules["AChildren::B"] == [Emit("AB")]
    && "BA" in w.schedules && w.schedules["BA"] == [Emit("BA")]
  }

  /** Running `A` inside the run of `Update`. */
  lemma TreeParentARuns(during: World, childrenFirst: bool)
    requires TreeShaped(during, childrenFirst)
    requires during.nested.Some? && "A" in during.nested.value
    requires during.nested.value["A"] == ["AChildren::A", "AChildren::B"]
    ensures RunSchedule(1, "A", during) == Ok(Step(during, ParentATrace(childrenFirst)))
  {
    var m := during.nested.value;
    var inA := during.(nested := Some(m - {"A"}));
    LeafRuns(0, "AChildren::A", inA, "AA");
    LeafRuns(0, "AChildren::B", inA, "AB");
    assert RunLabels(0, [], inA) == Ok(Step(inA, []));
    LabelsCons(0, "AChildren::B", [], inA, ["AB"], []);
    assert ["AChildren::B"] + [] == ["AChildren::B"] && ["AB"] + [] == ["AB"];
    LabelsCons(0, "AChildren::A", ["AChildren::B"], inA, ["AA"], ["AB"]);
    assert m["A"] == ["AChildren::A"] + ["AChildren::B"];
    assert ["AA"] + ["AB"] == ["AA", "AB"];
    ChildrenRun(1, "A", during, ["AA", "AB"]);
    ParentRuns(1, "A", during, "A", ["AA", "AB"], childrenFirst);
    assert ["AA", "AB"] + ["A"] == ["AA", "AB", "A"] && ["A"] + ["AA", "AB"] == ["A", "AA", "AB"];
  }

  /** Running `B` inside the run of `Update`. */
  lemma TreeParentBRuns(during: World, childrenFirst: bool)
    requires TreeShaped(during, childrenFirst)
    requires during.nested.Some? && "B" in during.nested.value
    requires during.nested.value["B"] == ["BA"]
    ensures RunSchedule(1, "B", during) == Ok(Step(during, ParentBTrace(childrenFirst)))
  {
    var m := during.nested.value;
    var inB := during.(nested := Some(m - {"B"}));
    LeafRuns(0, "BA", inB, "BA");
    assert RunLabels(0, [], inB) == Ok(Step(inB, []));
    LabelsCons(0, "BA", [], inB, ["BA"], []);
    assert ["BA"] + [] == ["BA"];
    ChildrenRun(1, "B", during, ["BA"]);
    ParentRuns(1, "B", during, "B", ["BA"], childrenFirst);
    assert ["BA"] + ["B"] == ["BA", "B"] && ["B"] + ["BA"] == ["B", "BA"];
  }

  /** One run of `Update` in a world shaped like the example tree, whose
      child lists are the example's, prints `TreeTrace` and leaves the world
      exactly as it was. */
  lemma TreeRun(w: World, childrenFirst: bool, fuel: nat)
    requires fuel >= 2 && TreeShaped(w, childrenFirst) && w.nested == Some(TreeLists)
    ensures RunSchedule(fuel, "Update", w) == Ok(Step(w, TreeTrace(childrenFirst)))
  {
    var during := w.(nested := Some(TreeLists - {"Update"}));
    UpdateListRuns(w, during, childrenFirst);
    ChildrenRun(2, "Update", w, TreeTrace(childrenFirst));
    OpsCons(2, RunChildren("Update"), [], w, TreeTrace(childrenFirst), []);
    assert [RunChildren("Update")] + [] == w.schedules["Update"];
    assert TreeTrace(childrenFirst) + [] == TreeTrace(childrenFirst);
    ScheduleFuel(2, fuel, "Update", w);
  }

  /** The children of `Update`, `A, B, A`, run in the world the
      run-children system of `Update` hands them. */
  lemma UpdateListRuns(w: World, during: World, childrenFirst: bool)
    requires TreeShaped(w, childrenFirst) && during == w.(nested := Some(TreeLists - {"Update"}))
    ensures "Update" in TreeLists
    ensures RunLabels(1, TreeLists["Update"], during) == Ok(Step(during, TreeTrace(childrenFirst)))
  {
    TreeListsDuringRun();
    TreeParentARuns(during, childrenFirst);
    TreeParentBRuns(during, childrenFirst);
    ABARuns(during, ParentATrace(childrenFirst), ParentBTrace(childrenFirst));
  }

  /** The example's lists, and those left while `Update`'s entry is moved out. */
  lemma TreeListsDuringRun()
    ensures "Update" in TreeLists && TreeLists["Update"] == ["A", "B", "A"]
    ensures var m := TreeLists - {"Update"};
            && "A" in m && m["A"] == ["AChildren::A", "AChildren::B"]
            && "B" in m && m["B"] == ["BA"]
  {
  }

  /** The list `A, B, A` runs `A`, then `B`, then `A` again. */
  lemma ABARuns(during: World, ta: Trace, tb: Trace)
    requires RunSchedule(1, "A", during) == Ok(Step(during, ta))
    requires RunSchedule(1, "B", during) == Ok(Step(during, tb))
    ensures RunLabels(1, ["A", "B", "A"], during) == Ok(Step(during, ta + tb + ta))
  {
    assert RunLabels(1, [], during) == Ok(Step(during, []));
    LabelsCons(1, "A", [], during, ta, []);
    assert ["A"] + [] == ["A"] && ta + [] == ta;
    LabelsCons(1, "B", ["A"], during, tb, ta);
    LabelsCons(1, "A", ["B", "A"], during, ta, tb + ta);
    assert ["A"] + (["B"] + ["A"]) == ["A", "B", "A"];
    assert ta + (tb + ta) == ta + tb + ta;
  }

  lemma TreeTraces()
    ensures TreeTrace(true) == ["AA", "AB", "A", "BA", "B", "AA", "AB", "A"]
    ensures TreeTrace(false) == ["A", "AA", "AB", "B", "BA", "A", "AA", "AB"]
  {
  }

  lemma TreeWorldRuns()
    ensures RunSchedule(2, "Update", TreeWorld) == Ok(Step(TreeWorld, TreeTrace(true)))
  {
    assert TreeShaped(TreeWorld, true);
    TreeRun(TreeWorld, true, 2);
  }

  /** The example program, run once from `Update`, prints the children
      before each parent: the order in which its systems were registered. */
  lemma ExampleRun(fuel: nat)
    requires fuel >= 2
    ensures RunSchedule(fuel, "Update", ExampleProgram()) ==
            Ok(Step(ExampleProgram(), ["AA", "AB", "A", "BA", "B", "AA", "AB", "A"]))
  {
    ExampleProgramBuildsTree();
    TreeWorldRuns();
    TreeTraces();
    ScheduleFuel(2, fuel, "Update", ExampleProgram());
  }

  lemma OwnWorldRuns()
    ensures RunSchedule(2, "Update", TreeWorldOwnFirst) == Ok(Step(TreeWorldOwnFirst, TreeTrace(false)))
  {
    assert TreeShaped(TreeWorldOwnFirst, false);
    TreeRun(TreeWorldOwnFirst, false, 2);
  }

  /** With the printing systems registered first, one run of `Update`
      prints each parent before its children. */
  lemma OwnSystemsFirstRun(fuel: nat)
    requires fuel >= 2
    ensures RunSchedule(fuel, "Update", OwnSystemsFirstProgram()) ==
            Ok(Step(OwnSystemsFirstProgram(), ["A", "AA", "AB", "B", "BA", "A", "AA", "AB"]))
  {
    OwnSystemsFirstBuildsTree();
    OwnWorldRuns();
    TreeTraces();
    ScheduleFuel(2, fuel, "Update", OwnSystemsFirstProgram());
  }

  /** A parent nested in itself: `add_schedules(Loop, Loop)`. */
  const LoopWorld: World := World(map["Loop" := [RunChildren("Loop")]], Some(map["Loop" := ["Loop"]]), {"Loop"}, None, None)

  lemma LoopBuilt()
    ensures AddSchedules(EmptyWorld, "Loop", Single("Loop")) == LoopWorld
  {
    var list: seq<Label> := ["Loop"];
    assert ChildrenOf(EmptyWorld, "Loop") + ToVec(Single("Loop")) == list;
    assert ScheduleAfterAdd(EmptyWorld, "Loop", "Loop") == [RunChildren("Loop")];
    AddSchedulesGives(EmptyWorld, "Loop", Single("Loop"), list, LoopWorld);
  }

  /** Running a parent nested in itself fails on the entry its own outer
      run has moved out, however much nesting is allowed. */
  lemma SelfNestingFails(fuel: nat)
    requires fuel > 0
    ensures RunSchedule(fuel, "Loop", AddSchedules(EmptyWorld, "Loop", Single("Loop"))) == Err(MissingEntry("Loop"))
  {
    LoopBuilt();
    var w := LoopWorld;
    var inner := w.(nested := Some(map["Loop" := ["Loop"]] - {"Loop"}));
    assert "Loop" !in inner.nested.value;
    assert RunOp(fuel - 1, RunChildren("Loop"), inner) == Err(MissingEntry("Loop"));
    assert RunSchedule(fuel - 1, "Loop", inner) == Err(MissingEntry("Loop"));
    assert RunLabels(fuel - 1, ["Loop"], inner) == Err(MissingEntry("Loop"));
    assert RunOp(fuel, RunChildren("Loop"), w) == Err(MissingEntry("Loop"));
  }

  /** `Update` runs the state's schedule; `Menu` prints and then selects `Game`. */
  const StateWorld: World := World(
    map["Update" := [RunState], "Menu" := [Emit("Menu"), SetState("Game")], "Game" := [Emit("Game")]],
    None, {}, None, Some("Menu"))

  /** The state program: the state inserted with `Menu` as its initial
      value, then the two state schedules' systems. */
  function StateProgram(): World {
    var w := InitStateToSchedule(EmptyWorld, "Update", "Menu");
    var w := AddSystem(w, "Menu", Emit("Menu"));
    var w := AddSystem(w, "Menu", SetState("Game"));
    AddSystem(w, "Game", Emit("Game"))
  }

  lemma StateProgramBuilt()
    ensures StateProgram() == StateWorld
  {
    var w0 := InitStateToSchedule(EmptyWorld, "Update", "Menu");
    assert Registered(EmptyWorld.schedules, "Update") + [RunState] == [RunState];
    assert w0.schedules == map["Update" := [RunState]];
    assert Registered(w0.schedules, "Menu") + [Emit("Menu")] == [Emit("Menu")];
    var w1 := AddSystem(w0, "Menu", Emit("Menu"));
    assert w1.schedules == w0.schedules["Menu" := [Emit("Menu")]];
    assert Registered(w1.schedules, "Menu") + [SetState("Game")] == [Emit("Menu"), SetState("Game")];
    var w2 := AddSystem(w1, "Menu", SetState("Game"));
    assert w2.schedules == w0.schedules["Menu" := [Emit("Menu"), SetState("Game")]];
    assert Registered(w2.schedules, "Game") + [Emit("Game")] == [Emit("Game")];
    var w3 := AddSystem(w2, "Game", Emit("Game"));
    assert w3.schedules == w2.schedules["Game" := [Emit("Game")]];
    assert w3.schedules == StateWorld.schedules;
  }

  /** `Menu` run on its own: it prints and selects `Game`. */
  lemma MenuRuns(fuel: nat, w: World)
    requires "Menu" in w.schedules && w.schedules["Menu"] == [Emit("Menu"), SetState("Game")]
    ensures RunSchedule(fuel, "Menu", w) == Ok(Step(w.(state := Some("Game")), ["Menu"]))
  {
    var ops := w.schedules["Menu"];
    assert ops[1..] == [SetState("Game")] && ops[1..][1..] == [];
    var g := w.(state := Some("Game"));
    assert RunOps(fuel, ops[1..], w) == Ok(Step(g, [] + []));
    assert RunOps(fuel, ops, w) == Ok(Step(g, ["Menu"] + ([] + [])));
    assert ["Menu"] + ([] + []) == ["Menu"];
  }

  /** A schedule holding only the run-state system runs what the state
      names when the system starts. */
  lemma OnlyRunStateRuns(fuel: nat, l: Label, w: World, t: Step)
    requires fuel > 0 && l in w.schedules && w.schedules[l] == [RunState] && w.state.Some?
    requires RunSchedule(fuel - 1, w.state.value, w) == Ok(t)
    ensures RunSchedule(fuel, l, w) == Ok(Step(t.world, t.trace))
  {
    var ops := w.schedules[l];
    assert ops[0] == RunState && ops[1..] == [];
    assert RunOp(fuel, RunState, w) == Ok(t);
    assert RunOps(fuel, ops[1..], t.world) == Ok(Step(t.world, []));
    assert RunOps(fuel, ops, w) == Ok(Step(t.world, t.trace + []));
    assert t.trace + [] == t.trace;
  }

  /** The state is read when the run-state system starts, and a change
      made by the running schedule takes effect at once: the first run of
      `Update` runs `Menu` and leaves `Game` selected, the second runs `Game`. */
  lemma StateChangesBetweenRuns(fuel: nat)
    requires fuel >= 1
    ensures var first := RunSchedule(fuel, "Update", StateProgram());
            && first == Ok(Step(StateProgram().(state := Some("Game")), ["Menu"]))
            && RunSchedule(fuel, "Update", first.value.world) == Ok(Step(first.value.world, ["Game"]))
  {
    StateProgramBuilt();
    var w := StateWorld;
    MenuRuns(0, w);
    OnlyRunStateRuns(1, "Update", w, Step(w.(state := Some("Game")), ["Menu"]));
    var g := w.(state := Some("Game"));
    assert g == StateProgram().(state := Some("Game"));
    assert RunSchedule(1, "Update", StateProgram()) == Ok(Step(g, ["Menu"]));
    LeafRuns(0, "Game", g, "Game");
    OnlyRunStateRuns(1, "Update", g, Step(g, ["Game"]));
    assert RunSchedule(1, "Update", g) == Ok(Step(g, ["Game"]));
    ScheduleFuel(1, fuel, "Update", StateProgram());
    ScheduleFuel(1, fuel, "Update", g);
  }

  /** Two run-state systems in one schedule: the second sees the state the
      first one's schedule selected, so both schedules run in one pass. */
  lemma NoDeferredTransition(fuel: nat)
    requires fuel >= 1
    ensures var w := AddSystem(StateWorld, "Update", RunState);
            RunSchedule(fuel, "Update", w) == Ok(Step(w.(state := Some("Game")), ["Menu", "Game"]))
  {
    var w := AddSystem(StateWorld, "Update", RunState);
    assert w.schedules["Update"] == [RunState, RunState];
    var g := w.(state := Some("Game"));
    MenuRuns(0, w);
    LeafRuns(0, "Game", g, "Game");
    assert RunOp(1, RunState, g) == Ok(Step(g, ["Game"]));
    assert [RunState, RunState][1..] == [RunState] && [RunState][1..] == [];
    assert RunOps(1, [RunState], g) == Ok(Step(g, ["Game"] + []));
    assert RunOps(1, [RunState, RunState], w) == Ok(Step(g, ["Menu"] + (["Game"] + [])));
    assert ["Menu"] + (["Game"] + []) == ["Menu", "Game"];
    ScheduleFuel(1, fuel, "Update", w);
  }
}
