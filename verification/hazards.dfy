/**
 Runs that fail, each in a world the layer's own calls can build.

 The move-out/move-back discipline assumes that nothing inserts under the
 moved-out label while the entry is out, and that a schedule whose entry
 is out is not run again. A system receives the whole world and may break
 either assumption: it may insert a container under the running label, or
 run the parent whose list is moved out. The layer neither prevents nor
 reports these. A re-entered parent ends in the panic of the unwrap; an
 insertion under the moved-out label makes the unchecked reinsert meet a
 present key, whose behaviour is unspecified and reported as
 `DuplicateEntry`.
 */
module Hazards {
  import opened Host
  import opened Labels
  import opened Containers
  import opened Executor
  import opened Restoration
  import opened Nesting
  import opened States
  import opened ContainerSystems
  import opened Wiring
  import opened Scenarios

  /** A list of one system that prints nothing runs as that system does. */
  lemma SilentOp(fuel: nat, op: Op, w: World, v: World)
    requires RunOp(fuel, op, w) == Ok(Step(v, []))
    ensures RunOps(fuel, [op], w) == Ok(Step(v, []))
  {
    assert [op][1..] == [];
    var none: Trace := [];
    assert none + none == none;
  }

  /** `insert_schedule_container(C, container)` where the container's one
      system inserts another container under `C` through the world. */
  const ClashingContainer: seq<Op> := [InsertContainer("C", [])]

  const ContainerClashWorld: World :=
    World(map["C" := [RunContainer("C")]], None, {}, Some(map["C" := ClashingContainer]), None)

  lemma ContainerClashBuilt()
    ensures InsertScheduleContainer(EmptyWorld, "C", ClashingContainer) == ContainerClashWorld
    ensures Wired(ContainerClashWorld)
  {
    EmptyWorldIsWired();
    InsertScheduleContainerKeepsWired(EmptyWorld, "C", ClashingContainer);
    assert Registered(EmptyWorld.schedules, "C") + [RunContainer("C")] == [RunContainer("C")];
  }

  /** The run-container system of `C` runs the container with `C`'s entry
      moved out; the container inserts a new entry under `C`, so the
      unchecked reinsert meets a present key, reported as `DuplicateEntry`. */
  lemma ReinsertedContainerClashes(fuel: nat)
    requires fuel > 0
    ensures !ReadOnlyStores(ContainerClashWorld)
    ensures RunSchedule(fuel, "C", ContainerClashWorld) == Err(DuplicateEntry("C"))
  {
    var w := ContainerClashWorld;
    assert Entries(w.containers)["C"] == ClashingContainer && WritesStore(ClashingContainer[0]);
    var during := w.(containers := Some(map[]));
    assert map["C" := ClashingContainer] - {"C"} == map[];
    var after := during.(containers := Some(map["C" := []]));
    assert Insert(during.containers, "C", []).store == map["C" := []];
    assert RunOp(fuel - 1, ClashingContainer[0], during) == Ok(Step(after, []));
    SilentOp(fuel - 1, ClashingContainer[0], during, after);
    assert RunOp(fuel, RunContainer("C"), w) == Err(DuplicateEntry("C"));
    assert RunOps(fuel, [RunContainer("C")], w) == Err(DuplicateEntry("C"));
  }

  /** `P` lists `Q`, and `Q` holds a system that inserts a child list under
      `P` through the world: the same clash for the child lists. */
  const ChildrenClashWorld: World :=
    World(map["P" := [RunChildren("P")], "Q" := [InsertChildren("P", [])]], Some(map["P" := ["Q"]]), {"P"}, None, None)

  lemma ReinsertedChildrenClash(fuel: nat)
    requires fuel > 0
    ensures !ReadOnlyStores(ChildrenClashWorld)
    ensures RunSchedule(fuel, "P", ChildrenClashWorld) == Err(DuplicateEntry("P"))
  {
    var w := ChildrenClashWorld;
    assert WritesStore(w.schedules["Q"][0]);
    var during := w.(nested := Some(map[]));
    assert map["P" := ["Q"]] - {"P"} == map[];
    var after := during.(nested := Some(map["P" := []]));
    assert Insert(during.nested, "P", []).store == map["P" := []];
    assert RunOp(fuel - 1, InsertChildren("P", []), during) == Ok(Step(after, []));
    SilentOp(fuel - 1, InsertChildren("P", []), during, after);
    assert RunSchedule(fuel - 1, "Q", during) == Ok(Step(after, []));
    assert RunLabels(fuel - 1, ["Q"], during) == Ok(Step(after, []));
    assert RunOp(fuel, RunChildren("P"), w) == Err(DuplicateEntry("P"));
    assert RunOps(fuel, [RunChildren("P")], w) == Err(DuplicateEntry("P"));
  }

  /** A schedule whose one system inserts a container through the world. */
  const WritingWorld: World := World(map["Update" := [InsertContainer("C", [])]], None, {}, None, None)

  /** The world-level insertion adds no run system, so a successful run of
      a wired world can leave it unwired: `C` has an entry but no run
      system and no schedule. */
  lemma WriteBreaksWiring()
    ensures Wired(WritingWorld)
    ensures RunSchedule(0, "Update", WritingWorld) == Ok(Step(WritingWorld.(containers := Some(map["C" := []])), []))
    ensures !Wired(RunSchedule(0, "Update", WritingWorld).value.world)
  {
    var w := WritingWorld;
    forall l
      ensures Occurrences(Registered(w.schedules, l), RunChildren(l)) == 0
      ensures Occurrences(Registered(w.schedules, l), RunContainer(l)) == 0
    {
      assert RunChildren(l) !in multiset(Registered(w.schedules, l));
      assert RunContainer(l) !in multiset(Registered(w.schedules, l));
    }
    var after := w.(containers := Some(map["C" := []]));
    assert Insert(w.containers, "C", []).store == map["C" := []];
    assert RunOp(0, InsertContainer("C", []), w) == Ok(Step(after, []));
    SilentOp(0, InsertContainer("C", []), w, after);
    assert "C" in Entries(after.containers) && "C" !in after.schedules;
  }

  /** `P` lists `Q`, and `Q` holds `create_run_children_system(P)`: running
      `Q` inside `P`'s run finds `P`'s list moved out, and the unwrap of
      the removal panics. */
  const ReentryWorld: World :=
    World(map["P" := [RunChildren("P")], "Q" := [RunChildren("P")]], Some(map["P" := ["Q"]]), {"P"}, None, None)

  lemma ReentryPanics(fuel: nat)
    requires fuel > 0
    ensures RunSchedule(fuel, "P", ReentryWorld) == Err(MissingEntry("P"))
  {
    var w := ReentryWorld;
    var during := w.(nested := Some(map[]));
    assert map["P" := ["Q"]] - {"P"} == map[];
    assert RunOp(fuel - 1, RunChildren("P"), during) == Err(MissingEntry("P"));
    assert RunSchedule(fuel - 1, "Q", during) == Err(MissingEntry("P"));
    assert RunLabels(fuel - 1, ["Q"], during) == Err(MissingEntry("P"));
    assert RunOps(fuel, [RunChildren("P")], w) == Err(MissingEntry("P"));
  }

  /** `add_schedules(P, Q)` and then `add_schedules(Q, P)`: a cycle of
      child lists. */
  const CycleStep1: World :=
    World(map["Q" := [], "P" := [RunChildren("P")]], Some(map["P" := ["Q"]]), {"P"}, None, None)

  const CycleWorld: World :=
    World(CycleStep1.schedules["Q" := [RunChildren("Q")]], Some(CycleStep1.nested.value["Q" := ["P"]]), {"P", "Q"}, None, None)

  lemma CycleBuilt()
    ensures AddSchedules(AddSchedules(EmptyWorld, "P", Single("Q")), "Q", Single("P")) == CycleWorld
  {
    var pList: seq<Label> := ["Q"];
    assert ChildrenOf(EmptyWorld, "P") + ToVec(Single("Q")) == pList;
    AddSchedulesGives(EmptyWorld, "P", Single("Q"), pList, CycleStep1);
    var qList: seq<Label> := ["P"];
    assert ChildrenOf(CycleStep1, "Q") + ToVec(Single("P")) == qList;
    assert ScheduleAfterAdd(CycleStep1, "Q", "Q") == [RunChildren("Q")];
    AddSchedulesGives(CycleStep1, "Q", Single("P"), qList, CycleWorld);
  }

  /** A cycle of child lists ends at the unwrap of the list moved out at
      the start of the cycle. */
  lemma CycleFails(fuel: nat)
    requires fuel > 1
    ensures RunSchedule(fuel, "P", CycleWorld) == Err(MissingEntry("P"))
  {
    var w := CycleWorld;
    var m := w.nested.value;
    var inP := w.(nested := Some(map["Q" := ["P"]]));
    var inQ := w.(nested := Some(map[]));
    assert m - {"P"} == map["Q" := ["P"]];
    assert map["Q" := ["P"]] - {"Q"} == map[];
    assert RunOp(fuel - 2, RunChildren("P"), inQ) == Err(MissingEntry("P"));
    assert RunSchedule(fuel - 2, "P", inQ) == Err(MissingEntry("P"));
    assert RunLabels(fuel - 2, ["P"], inQ) == Err(MissingEntry("P"));
    assert RunOp(fuel - 1, RunChildren("Q"), inP) == Err(MissingEntry("P"));
    assert RunSchedule(fuel - 1, "Q", inP) == Err(MissingEntry("P"));
    assert RunLabels(fuel - 1, ["Q"], inP) == Err(MissingEntry("P"));
    assert RunOps(fuel, [RunChildren("P")], w) == Err(MissingEntry("P"));
  }

  /** `insert_state_to_schedule(U, U)`: the state names the schedule that
      holds the run-state system. */
  const StateLoopWorld: World := World(map["U" := [RunState]], None, {}, None, Some("U"))

  lemma StateLoopBuilt()
    ensures InsertStateToSchedule(EmptyWorld, "U", "U") == StateLoopWorld
  {
    assert Registered(EmptyWorld.schedules, "U") + [RunState] == [RunState];
  }

  /** A cycle through the state has no moved-out entry to stop it: it
      nests until the fuel runs out, whatever the fuel. */
  lemma {:induction false} StateLoopRunsOutOfFuel(fuel: nat)
    ensures RunSchedule(fuel, "U", StateLoopWorld) == Err(OutOfFuel)
  {
    var w := StateLoopWorld;
    if fuel > 0 {
      StateLoopRunsOutOfFuel(fuel - 1);
    }
    assert RunOp(fuel, RunState, w) == Err(OutOfFuel);
    assert RunOps(fuel, [RunState], w) == Err(OutOfFuel);
  }
}
