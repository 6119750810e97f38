/**
 The application-level container operations: inserting a container for a
 label adds the system that runs it to that label's schedule, but only on
 the insertion that actually created the entry.
 */
module ContainerSystems {
  import opened Host
  import opened Containers
  import opened Executor
  import opened Restoration

  /** `App::insert_schedule_container(label, container)`. */
  function InsertScheduleContainer(w: World, lbl: Label, payload: seq<Op>): (r: World)
    ensures lbl in Entries(r.containers)
    ensures lbl in Entries(w.containers) ==> r == w
    ensures lbl !in Entries(w.containers) ==>
              && r.containers == Some(Entries(w.containers)[lbl := payload])
              && lbl in r.schedules
              && r.schedules[lbl] == Registered(w.schedules, lbl) + [RunContainer(lbl)]
    ensures forall l :: l != lbl ==> (l in r.schedules <==> l in w.schedules)
    ensures forall l :: l in w.schedules && l != lbl ==> r.schedules[l] == w.schedules[l]
    ensures r.nested == w.nested && r.markers == w.markers && r.state == w.state
  {
    var ins := Insert(w.containers, lbl, payload);
    var w1 := w.(containers := Some(ins.store));
    if ins.inserted then AddSystem(w1, lbl, RunContainer(lbl)) else w1
  }

  /** `App::init_schedule_container(label)`: the same with the default
      container, which has no systems. */
  function InitScheduleContainer(w: World, lbl: Label): (r: World)
    ensures lbl in Entries(r.containers)
    ensures lbl in Entries(w.containers) ==> r == w
    ensures lbl !in Entries(w.containers) ==>
              && Entries(r.containers) == Entries(w.containers)[lbl := []]
              && r.schedules == w.schedules[lbl := Registered(w.schedules, lbl) + [RunContainer(lbl)]]
    ensures r.nested == w.nested && r.markers == w.markers && r.state == w.state
  {
    InsertScheduleContainer(w, lbl, [])
  }

  /** Inserting twice under one label keeps the first payload and leaves
      exactly one run system more than before the first insertion. */
  lemma InsertScheduleContainerTwice(w: World, lbl: Label, first: seq<Op>, second: seq<Op>)
    requires lbl !in Entries(w.containers)
    ensures var once := InsertScheduleContainer(w, lbl, first);
            var twice := InsertScheduleContainer(once, lbl, second);
            && twice == once
            && Entries(twice.containers)[lbl] == first
            && Occurrences(twice.schedules[lbl], RunContainer(lbl)) ==
               Occurrences(Registered(w.schedules, lbl), RunContainer(lbl)) + 1
  {
  }

  /** `run_container_system(label)`: it runs the container's systems in a
      world where the label's entry is absent. If that run fails, so does
      the system. If it succeeds, the unchecked reinsert fails with a
      duplicate key iff the run left an entry under the label; otherwise
      the world is the one the run left with the identical container put
      back, the trace is the run's, and the world has only grown. Without store writes, the system succeeds iff
      the run does and changes nothing but the state. */
  lemma RunContainerRunsPayload(fuel: nat, lbl: Label, w: World)
    requires fuel > 0 && w.containers.Some? && lbl in w.containers.value
    ensures var m := w.containers.value;
            var inner := RunOps(fuel - 1, m[lbl], w.(containers := Some(m - {lbl})));
            var r := RunOp(fuel, RunContainer(lbl), w);
            && (inner.Err? ==> r == inner)
            && (inner.Ok? ==> (r.Ok? <==> lbl !in Entries(inner.value.world.containers)))
            && (inner.Ok? && r.Err? ==> r == Err(DuplicateEntry(lbl)))
            && (r.Ok? ==> && r.value.trace == inner.value.trace
                          && r.value.world == inner.value.world.(containers := Some(Entries(inner.value.world.containers)[lbl := m[lbl]]))
                          && r.value.world.containers.value[lbl] == m[lbl]
                          && Grows(w, r.value.world))
            && (ReadOnlyStores(w) ==> (r.Ok? <==> inner.Ok?))
            && (ReadOnlyStores(w) && r.Ok? ==> r.value.world == w.(state := inner.value.world.state))
  {
    var m := w.containers.value;
    OpRestores(fuel, RunContainer(lbl), w);
    OpsRestore(fuel - 1, m[lbl], w.(containers := Some(m - {lbl})));
  }

  /** Without an entry for the label, the run-container system fails. */
  lemma RunContainerNeedsEntry(fuel: nat, lbl: Label, w: World)
    requires lbl !in Entries(w.containers)
    ensures RunOp(fuel, RunContainer(lbl), w) ==
            (if w.containers.None? then Err(MissingResource) else Err(MissingEntry(lbl)))
  {
  }
}
