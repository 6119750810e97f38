/**
 The world and the sequential execution of schedules.

 The three systems the layer installs (run a container, run a parent's
 children, run the schedule the current state names) each call back into
 `run_schedule`, so they are defined here together with it, as one
 mutually recursive group. Every system that runs nested schedules spends
 one unit of `fuel`; a run that would nest deeper stops with `OutOfFuel`.

 A system receives the whole world, so besides the application's own
 systems the model includes the two that write a container store in the
 middle of a run: the world-level `insert_schedule_container`, once for the
 generic container and once for the child lists.
 */
module Executor {
  import opened Host
  import opened Containers

  /** A system in a schedule. */
  datatype Op =
    | Emit(tag: string)           // an application system; its only effect is its tag in the trace
    | SetState(value: Label)      // an exclusive system that overwrites the `State<S>` resource
    | RunChildren(parent: Label)  // the system `create_run_children_system(parent)` builds
    | RunContainer(lbl: Label)  // the system `run_container_system::<S>(label)` builds
    | RunState                    // the system `create_run_state_system::<S>()` builds
    | InsertContainer(lbl: Label, payload: seq<Op>)       // a system calling `insert_schedule_container::<S>` on the world
    | InsertChildren(parent: Label, children: seq<Label>) // the same for the child lists, `S = Vec<InternedScheduleLabel>`

  /** The parts of the host world the layer touches. */
  datatype World = World(
    schedules: map<Label, seq<Op>>,   // the host's schedule registry, systems in registration order
    nested: Option<Store<seq<Label>>>, // `ScheduleContainers<Vec<InternedScheduleLabel>>`
    markers: set<Label>,              // parents whose run-children system is installed
    containers: Option<Store<seq<Op>>>, // `ScheduleContainers<S>` for a container running its systems in order
    state: Option<Label>)             // the `State<S>` resource of the one state type S

  /** The world with no schedules and no resources. */
  const EmptyWorld: World := World(map[], None, {}, None, None)

  /** The tags the application systems emitted, in execution order. */
  type Trace = seq<string>

  /** The world after a run and the trace the run produced. */
  datatype Step = Step(world: World, trace: Trace)

  /** The systems of a schedule, or none if it is not registered. */
  function Registered(schedules: map<Label, seq<Op>>, lbl: Label): seq<Op> {
    if lbl in schedules then schedules[lbl] else []
  }

  /** How many times `op` occurs among a schedule's systems. */
  function Occurrences(ops: seq<Op>, op: Op): nat {
    multiset(ops)[op]
  }

  /** The host's `init_schedule`: register an empty schedule if absent. */
  function InitSchedule(w: World, lbl: Label): (r: World)
    ensures lbl in r.schedules && r.schedules[lbl] == Registered(w.schedules, lbl)
    ensures r.schedules.Keys == w.schedules.Keys + {lbl}
    ensures forall l :: l in w.schedules ==> r.schedules[l] == w.schedules[l]
    ensures r == w.(schedules := r.schedules)
  {
    if lbl in w.schedules then w else w.(schedules := w.schedules[lbl := []])
  }

  /** The host's `add_systems`: append one system to a schedule, creating
      the schedule first if it does not exist. */
  function AddSystem(w: World, lbl: Label, op: Op): (r: World)
    ensures lbl in r.schedules && r.schedules[lbl] == Registered(w.schedules, lbl) + [op]
    ensures r.schedules.Keys == w.schedules.Keys + {lbl}
    ensures forall l :: l in w.schedules && l != lbl ==> r.schedules[l] == w.schedules[l]
    ensures r == w.(schedules := r.schedules)
  {
    w.(schedules := w.schedules[lbl := Registered(w.schedules, lbl) + [op]])
  }

  /** `run_schedule(label)`: run the schedule's systems in order. */
  function RunSchedule(fuel: nat, lbl: Label, w: World): (r: Result<Step>)
    ensures r.Ok? ==> lbl in w.schedules
    ensures r.Ok? ==> r.value.world.schedules == w.schedules && r.value.world.markers == w.markers
    decreases fuel, 2, 0
  {
    if lbl !in w.schedules then Err(UnknownSchedule(lbl))
    else RunOps(fuel, w.schedules[lbl], w)
  }

  /** Run a list of systems one after another, threading the world. */
  function RunOps(fuel: nat, ops: seq<Op>, w: World): (r: Result<Step>)
    ensures r.Ok? ==> r.value.world.schedules == w.schedules && r.value.world.markers == w.markers
    decreases fuel, 1, |ops|
  {
    if |ops| == 0 then Ok(Step(w, []))
    else
      var first :- RunOp(fuel, ops[0], w);
      var rest :- RunOps(fuel, ops[1..], first.world);
      Ok(Step(rest.world, first.trace + rest.trace))
  }

  /** `run_schedule` on each label in order, as the run-children system does. */
  function RunLabels(fuel: nat, lbls: seq<Label>, w: World): (r: Result<Step>)
    ensures r.Ok? ==> forall i :: 0 <= i < |lbls| ==> lbls[i] in w.schedules
    ensures r.Ok? ==> r.value.world.schedules == w.schedules && r.value.world.markers == w.markers
    decreases fuel, 3, |lbls|
  {
    if |lbls| == 0 then Ok(Step(w, []))
    else
      var first :- RunSchedule(fuel, lbls[0], w);
      var rest :- RunLabels(fuel, lbls[1..], first.world);
      Ok(Step(rest.world, first.trace + rest.trace))
  }

  /** Run one system. */
  function RunOp(fuel: nat, op: Op, w: World): (r: Result<Step>)
    ensures r.Ok? ==> r.value.world.schedules == w.schedules && r.value.world.markers == w.markers
    decreases fuel, 0, 0
  {
    match op
    case Emit(tag) => Ok(Step(w, [tag]))
    case SetState(v) => Ok(Step(w.(state := Some(v)), []))
    case RunChildren(p) =>
      // move the child list out, run each child, move the same list back
      var taken :- Take(w.nested, p);
      if fuel == 0 then Err(OutOfFuel)
      else
        var inner :- RunLabels(fuel - 1, taken.payload, w.(nested := Some(taken.rest)));
        var back :- Restore(inner.world.nested, p, taken.payload);
        Ok(Step(inner.world.(nested := Some(back)), inner.trace))
    case RunContainer(l) =>
      // the same discipline for a generic container, whose run is its systems
      var taken :- Take(w.containers, l);
      if fuel == 0 then Err(OutOfFuel)
      else
        var inner :- RunOps(fuel - 1, taken.payload, w.(containers := Some(taken.rest)));
        var back :- Restore(inner.world.containers, l, taken.payload);
        Ok(Step(inner.world.(containers := Some(back)), inner.trace))
    case RunState =>
      // the state is read once, before the selected schedule runs
      (match w.state
       case None => Ok(Step(w, []))
       case Some(s) =>
         if fuel == 0 then Err(OutOfFuel)
         else RunSchedule(fuel - 1, s, w))
    case InsertContainer(l, payload) =>
      // the world-level insertion: no run system is added, and nothing is overwritten
      Ok(Step(w.(containers := Some(Insert(w.containers, l, payload).store)), []))
    case InsertChildren(p, children) =>
      Ok(Step(w.(nested := Some(Insert(w.nested, p, children).store)), []))
  }
}
