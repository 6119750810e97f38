# bevy_schedules_ext, modelled in Dafny

This project models the three extensions `bevy_schedules_ext` adds to a Bevy
app, and proves properties of them:

- **Schedule containers** (`src/containers.rs`). A `ScheduleContainers<S>`
  resource maps a label to one container. Inserting never overwrites an entry.
  The run system moves the container out of the map, runs it, and puts the
  same container back.
- **Nested schedules** (`src/nesting.rs`). `add_schedules(parent, children)`
  does four things:
  - registers every child schedule;
  - creates the parent's child list if it is missing;
  - installs one run-children system in the parent, the first time only;
  - appends the children to the parent's list.

  The run-children system runs the listed schedules in order.
- **State schedules** (`src/states.rs`). `insert_state_to_schedule(parent,
  state)` sets the state resource and adds a run-state system to the parent.
  The run-state system reads the current state once, then runs the schedule
  of that name.

The host world is one immutable `World` record (module `Executor`):

- the schedule registry, each schedule's systems in registration order;
- the nested-children resource, which may not exist yet;
- the markers recording which parents already have a run-children system;
- one generic container resource;
- the state resource of one state type.

Systems are a small datatype:

- an application system that only prints a tag;
- a system that overwrites the state;
- the three systems the layer builds;
- a system that inserts a container, or a child list, through the
  world-level `insert_schedule_container`. A system gets the whole world,
  so it can do this while a run has an entry moved out.

Running a schedule is a fuel-bounded, mutually recursive function. It returns
the final world and the trace of printed tags, or the fault that stopped it.
Three faults are panics: `resource_mut` on a missing resource, `unwrap` on a
missing entry, and an unknown schedule. The fourth is a present key at the
unchecked reinsert. That is not a panic: `insert_unique_unchecked` leaves its
behaviour unspecified, and the model reports it as `DuplicateEntry` instead of
guessing. Every system that runs nested schedules uses one unit of fuel. A
result other than `OutOfFuel` is the same for every larger fuel.

Modules:

- `Host`: labels, `Option`, `Result` and faults.
- `Labels`: the `add_schedules` argument and its `to_vec`.
- `Containers`: the container store.
- `Executor`: the world and the runner.
- `Restoration`: a successful run keeps every entry it found. Without
  store writes it restores the world exactly, apart from the state.
- `Nesting`, `States` and `ContainerSystems`: the app-level operations.
- `Wiring`: an invariant every operation keeps.
- `Scenarios`: the nested-schedules example, self-nesting, and state changes.
- `Fuel`: more fuel never changes a result that did not run out of fuel.
- `Hazards`: runs that fail, each in a world the layer's own calls build:
  a reinsert that meets a present key, a re-entered parent, and cycles.

## Model

| member | source | states |
|---|---|---|
| Labels.ToVec | src/nesting.rs:24-51 | A single label becomes a one-element list. A tuple of 1 to 20 labels becomes its labels in tuple order, one per position. |
| Containers.Insert | src/containers.rs:87-100 | The insertion happens iff the label has no entry. A missing resource counts as empty. Afterwards the label has an entry, and only it is new. A fresh entry holds the payload. An existing entry, and every other entry, is kept. |
| Containers.InsertIsIdempotent | src/containers.rs:87-100 | A second insertion under the same label reports false and leaves the store, including the first payload, unchanged. |
| Containers.InsertThenUpdate | src/nesting.rs:134-149 | Creating a default entry and then overwriting that label equals overwriting the original map. The default never survives. |
| Containers.Take | src/containers.rs:40-44 | Removal succeeds iff the resource exists and holds the label. A missing resource is the panic of `resource_mut`. A missing entry is the panic of `unwrap`. On success it returns that entry's payload and the map without the label, all other entries unchanged. |
| Containers.Restore | src/containers.rs:49-54 | The unchecked reinsertion succeeds iff the label is absent. A present label is reported as a duplicate-key fault. On success the label maps to the payload and all other entries are kept. |
| Containers.TakeThenRestore | src/containers.rs:40-54 | Moving an entry out and straight back gives back the original map. |
| Containers.RestoreThenTake | src/containers.rs:40-54 | Putting an entry into a map without it and taking it again returns that payload and the original map. |
| Executor.InitSchedule | src/nesting.rs:123-126 | The host's `init_schedule` registers the label, keeps an existing schedule's systems, and changes nothing else in the world. |
| Executor.RunSchedule | src/nesting.rs:63-66 | `run_schedule(label)` succeeds only on a registered label. A successful run adds or removes no schedule and no system, and sets no marker. |
| Executor.RunOps | src/containers.rs:46-47 | A container's systems run in order, each from the world the previous one left. Success keeps the registry and the markers. |
| Executor.RunLabels | src/nesting.rs:63-66 | The loop over a child list succeeds only if every listed child is registered. Success keeps the registry and the markers. |
| Executor.RunOp | src/nesting.rs:54-75 | One system run, with the run-children, run-container (src/containers.rs:38-56) and run-state (src/states.rs:17-30) systems as cases. A successful run keeps the registry and the markers. The per-system behaviour is stated by `RunChildrenRunsList`, `RunContainerRunsPayload` and `RunStateRunsSelected`. |
| Executor.AddSystem | src/containers.rs:144-146 | The host's `add_systems` appends exactly one system to the schedule, registering it if needed. Every other schedule and resource is unchanged. |
| Restoration.OpRestores | src/containers.rs:38-56 | A successful system run only grows the world. The registry and markers are kept, and every store entry present at the start is still there with the same payload. If no system a run can reach inserts into a store, more holds: a successful run leaves the world as it found it except the state, and no failure is a duplicate key at the unchecked reinsert. |
| Restoration.ScheduleRestores | src/nesting.rs:54-75 | Both statements hold for a whole schedule run, including runs of nested schedules. |
| Restoration.OpsRestore | src/containers.rs:46-47 | Both statements hold for a container's systems run in order. The exact one needs the list itself to have no store writes. |
| Restoration.LabelsRestore | src/nesting.rs:63-66 | Both statements hold for running a list of child schedules in order. |
| Fuel.ScheduleFuel | src/nesting.rs:63-66 | A schedule run whose result is not `OutOfFuel` gives the same result, success or fault, with any larger fuel. The fuel bound therefore only cuts off runs that nest too deep. |
| Fuel.OpsFuel | src/containers.rs:46-47 | The same for a list of systems run in order. |
| Fuel.LabelsFuel | src/nesting.rs:63-66 | The same for a child list run in order. |
| Fuel.OpFuel | src/nesting.rs:54-75 | The same for one system, including the run-children, run-container and run-state systems. |
| Nesting.InsertMarker | src/nesting.rs:135-141 | The marker call reports true iff the parent had no marker. Afterwards the parent is marked, no other marker changes, and nothing else in the world changes. |
| Nesting.InsertMarkerOnce | src/nesting.rs:135-141 | A second marker call for the same parent reports false and changes nothing, so the run-children system is added at most once. |
| Nesting.RegisterAll | src/nesting.rs:123-126 | After `init_schedule` on every child, each child is registered and no other schedule is added. Existing schedules keep their systems. New ones are empty. |
| Nesting.AddLabels | src/nesting.rs:118-152 | Schedules afterwards are the old ones, the children, and the parent if its system was not yet installed. The parent's list is its old list plus the children. The marker is set. The parent gains the run-children system iff it had no marker. Other schedules are unchanged or new and empty. |
| Nesting.AddSchedules | src/nesting.rs:118-152 | The children are registered and appended to the parent's list. Other parents' lists are unchanged. An unmarked parent gains exactly one run-children system. A marked, registered parent's systems are unchanged. |
| Nesting.AddLabelsSplit | src/nesting.rs:134-149 | Adding `a + b` in one call gives the same world as adding `a`, then `b`. |
| Nesting.AddToMarkedParent | src/nesting.rs:134-141 | If the parent is marked and the children are registered, the call only extends the parent's list. No schedule gains a system. |
| Nesting.AddNothing | src/nesting.rs:134-149 | Adding no children to a parent that already has a list and a marker changes nothing. |
| Nesting.TupleIsSequence | src/nesting.rs:36-51 | `add_schedules(p, (c1, ..., cn))` gives the same world as `add_schedules(p, c1)`, ..., `add_schedules(p, cn)`. |
| Nesting.RunLabelsAppend | src/nesting.rs:64-66 | Running the list `a + b` runs `a`, then `b` from the world `a` left. The traces are concatenated, and the first failure is the result. |
| Nesting.RunChildrenRunsList | src/nesting.rs:54-75 | The run-children system runs the parent's list while the parent's entry is moved out. If that run fails, the system fails with the same fault. If it succeeds, the reinsert fails with a duplicate key iff the run left an entry under the parent. Otherwise the result is the world the run left with the identical list put back, the trace is the run's, and the world has only grown. Without store writes, the system succeeds iff the run does, and only the state changes. |
| Nesting.RunChildrenNeedsEntry | src/nesting.rs:58-61 | With no entry for the parent, the run-children system fails: missing resource if the resource was never created, otherwise missing entry. |
| Nesting.AddSchedulesTwice | src/nesting.rs:134-149 | After two calls on one parent, its list is the old list, then the first children, then the second. The run-children system is added once over both calls, and only if the parent was unmarked. |
| Nesting.RunChildrenOfConcatenation | src/nesting.rs:54-75 | A parent whose list is `a + b` runs `a`, then `b`, both with its own entry moved out, and then reinserts the list. Without store writes the reinsert succeeds, and only the state differs afterwards. |
| States.InsertStateToSchedule | src/states.rs:85-92 | The state becomes the given value. The parent's systems are its old ones plus one run-state system, so the count goes up by one. Other schedules and resources are unchanged. |
| States.InitStateToSchedule | src/states.rs:77-83 | The same, with the initial value built for the state, given as a parameter. |
| States.RunStateRunsSelected | src/states.rs:17-30 | With no state resource the system does nothing. Otherwise it runs the schedule the state named when it started. A successful run only grows the world. Without store writes it changes only the state. |
| States.UnregisteredStateFails | src/states.rs:85-92 | Inserting a state does not register its schedule. If nothing else registers it, the run-state system fails on an unknown schedule. |
| States.InsertStateTwice | src/states.rs:85-92 | Two insertions on one parent leave two run-state systems, with no install-once guard, and the second state value. |
| ContainerSystems.InsertScheduleContainer | src/containers.rs:137-149 | If the label already has a container, nothing changes. Otherwise the container is stored and the label's schedule gains exactly one run-container system. |
| ContainerSystems.InitScheduleContainer | src/containers.rs:129-135 | The same, with an empty container. |
| ContainerSystems.InsertScheduleContainerTwice | src/containers.rs:137-149 | A second insertion keeps the first container and adds no second run-container system. |
| ContainerSystems.RunContainerRunsPayload | src/containers.rs:38-56 | The run-container system runs the container's systems with the entry moved out. If they fail, it fails with the same fault. If they succeed, the reinsert fails with a duplicate key iff they left an entry under the label. Otherwise the result is the world they left with the identical container put back, the trace is theirs, and the world has only grown. Without store writes, it succeeds iff they do, and only the state changes. |
| ContainerSystems.RunContainerNeedsEntry | src/containers.rs:40-44 | With no entry for the label, the run-container system fails: missing resource or missing entry. |
| Wiring.EmptyWorldIsWired | src/containers.rs:22-35 | The empty world meets the wiring invariant: each parent with a list has exactly one run-children system, each container has exactly one run system, and every listed child is registered. |
| Wiring.AddSchedulesKeepsCounts | src/nesting.rs:134-141 | After `add_schedules`, each schedule has exactly one run-children system of its own iff it has a child list, and none otherwise. |
| Wiring.AddSchedulesRegistersChildren | src/nesting.rs:123-126 | After `add_schedules`, every label in every child list is a registered schedule. |
| Wiring.AddSchedulesKeepsWired | src/nesting.rs:118-152 | `add_schedules` keeps the wiring invariant. |
| Wiring.InsertScheduleContainerKeepsWired | src/containers.rs:137-149 | `insert_schedule_container` keeps the wiring invariant. |
| Wiring.InitScheduleContainerKeepsWired | src/containers.rs:129-135 | `init_schedule_container` keeps the wiring invariant. |
| Wiring.InsertStateKeepsWired | src/states.rs:85-92 | `insert_state_to_schedule` keeps the wiring invariant. |
| Wiring.AddAppSystemKeepsWired | examples/nested_schedules.rs:31-49 | Adding an application system to any schedule keeps the wiring invariant. |
| Wiring.RunKeepsWired | src/containers.rs:38-56 | A successful run keeps the wiring invariant when no reachable system inserts into a store. |
| Scenarios.ExampleProgramBuildsTree | examples/nested_schedules.rs:25-64 | The example's calls build the drawn tree. `Update` lists `A, B, A`, `A` lists `AChildren::A, AChildren::B`, and `B` lists `BA`. Each parent has exactly one run-children system, registered before its printing system. |
| Scenarios.ExampleRun | examples/nested_schedules.rs:22-66 | The example's app, with systems in registration order, prints AA, AB, A, BA, B, AA, AB, A when `Update` runs once with any fuel of at least 2, and its world is unchanged. |
| Scenarios.OwnSystemsFirstRun | examples/nested_schedules.rs:68-77 | With each parent's printing system registered before the tree, one run with any fuel of at least 2 prints the order the example expects: A, AA, AB, B, BA, A, AA, AB. |
| Scenarios.TreeRun | examples/nested_schedules.rs:54-64 | Any world with the example tree's schedules and lists prints each parent's children before or after the parent, as its schedule orders them, listing `A` twice, with any fuel of at least 2. |
| Scenarios.SelfNestingFails | src/nesting.rs:54-61 | In the model, a parent nested in itself stops at the `unwrap` of its own moved-out list, whatever nesting depth is allowed. Bevy's `run_schedule` panics one call earlier (see Left out). |
| Scenarios.StateChangesBetweenRuns | src/states.rs:17-30 | With state `Menu`, whose schedule prints and selects `Game`, the first run of `Update` prints `Menu` and leaves `Game` selected. The second run prints `Game`. Both hold for any positive fuel. |
| Scenarios.NoDeferredTransition | src/states.rs:17-30 | Two run-state systems in one schedule: the second runs the schedule the first one's run selected, so `Menu` and `Game` both run in one pass, with any positive fuel. |
| Hazards.ContainerClashBuilt | src/containers.rs:137-149 | `insert_schedule_container(C, container)`, where the container's one system inserts under `C` through the world, builds a wired world. |
| Hazards.ReinsertedContainerClashes | src/containers.rs:38-56 | In that world, for any positive fuel, the run of `C` reaches the unchecked reinsert with `C` present. That behaviour is unspecified, and the model reports it as `DuplicateEntry`. |
| Hazards.ReinsertedChildrenClash | src/nesting.rs:54-75 | The same for child lists: `P` lists `Q`, and `Q`'s system inserts a list under `P`, so for any positive fuel, running `P` ends in `DuplicateEntry` for `P`. |
| Hazards.WriteBreaksWiring | src/containers.rs:87-100 | The world-level insertion adds no run system. A wired world whose one system inserts a container runs successfully and is no longer wired. |
| Hazards.ReentryPanics | src/nesting.rs:58-61 | `P` lists `Q`, and `Q` holds `create_run_children_system(P)`. For any positive fuel, running `P` panics at the `unwrap` for `P`, whose list is moved out. |
| Hazards.CycleBuilt | src/nesting.rs:118-152 | `add_schedules(P, Q)` and then `add_schedules(Q, P)` build a cycle of child lists. |
| Hazards.CycleFails | src/nesting.rs:54-75 | With fuel for at least two levels, running `P` in that cycle stops at the `unwrap` for `P`'s moved-out list. |
| Hazards.StateLoopBuilt | src/states.rs:85-92 | `insert_state_to_schedule(U, U)` gives a schedule `U` holding a run-state system, with state `U`. |
| Hazards.StateLoopRunsOutOfFuel | src/states.rs:17-30 | Running `U` re-enters `U` through the state with nothing moved out to stop it, so every fuel ends in `OutOfFuel`. |

## Left out

- Bevy itself is not part of this model: the world, `App`, interning, and `FromWorld`. The registry, resources and `add_systems` are reduced to the record above. `S::from_world` is a parameter, `initial` or the empty container.
- `insert_schedule_container_system_marker` is not defined in src/containers.rs or src/nesting.rs. It is modelled by `Nesting.InsertMarker` on the `markers` set: true iff the parent had no marker, and the marker is recorded.
- System order is registration order. Bevy leaves the order of unordered systems to its executor. Parallel execution is out of scope.
- A `Container` is one payload kind: a list of systems run in order. The nested-children resource is a second kind. Only one state type exists.
- Bevy's own `run_schedule` removes the running schedule from the registry while it runs and panics when the label is not there. That is not modelled: a running schedule stays registered, so re-entering one is not a fault by itself. A cycle of child lists (`Hazards.CycleFails`, and the self-nested parent of `SelfNestingFails`) ends at the `unwrap` of a moved-out list at src/nesting.rs:60, one call after the point where Bevy has already panicked. A cycle through the state (`Hazards.StateLoopRunsOutOfFuel`) has no moved-out list, and ends in `OutOfFuel` where Bevy panics. `Hazards.ReentryPanics` re-enters no schedule, so it reaches the same `unwrap` in the program too.
- Runs are fuel-bounded: nesting deeper than the fuel allows is reported as `OutOfFuel`. The source has no such limit. `Fuel.ScheduleFuel` proves that any other result is what every larger fuel gives too, so a scenario proved at one fuel holds for the unbounded program. Only runs that never finish are not modelled; every fuel ends them in `OutOfFuel`.
- The `DuplicateEntry` fault stands for behaviour the source leaves unspecified. `insert_unique_unchecked` on a present key does not panic, and in practice keeps a second entry under the same key. The model stops the run there and does not model what happens next.
- There are no `NextState` or transition schedules. A system that changes the state writes the state resource directly, and the change is visible at once.
- `insert_state_to_schedule` does not register the state's schedule; the code is followed here, as `UnregisteredStateFails` shows. The state example uses an older API (`init_state_schedule`, `NextScheduleState`) that is not part of this model.
- The example's expected output assumes each parent prints before its children. In registration order the run-children systems come first, so the as-registered trace (`ExampleRun`) differs from the expected one (`OwnSystemsFirstRun`). Both are proved.
- Restoration.OpRestores: exact restoration, and the absence of duplicate-key faults, hold only when no system a run can reach inserts into a store (`ReadOnlyStores`). In general only growth is proved, and `Hazards.ReinsertedContainerClashes` and `Hazards.ReinsertedChildrenClash` show the duplicate key at the reinsert. The same split applies to `ScheduleRestores`, `OpsRestore`, `LabelsRestore`, `RunContainerRunsPayload`, `RunChildrenRunsList`, `RunChildrenOfConcatenation` and `RunStateRunsSelected`.
- Wiring.RunKeepsWired: proved only for worlds without store-writing systems, because the world-level insertion adds no run system (`Hazards.WriteBreaksWiring`).
- The only writes a system can make besides the state are the world-level container insertions. Other things a system could do with the whole world, such as removing a resource or adding schedules and systems during a run, are not modelled.
