/**
 State schedules: a state value is itself a schedule label, and the
 run-state system runs the schedule the current state names.

 `insert_state_to_schedule(parent, state)` sets the state and appends one
 run-state system to the parent, with no install-once guard.
 */
module States {
  import opened Host
  import opened Executor
  import opened Restoration

  /** `insert_state_to_schedule(parent, state)`: `insert_state` overwrites
      the state resource, then `add_systems` appends a run-state system. */
  function InsertStateToSchedule(w: World, parent: Label, s: Label): (r: World)
    ensures r.state == Some(s)
    ensures parent in r.schedules
    ensures r.schedules[parent] == Registered(w.schedules, parent) + [RunState]
    ensures Occurrences(r.schedules[parent], RunState) == Occurrences(Registered(w.schedules, parent), RunState) + 1
    ensures forall l :: l != parent ==> (l in r.schedules <==> l in w.schedules)
    ensures forall l :: l in w.schedules && l != parent ==> r.schedules[l] == w.schedules[l]
    ensures r.nested == w.nested && r.markers == w.markers && r.containers == w.containers
  {
    AddSystem(w.(state := Some(s)), parent, RunState)
  }

  /** `init_state_to_schedule(parent)`: the same with the state value
      `S::from_world` builds, given here as `initial`. */
  function InitStateToSchedule(w: World, parent: Label, initial: Label): (r: World)
    ensures r.state == Some(initial)
    ensures parent in r.schedules && r.schedules[parent] == Registered(w.schedules, parent) + [RunState]
    ensures forall l :: l in w.schedules && l != parent ==> l in r.schedules && r.schedules[l] == w.schedules[l]
    ensures r.schedules.Keys == w.schedules.Keys + {parent}
    ensures r.nested == w.nested && r.markers == w.markers && r.containers == w.containers
  {
    InsertStateToSchedule(w, parent, initial)
  }

  /** The run-state system: with no state it runs nothing and changes
      nothing; otherwise it runs exactly the schedule named by the state it
      read when it started. A successful run only grows the world, and
      without store writes it changes nothing but the state. */
  lemma RunStateRunsSelected(fuel: nat, w: World)
    ensures w.state.None? ==> RunOp(fuel, RunState, w) == Ok(Step(w, []))
    ensures w.state.Some? && fuel > 0 ==>
              RunOp(fuel, RunState, w) == RunSchedule(fuel - 1, w.state.value, w)
    ensures RunOp(fuel, RunState, w).Ok? ==> Grows(w, RunOp(fuel, RunState, w).value.world)
    ensures ReadOnlyStores(w) && RunOp(fuel, RunState, w).Ok? ==>
              RunOp(fuel, RunState, w).value.world == w.(state := RunOp(fuel, RunState, w).value.world.state)
  {
    OpRestores(fuel, RunState, w);
  }

  /** The state schedule is not registered by the insertion: if nothing else
      registers it, the run-state system fails on the unknown label. */
  lemma UnregisteredStateFails(fuel: nat, w: World, parent: Label, s: Label)
    requires fuel > 0 && s != parent && s !in w.schedules
    ensures RunOp(fuel, RunState, InsertStateToSchedule(w, parent, s)) == Err(UnknownSchedule(s))
  {
  }

  /** Two insertions for one parent leave two run-state systems in its
      schedule, one after the other, and the state of the second call. */
  lemma InsertStateTwice(w: World, parent: Label, s1: Label, s2: Label)
    ensures var r := InsertStateToSchedule(InsertStateToSchedule(w, parent, s1), parent, s2);
            && r.state == Some(s2)
            && r.schedules[parent] == Registered(w.schedules, parent) + [RunState, RunState]
            && Occurrences(r.schedules[parent], RunState) == Occurrences(Registered(w.schedules, parent), RunState) + 2
  {
    var once := Registered(w.schedules, parent) + [RunState];
    assert once + [RunState] == Registered(w.schedules, parent) + [RunState, RunState];
  }
}
