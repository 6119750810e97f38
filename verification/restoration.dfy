/**
 The move-out/move-back discipline, proved for every run.

 In general a successful run can only grow the container stores: every
 entry present when it started is there at the end, unchanged, and the
 registry and the markers are untouched. A system may insert under the
 label whose entry is moved out, and then the unchecked reinsert meets a
 present key: `DuplicateEntry(l)` happens exactly when the nested run left
 an entry under `l`. When no reachable system writes a store, a successful
 run hands back every entry, so the only thing it can change is the
 current state, and the reinsert never finds its key present.
 */
module Restoration {
  import opened Host
  import opened Containers
  import opened Executor

  /** A system that inserts into a container store. */
  predicate WritesStore(op: Op) {
    op.InsertContainer? || op.InsertChildren?
  }

  /** No system of the list inserts into a container store. */
  predicate ReadOnlyOps(ops: seq<Op>) {
    forall i :: 0 <= i < |ops| ==> !WritesStore(ops[i])
  }

  /** No system a run can reach inserts into a container store: neither a
      registered schedule's nor a generic container's. */
  predicate ReadOnlyStores(w: World) {
    && (forall l :: l in w.schedules ==> ReadOnlyOps(w.schedules[l]))
    && (forall l :: l in Entries(w.containers) ==> ReadOnlyOps(Entries(w.containers)[l]))
  }

  /** Store `b` keeps every entry of `a`, with the same payload. */
  predicate Extends<T(==)>(a: Option<Store<T>>, b: Option<Store<T>>) {
    a.Some? ==> b.Some? && forall k :: k in a.value ==> k in b.value && b.value[k] == a.value[k]
  }

  /** `v` differs from `w` at most in the state and in new store entries. */
  predicate Grows(w: World, v: World) {
    && v.schedules == w.schedules
    && v.markers == w.markers
    && Extends(w.nested, v.nested)
    && Extends(w.containers, v.containers)
  }

  /** What every run promises: on success the world has only grown. */
  predicate Restored(w: World, r: Result<Step>) {
    r.Ok? ==> Grows(w, r.value.world)
  }

  /** What a run without store writes promises: on success the world is
      the one it started from except for the state, and a failure is never
      a duplicate key at reinsertion. */
  predicate Exact(w: World, r: Result<Step>) {
    match r
    case Ok(s) => s.world == w.(state := s.world.state)
    case Err(e) => !e.DuplicateEntry?
  }

  lemma {:induction false} ScheduleRestores(fuel: nat, lbl: Label, w: World)
    ensures Restored(w, RunSchedule(fuel, lbl, w))
    ensures ReadOnlyStores(w) ==> Exact(w, RunSchedule(fuel, lbl, w))
    decreases fuel, 2, 0
  {
    if lbl in w.schedules {
      OpsRestore(fuel, w.schedules[lbl], w);
    }
  }

  lemma {:induction false} OpsRestore(fuel: nat, ops: seq<Op>, w: World)
    ensures Restored(w, RunOps(fuel, ops, w))
    ensures ReadOnlyStores(w) && ReadOnlyOps(ops) ==> Exact(w, RunOps(fuel, ops, w))
    decreases fuel, 1, |ops|
  {
    if |ops| > 0 {
      OpRestores(fuel, ops[0], w);
      var first := RunOp(fuel, ops[0], w);
      if first.Ok? {
        OpsRestore(fuel, ops[1..], first.value.world);
        if ReadOnlyStores(w) && ReadOnlyOps(ops) {
          assert !WritesStore(ops[0]);
          assert ReadOnlyOps(ops[1..]) by {
            forall i | 0 <= i < |ops[1..]| ensures !WritesStore(ops[1..][i]) {
              assert ops[1..][i] == ops[i + 1];
            }
          }
        }
      }
    }
  }

  lemma {:induction false} LabelsRestore(fuel: nat, lbls: seq<Label>, w: World)
    ensures Restored(w, RunLabels(fuel, lbls, w))
    ensures ReadOnlyStores(w) ==> Exact(w, RunLabels(fuel, lbls, w))
    decreases fuel, 3, |lbls|
  {
    if |lbls| > 0 {
      ScheduleRestores(fuel, lbls[0], w);
      var first := RunSchedule(fuel, lbls[0], w);
      if first.Ok? {
        LabelsRestore(fuel, lbls[1..], first.value.world);
      }
    }
  }

  lemma {:induction false} OpRestores(fuel: nat, op: Op, w: World)
    ensures Restored(w, RunOp(fuel, op, w))
    ensures ReadOnlyStores(w) && !WritesStore(op) ==> Exact(w, RunOp(fuel, op, w))
    decreases fuel, 0, 0
  {
    match op
    case Emit(_) =>
    case SetState(_) =>
    case RunChildren(p) =>
      if w.nested.Some? && p in w.nested.value && fuel > 0 {
        var m := w.nested.value;
        LabelsRestore(fuel - 1, m[p], w.(nested := Some(m - {p})));
        assert (m - {p})[p := m[p]] == m;
      }
    case RunContainer(l) =>
      if w.containers.Some? && l in w.containers.value && fuel > 0 {
        var m := w.containers.value;
        var during := w.(containers := Some(m - {l}));
        OpsRestore(fuel - 1, m[l], during);
        if ReadOnlyStores(w) {
          assert Entries(w.containers) == m;
          assert ReadOnlyOps(m[l]);
          assert forall k :: k in Entries(during.containers) ==> Entries(during.containers)[k] == m[k];
        }
        assert (m - {l})[l := m[l]] == m;
      }
    case RunState =>
      if w.state.Some? && fuel > 0 {
        ScheduleRestores(fuel - 1, w.state.value, w);
      }
    case InsertContainer(_, _) =>
    case InsertChildren(_, _) =>
  }
}
