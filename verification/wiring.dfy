/**
 The wiring invariant the application-level operations keep: every parent
 with a child list has exactly one run-children system and every other
 schedule has none, every listed child has a schedule, and every generic
 container has exactly one run system. Runs without store writes keep it
 too, because such a run hands every entry back; a system that inserts a
 container through the world adds no run system, and breaks it.
 */
module Wiring {
  import opened Host
  import opened Labels
  import opened Containers
  import opened Executor
  import opened Restoration
  import opened Nesting
  import opened States
  import opened ContainerSystems

  /** The systems an application adds to its schedules itself. */
  predicate AppSystem(op: Op) {
    op.Emit? || op.SetState?
  }

  /** The wiring invariant. */
  ghost predicate Wired(w: World) {
    var nested := Entries(w.nested);
    var containers := Entries(w.containers);
    && (forall p :: p in w.markers <==> p in nested)
    && (forall p :: p in nested ==> p in w.schedules)
    && (forall p :: Occurrences(Registered(w.schedules, p), RunChildren(p)) == if p in nested then 1 else 0)
    && (forall p, i :: p in nested && 0 <= i < |nested[p]| ==> nested[p][i] in w.schedules)
    && (forall l :: l in containers ==> l in w.schedules)
    && (forall l :: Occurrences(Registered(w.schedules, l), RunContainer(l)) == if l in containers then 1 else 0)
  }

  lemma EmptyWorldIsWired()
    ensures Wired(EmptyWorld)
  {
    forall l
      ensures Occurrences(Registered(EmptyWorld.schedules, l), RunChildren(l)) == 0
      ensures Occurrences(Registered(EmptyWorld.schedules, l), RunContainer(l)) == 0
    {
      assert Registered(EmptyWorld.schedules, l) == [];
    }
  }

  /** Appending `op` to a schedule adds one occurrence of `op` and none of
      any other system. */
  lemma OccurrencesAppend(ops: seq<Op>, op: Op, other: Op)
    ensures Occurrences(ops + [op], other) == Occurrences(ops, other) + if op == other then 1 else 0
  {
    assert multiset(ops + [op]) == multiset(ops) + multiset{op};
  }

  /** The system counts of one schedule `q` after `add_schedules`. */
  lemma AddSchedulesCountsAt(w: World, parent: Label, children: IntoLabels, q: Label)
    requires parent in w.markers <==> parent in Entries(w.nested)
    requires Occurrences(Registered(w.schedules, q), RunChildren(q)) == if q in Entries(w.nested) then 1 else 0
    requires Occurrences(Registered(w.schedules, q), RunContainer(q)) == if q in Entries(w.containers) then 1 else 0
    ensures var r := AddSchedules(w, parent, children);
            && Occurrences(Registered(r.schedules, q), RunChildren(q)) == (if q in Entries(r.nested) then 1 else 0)
            && Occurrences(Registered(r.schedules, q), RunContainer(q)) == (if q in Entries(r.containers) then 1 else 0)
  {
    var r := AddLabels(w, parent, ToVec(children));
    AddLabelsAt(w, parent, ToVec(children), q);
    assert Registered(r.schedules, q) == ScheduleAfterAdd(w, parent, q);
    if q == parent && parent !in w.markers {
      OccurrencesAppend(Registered(w.schedules, parent), RunChildren(parent), RunChildren(q));
      OccurrencesAppend(Registered(w.schedules, parent), RunChildren(parent), RunContainer(q));
    }
  }

  lemma AddSchedulesKeepsCounts(w: World, parent: Label, children: IntoLabels)
    requires Wired(w)
    ensures var r := AddSchedules(w, parent, children);
            forall q ::
              && Occurrences(Registered(r.schedules, q), RunChildren(q)) == (if q in Entries(r.nested) then 1 else 0)
              && Occurrences(Registered(r.schedules, q), RunContainer(q)) == (if q in Entries(r.containers) then 1 else 0)
  {
    forall q
      ensures var r := AddSchedules(w, parent, children);
              && Occurrences(Registered(r.schedules, q), RunChildren(q)) == (if q in Entries(r.nested) then 1 else 0)
              && Occurrences(Registered(r.schedules, q), RunContainer(q)) == (if q in Entries(r.containers) then 1 else 0)
    {
      AddSchedulesCountsAt(w, parent, children, q);
    }
  }

  /** A label that was registered or is being added is registered afterwards. */
  lemma ListedChildRegistered(w: World, parent: Label, lbls: seq<Label>, x: Label)
    requires x in w.schedules || x in lbls
    ensures x in AddLabels(w, parent, lbls).schedules
  {
    AddLabelsAt(w, parent, lbls, x);
  }

  /** One entry of a child list after `add_schedules` is registered. */
  lemma ListedChildRegisteredAt(w: World, parent: Label, lbls: seq<Label>, p: Label, i: int)
    requires forall p, i :: p in Entries(w.nested) && 0 <= i < |Entries(w.nested)[p]| ==>
               Entries(w.nested)[p][i] in w.schedules
    requires var after := Entries(w.nested)[parent := ChildrenOf(w, parent) + lbls];
             p in after && 0 <= i < |after[p]|
    ensures Entries(w.nested)[parent := ChildrenOf(w, parent) + lbls][p][i] in AddLabels(w, parent, lbls).schedules
  {
    var before := Entries(w.nested);
    var listed := ChildrenOf(w, parent);
    var after := before[parent := listed + lbls];
    if p == parent && i >= |listed| {
      assert after[p][i] == lbls[i - |listed|];
    } else {
      assert after[p][i] == before[p][i];
    }
    ListedChildRegistered(w, parent, lbls, after[p][i]);
  }

  lemma AddSchedulesRegistersChildren(w: World, parent: Label, children: IntoLabels)
    requires forall p, i :: p in Entries(w.nested) && 0 <= i < |Entries(w.nested)[p]| ==>
               Entries(w.nested)[p][i] in w.schedules
    ensures var r := AddSchedules(w, parent, children);
            forall p, i :: p in Entries(r.nested) && 0 <= i < |Entries(r.nested)[p]| ==>
              Entries(r.nested)[p][i] in r.schedules
  {
    var lbls := ToVec(children);
    var after := Entries(w.nested)[parent := ChildrenOf(w, parent) + lbls];
    assert Entries(AddSchedules(w, parent, children).nested) == after;
    forall p, i | p in after && 0 <= i < |after[p]|
      ensures after[p][i] in AddLabels(w, parent, lbls).schedules
    {
      ListedChildRegisteredAt(w, parent, lbls, p, i);
    }
  }

  lemma AddSchedulesKeepsWired(w: World, parent: Label, children: IntoLabels)
    requires Wired(w)
    ensures Wired(AddSchedules(w, parent, children))
  {
    var r := AddSchedules(w, parent, children);
    AddSchedulesKeepsCounts(w, parent, children);
    AddSchedulesRegistersChildren(w, parent, children);
    forall p | p in Entries(r.nested) || p in Entries(r.containers)
      ensures p in r.schedules
    {
      AddLabelsAt(w, parent, ToVec(children), p);
    }
  }

  lemma InsertScheduleContainerKeepsWired(w: World, lbl: Label, payload: seq<Op>)
    requires Wired(w)
    ensures Wired(InsertScheduleContainer(w, lbl, payload))
  {
    var r := InsertScheduleContainer(w, lbl, payload);
    if lbl !in Entries(w.containers) {
      forall q
        ensures Occurrences(Registered(r.schedules, q), RunChildren(q)) == if q in Entries(r.nested) then 1 else 0
        ensures Occurrences(Registered(r.schedules, q), RunContainer(q)) == if q in Entries(r.containers) then 1 else 0
      {
        if q == lbl {
          OccurrencesAppend(Registered(w.schedules, lbl), RunContainer(lbl), RunChildren(q));
          OccurrencesAppend(Registered(w.schedules, lbl), RunContainer(lbl), RunContainer(q));
        }
      }
    }
  }

  lemma InitScheduleContainerKeepsWired(w: World, lbl: Label)
    requires Wired(w)
    ensures Wired(InitScheduleContainer(w, lbl))
  {
    InsertScheduleContainerKeepsWired(w, lbl, []);
  }

  lemma InsertStateKeepsWired(w: World, parent: Label, s: Label)
    requires Wired(w)
    ensures Wired(InsertStateToSchedule(w, parent, s))
  {
    var r := InsertStateToSchedule(w, parent, s);
    forall q
      ensures Occurrences(Registered(r.schedules, q), RunChildren(q)) == if q in Entries(r.nested) then 1 else 0
      ensures Occurrences(Registered(r.schedules, q), RunContainer(q)) == if q in Entries(r.containers) then 1 else 0
    {
      if q == parent {
        OccurrencesAppend(Registered(w.schedules, parent), RunState, RunChildren(q));
        OccurrencesAppend(Registered(w.schedules, parent), RunState, RunContainer(q));
      }
    }
  }

  lemma AddAppSystemKeepsWired(w: World, lbl: Label, op: Op)
    requires Wired(w) && AppSystem(op)
    ensures Wired(AddSystem(w, lbl, op))
  {
    var r := AddSystem(w, lbl, op);
    forall q
      ensures Occurrences(Registered(r.schedules, q), RunChildren(q)) == if q in Entries(r.nested) then 1 else 0
      ensures Occurrences(Registered(r.schedules, q), RunContainer(q)) == if q in Entries(r.containers) then 1 else 0
    {
      if q == lbl {
        OccurrencesAppend(Registered(w.schedules, lbl), op, RunChildren(q));
        OccurrencesAppend(Registered(w.schedules, lbl), op, RunContainer(q));
      }
    }
  }

  /** A successful run without store writes keeps the invariant: it
      changes nothing but the state. */
  lemma RunKeepsWired(fuel: nat, lbl: Label, w: World)
    requires Wired(w) && ReadOnlyStores(w) && RunSchedule(fuel, lbl, w).Ok?
    ensures Wired(RunSchedule(fuel, lbl, w).value.world)
  {
    ScheduleRestores(fuel, lbl, w);
  }
}
