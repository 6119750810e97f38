/**
 Nested schedules: `add_schedules(parent, children)` and the system that
 runs a parent's children.

 A parent's child list lives in the `ScheduleContainers<Vec<Label>>`
 resource (`World.nested`). Adding children registers a schedule for each
 child, creates the parent's list, installs the run-children system the
 first time only, and appends the children in order, duplicates kept.
 */
module Nesting {
  import opened Host
  import opened Labels
  import opened Containers
  import opened Executor
  import opened Restoration

  /** The children listed for `parent`, or none. */
  function ChildrenOf(w: World, parent: Label): seq<Label> {
    var m := Entries(w.nested);
    if parent in m then m[parent] else []
  }

  /** `init_schedule` for each label in order. */
  function RegisterAll(w: World, lbls: seq<Label>): (r: World)
    ensures forall i :: 0 <= i < |lbls| ==> lbls[i] in r.schedules
    ensures forall l :: l in r.schedules <==> l in w.schedules || l in lbls
    ensures forall l :: l in w.schedules ==> r.schedules[l] == w.schedules[l]
    ensures forall l :: l in r.schedules && l !in w.schedules ==> r.schedules[l] == []
    ensures r == w.(schedules := r.schedules)
    decreases |lbls|
  {
    if |lbls| == 0 then w else RegisterAll(InitSchedule(w, lbls[0]), lbls[1..])
  }

  /** `insert_schedule_container_system_marker::<Vec<_>>(parent)`: record
      that the parent has its run-children system; the flag is true iff the
      parent was not recorded before. */
  function InsertMarker(w: World, parent: Label): (r: (World, bool))
    ensures r.1 <==> parent !in w.markers
    ensures parent in r.0.markers && r.0.markers - {parent} == w.markers - {parent}
    ensures r.0 == w.(markers := r.0.markers)
  {
    (w.(markers := w.markers + {parent}), parent !in w.markers)
  }

  /** The marker reports true at most once per parent: a second call finds
      the parent recorded, reports false and changes nothing. */
  lemma InsertMarkerOnce(w: World, parent: Label)
    ensures var first := InsertMarker(w, parent);
            var second := InsertMarker(first.0, parent);
            !second.1 && second.0 == first.0
  {
  }

  /** The systems of schedule `l` after children were added to `parent`:
      the run-children system is appended to the parent the first time, and
      every other schedule keeps its systems, or is new and empty. */
  function ScheduleAfterAdd(w: World, parent: Label, l: Label): seq<Op> {
    if l == parent && parent !in w.markers then Registered(w.schedules, parent) + [RunChildren(parent)]
    else Registered(w.schedules, l)
  }

  /** The body of `add_schedules` once the children are a list of labels. */
  function AddLabels(w: World, parent: Label, lbls: seq<Label>): (r: World)
    ensures forall l :: l in r.schedules <==>
              l in w.schedules || l in lbls || (l == parent && parent !in w.markers)
    ensures forall i :: 0 <= i < |lbls| ==> lbls[i] in r.schedules
    ensures r.nested == Some(Entries(w.nested)[parent := ChildrenOf(w, parent) + lbls])
    ensures r.markers == w.markers + {parent}
    ensures forall l :: l in r.schedules ==> r.schedules[l] == ScheduleAfterAdd(w, parent, l)
    ensures r.containers == w.containers && r.state == w.state
  {
    var w1 := RegisterAll(w, lbls);
    // `init_schedule_container::<Vec<_>>`: an empty list unless one exists
    var init := Insert(w1.nested, parent, []);
    var (w2, added) := InsertMarker(w1.(nested := Some(init.store)), parent);
    var w3 := if added then AddSystem(w2, parent, RunChildren(parent)) else w2;
    assert init.store[parent] == ChildrenOf(w, parent);
    InsertThenUpdate(w1.nested, parent, [], ChildrenOf(w, parent) + lbls);
    w3.(nested := Some(init.store[parent := init.store[parent] + lbls]))
  }

  /** `add_schedules(parent, children)`. */
  function AddSchedules(w: World, parent: Label, children: IntoLabels): (r: World)
    ensures forall l :: l in ToVec(children) ==> l in r.schedules
    ensures ChildrenOf(r, parent) == ChildrenOf(w, parent) + ToVec(children)
    ensures forall q :: q != parent ==> ChildrenOf(r, q) == ChildrenOf(w, q)
    ensures r.markers == w.markers + {parent}
    ensures parent !in w.markers ==>
              parent in r.schedules &&
              Occurrences(r.schedules[parent], RunChildren(parent)) ==
              Occurrences(Registered(w.schedules, parent), RunChildren(parent)) + 1
    ensures parent in w.markers && parent in w.schedules ==>
              parent in r.schedules && r.schedules[parent] == w.schedules[parent]
  {
    AddLabels(w, parent, ToVec(children))
  }

  /** The schedule of one label after adding `lbls` to `parent`. */
  lemma AddLabelsAt(w: World, parent: Label, lbls: seq<Label>, l: Label)
    ensures var r := AddLabels(w, parent, lbls).schedules;
            && (l in r <==> l in w.schedules || l in lbls || (l == parent && parent !in w.markers))
            && (l in r ==> r[l] == ScheduleAfterAdd(w, parent, l))
  {
  }

  /** The schedules after adding `a + b` at once and after adding `a` then `b`. */
  lemma AddLabelsSplitSchedules(w: World, parent: Label, a: seq<Label>, b: seq<Label>)
    ensures AddLabels(w, parent, a + b).schedules == AddLabels(AddLabels(w, parent, a), parent, b).schedules
  {
    var whole := AddLabels(w, parent, a + b).schedules;
    var first := AddLabels(w, parent, a);
    var split := AddLabels(first, parent, b).schedules;
    forall l
      ensures l in whole <==> l in split
      ensures l in whole ==> whole[l] == split[l]
    {
      AddLabelsAt(w, parent, a + b, l);
      AddLabelsAt(w, parent, a, l);
      AddLabelsAt(first, parent, b, l);
      assert l in a + b <==> l in a || l in b;
    }
  }

  /** The child lists after adding `a + b` at once and after adding `a` then `b`. */
  lemma AddLabelsSplitNested(w: World, parent: Label, a: seq<Label>, b: seq<Label>)
    ensures AddLabels(w, parent, a + b).nested == AddLabels(AddLabels(w, parent, a), parent, b).nested
  {
    var first := AddLabels(w, parent, a);
    var m := Entries(w.nested);
    var c := ChildrenOf(w, parent);
    assert ChildrenOf(first, parent) == c + a;
    assert c + (a + b) == c + a + b;
    UpdateTwice(m, parent, c + a, c + a + b);
  }

  /** Adding the labels `a + b` at once or `a` then `b` gives the same world:
      the child list is extended in order and the system installed once. */
  lemma AddLabelsSplit(w: World, parent: Label, a: seq<Label>, b: seq<Label>)
    ensures AddLabels(w, parent, a + b) == AddLabels(AddLabels(w, parent, a), parent, b)
  {
    AddLabelsSplitNested(w, parent, a, b);
    AddLabelsSplitSchedules(w, parent, a, b);
  }

  /** Once a parent's system is installed and the children are registered,
      adding them only extends the parent's list: no schedule changes. */
  lemma AddToMarkedParent(w: World, parent: Label, lbls: seq<Label>)
    requires parent in w.markers
    requires forall i :: 0 <= i < |lbls| ==> lbls[i] in w.schedules
    ensures AddLabels(w, parent, lbls) == w.(nested := Some(Entries(w.nested)[parent := ChildrenOf(w, parent) + lbls]))
  {
    var r := AddLabels(w, parent, lbls);
    forall l
      ensures l in r.schedules <==> l in w.schedules
      ensures l in r.schedules ==> r.schedules[l] == w.schedules[l]
    {
      AddLabelsAt(w, parent, lbls, l);
    }
    assert r.schedules == w.schedules;
  }

  /** Adding the labels one `add_schedules` call at a time. */
  function AddEach(w: World, parent: Label, lbls: seq<Label>): World
    decreases |lbls|
  {
    if |lbls| == 0 then w else AddEach(AddSchedules(w, parent, Single(lbls[0])), parent, lbls[1..])
  }

  /** Once a parent has a list and its system, adding no labels changes nothing. */
  lemma AddNothing(w: World, parent: Label)
    requires w.nested.Some? && parent in w.nested.value && parent in w.markers
    ensures AddLabels(w, parent, []) == w
  {
    var r := AddLabels(w, parent, []);
    var m := w.nested.value;
    assert ChildrenOf(w, parent) + [] == m[parent];
    assert m[parent := m[parent]] == m;
    assert r.schedules == w.schedules;
  }

  /** A tuple is an ordered list of labels: `add_schedules(p, (c1, ..., cn))`
      has the same effect as `add_schedules(p, c1)`, ..., `add_schedules(p, cn)`. */
  lemma {:induction false} TupleIsSequence(w: World, parent: Label, lbls: TupleLabels)
    ensures AddSchedules(w, parent, Tuple(lbls)) == AddEach(w, parent, lbls)
  {
    AddEachFrom(w, parent, lbls);
  }

  lemma {:induction false} AddEachFrom(w: World, parent: Label, lbls: seq<Label>)
    requires |lbls| > 0
    ensures AddLabels(w, parent, lbls) == AddEach(w, parent, lbls)
    decreases |lbls|
  {
    var head := [lbls[0]];
    var next := AddLabels(w, parent, head);
    assert head + lbls[1..] == lbls;
    AddLabelsSplit(w, parent, head, lbls[1..]);
    assert ToVec(Single(lbls[0])) == head;
    if |lbls| == 1 {
      AddNothing(next, parent);
    } else {
      AddEachFrom(next, parent, lbls[1..]);
    }
  }

  /** Running a list of labels that is the concatenation of two lists runs
      the first list, then the second from the world the first left. */
  lemma {:induction false} RunLabelsAppend(fuel: nat, a: seq<Label>, b: seq<Label>, w: World)
    ensures RunLabels(fuel, a + b, w) ==
            (var first :- RunLabels(fuel, a, w);
             var second :- RunLabels(fuel, b, first.world);
             Ok(Step(second.world, first.trace + second.trace)))
    decreases |a|
  {
    if |a| > 0 {
      assert (a + b)[0] == a[0];
      assert (a + b)[1..] == a[1..] + b;
      var head := RunSchedule(fuel, a[0], w);
      if head.Ok? {
        var w1 := head.value.world;
        RunLabelsAppend(fuel, a[1..], b, w1);
        var mid := RunLabels(fuel, a[1..], w1);
        if mid.Ok? {
          var tail := RunLabels(fuel, b, mid.value.world);
          if tail.Ok? {
            assert head.value.trace + (mid.value.trace + tail.value.trace)
                == (head.value.trace + mid.value.trace) + tail.value.trace;
          }
        }
      }
    } else {
      assert a + b == b;
      var rest := RunLabels(fuel, b, w);
      if rest.Ok? {
        assert [] + rest.value.trace == rest.value.trace;
      }
    }
  }

  /** Running the run-children system of `parent` runs its list, in order,
      in a world where the parent's own entry is absent. If that run fails,
      so does the system. If it succeeds, the unchecked reinsert fails with
      a duplicate key iff the run left an entry under `parent`; otherwise
      the world is the one the run left with the identical list put back,
      the trace is the run's, and the world has only grown. Without store writes, the system succeeds iff the run
      does and leaves the world as it was apart from the state. */
  lemma RunChildrenRunsList(fuel: nat, parent: Label, w: World)
    requires fuel > 0 && w.nested.Some? && parent in w.nested.value
    ensures var m := w.nested.value;
            var inner := RunLabels(fuel - 1, m[parent], w.(nested := Some(m - {parent})));
            var r := RunOp(fuel, RunChildren(parent), w);
            && (inner.Err? ==> r == inner)
            && (inner.Ok? ==> (r.Ok? <==> parent !in Entries(inner.value.world.nested)))
            && (inner.Ok? && r.Err? ==> r == Err(DuplicateEntry(parent)))
            && (r.Ok? ==> && r.value.trace == inner.value.trace
                          && r.value.world == inner.value.world.(nested := Some(Entries(inner.value.world.nested)[parent := m[parent]]))
                          && r.value.world.nested.value[parent] == m[parent]
                          && Grows(w, r.value.world))
            && (ReadOnlyStores(w) ==> (r.Ok? <==> inner.Ok?))
            && (ReadOnlyStores(w) && r.Ok? ==> r.value.world == w.(state := inner.value.world.state))
  {
    var m := w.nested.value;
    OpRestores(fuel, RunChildren(parent), w);
    LabelsRestore(fuel - 1, m[parent], w.(nested := Some(m - {parent})));
  }

  /** Without an entry for `parent` (never added, or already moved out by a
      run of the same parent further up), the run-children system fails. */
  lemma RunChildrenNeedsEntry(fuel: nat, parent: Label, w: World)
    requires parent !in Entries(w.nested)
    ensures RunOp(fuel, RunChildren(parent), w) ==
            (if w.nested.None? then Err(MissingResource) else Err(MissingEntry(parent)))
  {
  }

  /** Two `add_schedules` calls on one parent: the list is the old list,
      then the first children, then the second, and across both calls the
      run-children system was added exactly once if it was not there yet. */
  lemma AddSchedulesTwice(w: World, parent: Label, c1: IntoLabels, c2: IntoLabels)
    ensures var w2 := AddSchedules(AddSchedules(w, parent, c1), parent, c2);
            && ChildrenOf(w2, parent) == ChildrenOf(w, parent) + ToVec(c1) + ToVec(c2)
            && Occurrences(Registered(w2.schedules, parent), RunChildren(parent)) ==
               Occurrences(Registered(w.schedules, parent), RunChildren(parent)) + (if parent in w.markers then 0 else 1)
  {
    var w1 := AddSchedules(w, parent, c1);
    AddLabelsAt(w, parent, ToVec(c1), parent);
    AddLabelsAt(w1, parent, ToVec(c2), parent);
  }

  /** A run of a parent whose list is `a + b` runs `a`, then `b`, in the
      world with the parent's entry moved out, and then reinserts the list;
      without store writes the reinsert succeeds and only the state can
      differ afterwards. */
  lemma RunChildrenOfConcatenation(fuel: nat, parent: Label, w: World, a: seq<Label>, b: seq<Label>)
    requires fuel > 0 && w.nested.Some? && parent in w.nested.value && w.nested.value[parent] == a + b
    ensures var during := w.(nested := Some(w.nested.value - {parent}));
            RunOp(fuel, RunChildren(parent), w) ==
            (var first :- RunLabels(fuel - 1, a, during);
             var second :- RunLabels(fuel - 1, b, first.world);
             var back :- Restore(second.world.nested, parent, a + b);
             Ok(Step(second.world.(nested := Some(back)), first.trace + second.trace)))
    ensures var during := w.(nested := Some(w.nested.value - {parent}));
            ReadOnlyStores(w) ==>
            RunOp(fuel, RunChildren(parent), w) ==
            (var first :- RunLabels(fuel - 1, a, during);
             var second :- RunLabels(fuel - 1, b, first.world);
             Ok(Step(w.(state := second.world.state), first.trace + second.trace)))
  {
    var during := w.(nested := Some(w.nested.value - {parent}));
    RunChildrenRunsList(fuel, parent, w);
    RunLabelsAppend(fuel - 1, a, b, during);
  }
}
