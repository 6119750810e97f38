/**
 Fuel only bounds the depth of nested runs: a run that did not run out of
 fuel gives the same result, success or fault, with any larger fuel. A
 result proved at one fuel is therefore the result of the unbounded run.
 */
module Fuel {
  import opened Host
  import opened Containers
  import opened Executor

  lemma {:induction false} ScheduleFuel(f: nat, g: nat, lbl: Label, w: World)
    requires f <= g && RunSchedule(f, lbl, w) != Err(OutOfFuel)
    ensures RunSchedule(g, lbl, w) == RunSchedule(f, lbl, w)
    decreases f, 2, 0
  {
    if lbl in w.schedules {
      OpsFuel(f, g, w.schedules[lbl], w);
    }
  }

  lemma {:induction false} OpsFuel(f: nat, g: nat, ops: seq<Op>, w: World)
    requires f <= g && RunOps(f, ops, w) != Err(OutOfFuel)
    ensures RunOps(g, ops, w) == RunOps(f, ops, w)
    decreases f, 1, |ops|
  {
    if |ops| > 0 {
      var first := RunOp(f, ops[0], w);
      OpFuel(f, g, ops[0], w);
      if first.Ok? {
        OpsFuel(f, g, ops[1..], first.value.world);
      }
    }
  }

  lemma {:induction false} LabelsFuel(f: nat, g: nat, lbls: seq<Label>, w: World)
    requires f <= g && RunLabels(f, lbls, w) != Err(OutOfFuel)
    ensures RunLabels(g, lbls, w) == RunLabels(f, lbls, w)
    decreases f, 3, |lbls|
  {
    if |lbls| > 0 {
      var first := RunSchedule(f, lbls[0], w);
      ScheduleFuel(f, g, lbls[0], w);
      if first.Ok? {
        LabelsFuel(f, g, lbls[1..], first.value.world);
      }
    }
  }

  lemma {:induction false} OpFuel(f: nat, g: nat, op: Op, w: World)
    requires f <= g && RunOp(f, op, w) != Err(OutOfFuel)
    ensures RunOp(g, op, w) == RunOp(f, op, w)
    decreases f, 0, 0
  {
    match op
    case RunChildren(p) =>
      if f > 0 && w.nested.Some? && p in w.nested.value {
        var m := w.nested.value;
        LabelsFuel(f - 1, g - 1, m[p], w.(nested := Some(m - {p})));
      }
    case RunContainer(l) =>
      if f > 0 && w.containers.Some? && l in w.containers.value {
        var m := w.containers.value;
        OpsFuel(f - 1, g - 1, m[l], w.(containers := Some(m - {l})));
      }
    case RunState =>
      if f > 0 && w.state.Some? {
        ScheduleFuel(f - 1, g - 1, w.state.value, w);
      }
    case _ =>
  }
}
