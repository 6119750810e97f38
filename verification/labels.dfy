/**
 The argument of `add_schedules`: one schedule label, or a tuple of one to
 twenty labels, flattened into an ordered list of labels.
 */
module Labels {
  import opened Host

  /** The widest tuple the label conversion is generated for. */
  const MaxTupleArity: nat := 20

  /** The label sequence of a tuple `(S1, ..., Sn)`, in tuple order. */
  type TupleLabels = s: seq<Label> | 1 <= |s| <= MaxTupleArity witness [""]

  /** What may be passed as the children of `add_schedules`. */
  datatype IntoLabels =
    | Single(lbl: Label)
    | Tuple(lbls: TupleLabels)

  /** The number of labels the argument denotes. */
  function Arity(x: IntoLabels): nat {
    match x
    case Single(_) => 1
    case Tuple(ls) => |ls|
  }

  /** `to_vec`: the labels of the argument, in order, one per position. */
  function ToVec(x: IntoLabels): (r: seq<Label>)
    ensures |r| == Arity(x)
    ensures 1 <= |r| <= MaxTupleArity
    ensures x.Single? ==> r[0] == x.lbl
    ensures x.Tuple? ==> forall i :: 0 <= i < |r| ==> r[i] == x.lbls[i]
  {
    match x
    case Single(l) => [l]
    case Tuple(ls) => ls
  }
}
