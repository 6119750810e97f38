/**
 Vocabulary shared by every part of the model: schedule labels, the
 failures the layer can run into, and the failure-compatible `Result`
 used to thread them through runs.
 */
module Host {

  /** An interned schedule label. Two labels are equal iff they name the
      same schedule; interning itself is not modelled. */
  type Label = string

  /** A value that may be absent, as a resource that was never inserted. */
  datatype Option<+T> = None | Some(value: T)

  /** The ways a run can stop. The first three are panics in the modelled
      code. `DuplicateEntry` is no panic: `insert_unique_unchecked` on a
      present key is behaviour its contract leaves unspecified, and the
      model stops there rather than guess. `OutOfFuel` only bounds the
      depth of nested runs. */
  datatype Fault =
    | UnknownSchedule(lbl: Label)  // `run_schedule` on a label with no schedule
    | MissingResource              // `resource_mut` on a container resource never created
    | MissingEntry(lbl: Label)     // `remove(&label).unwrap()` on an absent entry
    | DuplicateEntry(lbl: Label)   // `insert_unique_unchecked` on a present entry
    | OutOfFuel                    // nesting deeper than the fuel the caller gave

  /** Success with a value, or the fault that stopped the computation. */
  datatype Result<+T> = Ok(value: T) | Err(error: Fault) {

    predicate IsFailure() {
      Err?
    }

    function PropagateFailure<U>(): Result<U>
      requires Err?
    {
      Err(error)
    }

    function Extract(): T
      requires Ok?
    {
      value
    }
  }
}
