/**
 The per-payload-type container resource `ScheduleContainers<S>`: a map
 from a parent label to one payload, which may not exist yet as a
 resource. Insertion never overwrites, and a run moves the payload out of
 the map and back in again (`Take` then `Restore`).
 */
module Containers {
  import opened Host

  /** The `inner` map of one `ScheduleContainers<S>` resource. */
  type Store<T> = map<Label, T>

  /** The entries of the resource, or none if it was never created; the
      resource's default value is the empty map. */
  function Entries<T>(res: Option<Store<T>>): Store<T> {
    match res
    case None => map[]
    case Some(m) => m
  }

  /** The store after an insertion, and whether the insertion happened. */
  datatype Inserted<T> = Inserted(store: Store<T>, inserted: bool)

  /** `insert_schedule_container`: create the resource if needed, then add
      `payload` under `lbl` only if the label has no entry yet. */
  function Insert<T>(res: Option<Store<T>>, lbl: Label, payload: T): (r: Inserted<T>)
    ensures r.inserted <==> lbl !in Entries(res)
    ensures lbl in r.store
    ensures r.inserted ==> r.store[lbl] == payload
    ensures !r.inserted ==> r.store == Entries(res)
    ensures r.store.Keys == Entries(res).Keys + {lbl}
    ensures forall k :: k in Entries(res) ==> r.store[k] == Entries(res)[k]
  {
    var m := Entries(res);
    if lbl !in m then Inserted(m[lbl := payload], true)
    else Inserted(m, false)
  }

  /** A second update of one key replaces the first. */
  lemma UpdateTwice<K, V>(m: map<K, V>, k: K, v1: V, v2: V)
    ensures m[k := v1][k := v2] == m[k := v2]
  {
  }

  /** Inserting a default entry and then overwriting it is the same as
      overwriting: the default never survives an update of its key. */
  lemma InsertThenUpdate<T>(res: Option<Store<T>>, lbl: Label, payload: T, v: T)
    ensures Insert(res, lbl, payload).store[lbl := v] == Entries(res)[lbl := v]
  {
    if lbl !in Entries(res) {
      UpdateTwice(Entries(res), lbl, payload, v);
    }
  }

  /** A payload moved out of the store, and the store left behind. */
  datatype Taken<T> = Taken(payload: T, rest: Store<T>)

  /** `resource_mut::<ScheduleContainers<S>>().inner.remove(&label).unwrap()`:
      panics if the resource or the entry is missing. */
  function Take<T>(res: Option<Store<T>>, lbl: Label): (r: Result<Taken<T>>)
    ensures r.Ok? <==> res.Some? && lbl in res.value
    ensures res.None? ==> r == Err(MissingResource)
    ensures res.Some? && lbl !in res.value ==> r == Err(MissingEntry(lbl))
    ensures r.Ok? ==> r.value.payload == res.value[lbl]
    ensures r.Ok? ==> lbl !in r.value.rest && r.value.rest.Keys == res.value.Keys - {lbl}
    ensures r.Ok? ==> forall k :: k in r.value.rest ==> r.value.rest[k] == res.value[k]
  {
    match res
    case None => Err(MissingResource)
    case Some(m) =>
      if lbl !in m then Err(MissingEntry(lbl))
      else Ok(Taken(m[lbl], m - {lbl}))
  }

  /** `insert_unique_unchecked(label, payload)`: its contract forbids a
      present key, so a present key is reported as a fault. */
  function Restore<T>(res: Option<Store<T>>, lbl: Label, payload: T): (r: Result<Store<T>>)
    ensures r.Ok? <==> res.Some? && lbl !in res.value
    ensures res.Some? && lbl in res.value ==> r == Err(DuplicateEntry(lbl))
    ensures r.Ok? ==> r.value.Keys == res.value.Keys + {lbl} && r.value[lbl] == payload
    ensures r.Ok? ==> forall k :: k in res.value ==> r.value[k] == res.value[k]
  {
    match res
    case None => Err(MissingResource)
    case Some(m) =>
      if lbl in m then Err(DuplicateEntry(lbl))
      else Ok(m[lbl := payload])
  }

  /** Inserting under a label that already has an entry changes nothing,
      so a second insertion of any payload is a no-op that reports false. */
  lemma InsertIsIdempotent<T>(res: Option<Store<T>>, lbl: Label, first: T, second: T)
    ensures var once := Insert(res, lbl, first);
            var twice := Insert(Some(once.store), lbl, second);
            !twice.inserted && twice.store == once.store && twice.store[lbl] == once.store[lbl]
  {
  }

  /** Moving an entry out and straight back in gives the original store. */
  lemma TakeThenRestore<T>(m: Store<T>, lbl: Label)
    requires lbl in m
    ensures Take(Some(m), lbl).Ok?
    ensures var t := Take(Some(m), lbl).value;
            Restore(Some(t.rest), lbl, t.payload) == Ok(m)
  {
    var t := Take(Some(m), lbl).value;
    assert (m - {lbl})[lbl := m[lbl]] == m;
  }

  /** Restoring into a store that lacks the label and taking it again
      returns exactly the payload and the store before the restore. */
  lemma RestoreThenTake<T>(m: Store<T>, lbl: Label, payload: T)
    requires lbl !in m
    ensures Restore(Some(m), lbl, payload).Ok?
    ensures Take(Some(Restore(Some(m), lbl, payload).value), lbl) == Ok(Taken(payload, m))
  {
    var back := m[lbl := payload];
    assert back - {lbl} == m;
  }
}
