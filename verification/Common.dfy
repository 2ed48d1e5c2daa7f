/** Small shared datatypes. */
module Common {

  datatype Option<+T> = None | Some(value: T)

  datatype Result<+T, +E> = Ok(value: T) | Err(error: E)
}

/** The poll's selector table: an id is an index, and an index is reused. */
module Slots {
  import opened Common

  type Table<T> = seq<Option<T>>

  /** `ray_poll_register` hands out the lowest free index. */
  function FirstFree<T>(slots: Table<T>): (i: nat)
    ensures i <= |slots|
    ensures i < |slots| ==> slots[i].None?
    ensures forall j :: 0 <= j < i ==> slots[j].Some?
  {
    if slots == [] || slots[0].None? then 0 else 1 + FirstFree(slots[1..])
  }

  function Put<T>(slots: Table<T>, x: T): (r: Table<T>)
    ensures FirstFree(slots) < |r| && r[FirstFree(slots)] == Some(x)
    ensures |r| == if FirstFree(slots) < |slots| then |slots| else |slots| + 1
    ensures forall i :: 0 <= i < |slots| && i != FirstFree(slots) ==> r[i] == slots[i]
  {
    var i := FirstFree(slots);
    if i < |slots| then slots[i := Some(x)] else slots + [Some(x)]
  }

  /** `ray_poll_get`. */
  function At<T>(slots: Table<T>, id: int): Option<T>
  {
    if 0 <= id < |slots| then slots[id] else None
  }
}
