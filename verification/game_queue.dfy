/** gameQueue (telegram/commands.go): a buffered Go channel of empty structs
    used as a counting semaphore on running games. A send takes a slot, a
    receive gives one back; the buffer size is the number of games that may
    hold a slot at once. */
module GameQueue {
  import opened Optional

  /** The semaphore: its buffer size and how many values sit in the buffer. */
  datatype Queue = Queue(capacity: nat, used: nat) {
    predicate Valid() {
      used <= capacity
    }
  }

  /** A send inside a select with a default branch: it takes a slot when one
      is free and reports failure otherwise. A plain blocking send completes
      in exactly the states where this succeeds. */
  function TryAcquire(q: Queue): (r: Option<Queue>)
    ensures r.Some? <==> q.used < q.capacity
    ensures r.Some? ==> r.value.capacity == q.capacity && r.value.used == q.used + 1
    ensures r.Some? ==> r.value.Valid()
  {
    if q.used < q.capacity then Some(q.(used := q.used + 1)) else None
  }

  /** A receive from the semaphore: it gives a slot back, and cannot complete
      while no slot is taken (a receive on an empty Go channel blocks). */
  function Release(q: Queue): (r: Option<Queue>)
    ensures r.Some? <==> q.used > 0
    ensures r.Some? ==> r.value.capacity == q.capacity && r.value.used + 1 == q.used
    ensures q.Valid() && r.Some? ==> r.value.Valid()
  {
    if q.used > 0 then Some(q.(used := q.used - 1)) else None
  }

  /** A queue without buffer, which also stands for a nil channel: a send in a
      select always takes the default branch and a receive never completes. */
  lemma NilQueueBlocks(q: Queue)
    requires q.Valid() && q.capacity == 0
    ensures TryAcquire(q) == None && Release(q) == None
  {
  }

  /** Taking a slot and giving it back restores the semaphore. */
  lemma AcquireThenRelease(q: Queue)
    requires TryAcquire(q).Some?
    ensures Release(TryAcquire(q).value) == Some(q)
  {
  }

  /** Giving a slot back always makes room to take one again. */
  lemma ReleaseThenAcquire(q: Queue)
    requires q.Valid()
    requires Release(q).Some?
    ensures TryAcquire(Release(q).value) == Some(q)
  {
  }
}
