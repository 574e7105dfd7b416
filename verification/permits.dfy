/** The `ArrayBlockingQueue<Object>` of capacity `concurrentRequest` that
    `execute` uses as a counting semaphore: `put` takes a permit and blocks
    while the queue is full, `take` gives one back and blocks while it is
    empty. Only the number of queued objects matters. */
module Permits {
  import opened Wrappers

  /** `inUse` permits are held out of `capacity`. */
  datatype Pool = Pool(capacity: int, inUse: nat)

  /** The pool's invariant: a positive capacity that is never exceeded. */
  predicate Valid(p: Pool) {
    1 <= p.capacity && p.inUse <= p.capacity
  }

  /** `new ArrayBlockingQueue<>(capacity)`, which throws
      `IllegalArgumentException` unless the capacity is at least 1. */
  function NewPool(capacity: int): (r: Option<Pool>)
    ensures r.Some? <==> capacity >= 1
    ensures r.Some? ==> Valid(r.value) && r.value.capacity == capacity && r.value.inUse == 0
  {
    if capacity < 1 then None else Some(Pool(capacity, 0))
  }

  /** `put`: one more permit held, or `None` while the caller would block. */
  function Acquire(p: Pool): (r: Option<Pool>)
    ensures r.Some? <==> p.inUse < p.capacity
    ensures r.Some? ==> r.value.capacity == p.capacity && r.value.inUse == p.inUse + 1
    ensures r.Some? && Valid(p) ==> Valid(r.value)
  {
    if p.inUse < p.capacity then Some(p.(inUse := p.inUse + 1)) else None
  }

  /** `take`: one permit returned, or `None` while the caller would block. */
  function Release(p: Pool): (r: Option<Pool>)
    ensures r.Some? <==> p.inUse > 0
    ensures r.Some? ==> r.value.capacity == p.capacity && r.value.inUse + 1 == p.inUse
    ensures r.Some? && Valid(p) ==> Valid(r.value)
  {
    if p.inUse > 0 then Some(p.(inUse := p.inUse - 1)) else None
  }

  /** A release undoes an acquire, and in a valid pool an acquire undoes a release. */
  lemma AcquireReleaseInverse(p: Pool)
    ensures Acquire(p).Some? ==> Release(Acquire(p).value) == Some(p)
    ensures Valid(p) && Release(p).Some? ==> Acquire(Release(p).value) == Some(p)
  {
  }
}
