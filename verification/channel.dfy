/** The shared `queue.Queue`: a FIFO of items with an optional capacity.
    Capacity counts items, and every item the pipe puts is one batch. */
module Channel {
  import opened Outcomes

  /** `maxsize == 0` is Python's unbounded queue. */
  datatype Queue<T> = Queue(items: seq<T>, maxsize: nat)

  /** A non-blocking put raises `queue.Full` exactly when this holds. */
  predicate Full<T>(q: Queue<T>) {
    0 < q.maxsize <= |q.items|
  }

  /** The queue holds no more items than its capacity allows. */
  predicate Bounded<T>(q: Queue<T>) {
    q.maxsize == 0 || |q.items| <= q.maxsize
  }

  /** `q.put(x, block=False)`: all or nothing. `None` is the `queue.Full`
      exception. */
  function PutNowait<T>(q: Queue<T>, x: T): (r: Option<Queue<T>>)
    ensures r.None? <==> Full(q)
    ensures r.Some? ==> r.value.items == q.items + [x] && r.value.maxsize == q.maxsize
    ensures Bounded(q) && r.Some? ==> Bounded(r.value)
  {
    if Full(q) then None else Some(q.(items := q.items + [x]))
  }

  /** `q.get(block=True)` once an item is there: the oldest item and the rest
      of the queue. On an empty queue the source blocks, which the callers
      exclude or report. */
  function Get<T>(q: Queue<T>): (r: (T, Queue<T>))
    requires |q.items| > 0
    ensures [r.0] + r.1.items == q.items
    ensures r.1.maxsize == q.maxsize
    ensures Bounded(q) ==> Bounded(r.1)
  {
    (q.items[0], q.(items := q.items[1..]))
  }

  /** FIFO: an item put behind a non-empty queue does not overtake its
      front, and on an empty queue the next get returns it. */
  lemma PutThenGet<T>(q: Queue<T>, x: T)
    requires !Full(q)
    ensures Get(PutNowait(q, x).value).0 == if |q.items| == 0 then x else q.items[0]
    ensures |q.items| > 0 ==> Get(PutNowait(q, x).value).1 == PutNowait(Get(q).1, x).value
  {
  }
}
