/** The writing end `CW`: a sequence counter, a local buffer of
    `(payload, s0)` pairs and the time of the last successful put. */
module Writer {
  import opened Outcomes
  import opened Clock
  import opened Messages
  import opened Channel

  /** RETRY_FLUSH_ON_QUEUE_FULL: put attempts per flush. */
  const RetryFlushOnQueueFull: nat := 10

  /** SYSTEM_SEND_MAX_FREQUENCY, 1e-4 seconds, in microseconds: the least
      time after a successful put before `send` flushes again. */
  const SendMaxInterval: nat := 100

  datatype Writer<P> = Writer(n: nat, buffer: seq<Pending<P>>, lastPut: Time)

  /** The state after a writer operation: the writer, the shared queue and
      the number of clock readings taken so far. */
  datatype Flushed<P> = Flushed(w: Writer<P>, q: Queue<Batch<P>>, ticks: nat)

  /** The error `__del__` raises. */
  datatype UsageError = BufferNotEmpty

  /** `CW.__init__`. */
  function NewWriter<P>(): Writer<P> {
    Writer(0, [], 0)
  }

  /** The list one put attempt builds: the buffer numbered from `n`, the
      i-th entry stamped with clock reading `k + i`. */
  function Stamp<P>(buffer: seq<Pending<P>>, n: nat, time: Stream, k: nat): Batch<P> {
    seq(|buffer|, i requires 0 <= i < |buffer| => Envelope(buffer[i].obj, n + i, buffer[i].s0, time(k + i)))
  }

  /** `b` carries the buffer's payloads and send times, in order, numbered
      `n, n+1, ...`. */
  ghost predicate BatchOf<P>(b: Batch<P>, buffer: seq<Pending<P>>, n: nat) {
    && |b| == |buffer|
    && forall i :: 0 <= i < |b| ==> b[i].obj == buffer[i].obj && b[i].seqNo == n + i && b[i].s0 == buffer[i].s0
  }

  /** The i-th envelope of `b` was stamped by clock reading `k + i`. */
  ghost predicate EnqueuedAt<P>(b: Batch<P>, time: Stream, k: nat) {
    forall i :: 0 <= i < |b| ==> b[i].s1 == time(k + i)
  }

  lemma BatchOfCarriesBuffer<P>(b: Batch<P>, buffer: seq<Pending<P>>, n: nat)
    requires BatchOf(b, buffer, n)
    ensures Payloads(b) == Objs(buffer)
    ensures NumberedFrom(b, n)
  {
  }

  /** The attempts `retry, retry+1, ...` of the retry loop of `flush`. A
      failed attempt has still read the clock once per buffered entry. */
  function TryFlush<P>(w: Writer<P>, q: Queue<Batch<P>>, time: Stream, ticks: nat, retry: nat): (f: Flushed<P>)
    requires retry <= RetryFlushOnQueueFull
    ensures Full(q) ==> f == Flushed(w, q, ticks + (RetryFlushOnQueueFull - retry) * |w.buffer|)
    ensures !Full(q) && retry < RetryFlushOnQueueFull ==>
      f == Flushed(Writer(w.n + |w.buffer|, [], time(ticks + |w.buffer|)),
                   q.(items := q.items + [Stamp(w.buffer, w.n, time, ticks)]),
                   ticks + |w.buffer| + 1)
    decreases RetryFlushOnQueueFull - retry
  {
    if retry == RetryFlushOnQueueFull then Flushed(w, q, ticks)
    else
      match PutNowait(q, Stamp(w.buffer, w.n, time, ticks))
      case None => TryFlush(w, q, time, ticks + |w.buffer|, retry + 1)
      case Some(q') => Flushed(Writer(w.n + |w.buffer|, [], time(ticks + |w.buffer|)), q', ticks + |w.buffer| + 1)
  }

  /** `CW.flush`. On success exactly one batch, the whole buffer, joins the
      back of the queue; otherwise nothing but the clock has moved. */
  function Flush<P>(w: Writer<P>, q: Queue<Batch<P>>, time: Stream, ticks: nat): (f: Flushed<P>)
    ensures f.q.maxsize == q.maxsize
    ensures Bounded(q) ==> Bounded(f.q)
    ensures !Full(q) ==>
      && |f.q.items| == |q.items| + 1
      && f.q.items[..|q.items|] == q.items
      && BatchOf(f.q.items[|q.items|], w.buffer, w.n)
      && EnqueuedAt(f.q.items[|q.items|], time, ticks)
      && f.w.n == w.n + |w.buffer|
      && f.w.buffer == []
      && f.w.lastPut == time(ticks + |w.buffer|)
      && f.ticks == ticks + |w.buffer| + 1
    ensures Full(q) ==> f.w == w && f.q == q && f.ticks == ticks + RetryFlushOnQueueFull * |w.buffer|
  {
    var f := TryFlush(w, q, time, ticks, 0);
    assert !Full(q) ==> f.q.items[..|q.items|] == q.items;
    f
  }

  /** The rate gate of `send`: a put is due once `SendMaxInterval` has
      passed since the last successful one. */
  predicate GateOpen<P>(w: Writer<P>, s0: Time) {
    !(s0 < w.lastPut + SendMaxInterval)
  }

  /** `CW.send`: read the clock, buffer the payload, and flush if the gate
      is open. */
  function Send<P>(w: Writer<P>, q: Queue<Batch<P>>, obj: P, time: Stream, ticks: nat): (f: Flushed<P>)
    ensures f.q.maxsize == q.maxsize
    ensures Bounded(q) ==> Bounded(f.q)
    ensures q.items <= f.q.items && |f.q.items| <= |q.items| + 1
    ensures |f.q.items| == |q.items| + 1 <==> GateOpen(w, time(ticks)) && !Full(q)
    ensures Payloads(Flatten(f.q.items[|q.items|..])) + Objs(f.w.buffer) == Objs(w.buffer) + [obj]
    ensures f.w.n + |f.w.buffer| == w.n + |w.buffer| + 1
    ensures GateOpen(w, time(ticks)) ==>
      f == Flush(w.(buffer := w.buffer + [Pending(obj, time(ticks))]), q, time, ticks + 1)
    ensures !GateOpen(w, time(ticks)) ==>
      f == Flushed(w.(buffer := w.buffer + [Pending(obj, time(ticks))]), q, ticks + 1)
  {
    var s0 := time(ticks);
    var w' := w.(buffer := w.buffer + [Pending(obj, s0)]);
    if s0 < w.lastPut + SendMaxInterval then
      assert q.items[|q.items|..] == [];
      Flushed(w', q, ticks + 1)
    else
      var f := Flush(w', q, time, ticks + 1);
      SendFlushConserves(w', q, f, obj);
      f
  }

  lemma SendFlushConserves<P>(w': Writer<P>, q: Queue<Batch<P>>, f: Flushed<P>, obj: P)
    requires |w'.buffer| > 0 && w'.buffer[|w'.buffer| - 1].obj == obj
    requires !Full(q) ==>
      && |f.q.items| == |q.items| + 1
      && f.q.items[..|q.items|] == q.items
      && BatchOf(f.q.items[|q.items|], w'.buffer, w'.n)
      && f.w.buffer == []
    requires Full(q) ==> f.w == w' && f.q == q
    ensures Payloads(Flatten(f.q.items[|q.items|..])) + Objs(f.w.buffer) == Objs(w'.buffer[..|w'.buffer| - 1]) + [obj]
  {
  }

  /** `CW.__del__`: discarding a writer whose buffer still holds payloads is
      an error. */
  function Teardown<P>(w: Writer<P>): (e: Option<UsageError>)
    ensures e.Some? <==> |w.buffer| > 0
  {
    if |w.buffer| > 0 then Some(BufferNotEmpty) else None
  }

  /** A flush that found the queue full leaves a non-empty buffer to be
      reported at teardown; a flush that got through leaves nothing to
      report. */
  lemma TeardownAfterFlush<P>(w: Writer<P>, q: Queue<Batch<P>>, time: Stream, ticks: nat)
    ensures Teardown(Flush(w, q, time, ticks).w).Some? <==> Full(q) && |w.buffer| > 0
  {
  }
}
