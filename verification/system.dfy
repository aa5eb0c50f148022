/** One writer, one reader and their shared queue run in a single
    sequential history, with one clock for both ends. */
module System {
  import opened Outcomes
  import opened Clock
  import opened Messages
  import opened Channel
  import opened Writer
  import opened Reader
  import opened Pipe

  /** The composed state. `sent` and `received` record the payloads the
      caller passed to `send` and got back from `recv`, in call order. */
  datatype Sys<P> = Sys(w: Writer<P>, r: Reader<P>, q: Queue<Batch<P>>, ticks: nat, sent: seq<P>, received: seq<P>)

  /** The calls a caller can make on the two ends. */
  datatype Op<P> = SendOp(obj: P) | FlushOp | RecvOp | DrainOp

  /** Why a history stops: a `recv` that would wait on an empty queue for a
      writer that will never run again, or a fatal reader error. */
  datatype Halt = Blocked | Fault(error: ReadError)

  /** The history before any call, from the ends a factory returned. */
  function Start<P>(e: Ends<P>, ticks: nat): Sys<P> {
    Sys(e.w, e.r, e.q, ticks, [], [])
  }

  /** One call on one end. */
  function Step<P>(s: Sys<P>, op: Op<P>, time: Stream): Result<Sys<P>, Halt> {
    match op
    case SendOp(obj) =>
      var f := Send(s.w, s.q, obj, time, s.ticks);
      Ok(s.(w := f.w, q := f.q, ticks := f.ticks, sent := s.sent + [obj]))
    case FlushOp =>
      var f := Flush(s.w, s.q, time, s.ticks);
      Ok(s.(w := f.w, q := f.q, ticks := f.ticks))
    case RecvOp =>
      if |s.r.buffer| == 0 && |s.q.items| == 0 then Err(Blocked)
      else
        (match Recv(s.r, s.q, time, s.ticks)
         case Err(e) => Err(Fault(e))
         case Ok(x) => Ok(RecvState(s, x)))
    case DrainOp =>
      // `Reader.FlushLogUsing` hands the drained records to its callback.
      Ok(s.(r := Drained(s.r)))
  }

  /** A sequence of calls, stopping at the first that halts. */
  function Run<P>(s: Sys<P>, ops: seq<Op<P>>, time: Stream): Result<Sys<P>, Halt>
    decreases |ops|
  {
    if |ops| == 0 then Ok(s)
    else
      match Step(s, ops[0], time)
      case Err(h) => Err(h)
      case Ok(s') => Run(s', ops[1..], time)
  }

  /** Messages taken from the queue by the reader so far. */
  function FetchedCount<P>(s: Sys<P>): nat {
    |s.received| + |s.r.buffer|
  }

  /** Every sent payload is, exactly once and in send order, received, in
      the reader's buffer, on the queue, or in the writer's buffer. */
  ghost predicate Conserved<P>(s: Sys<P>) {
    s.sent == s.received + s.r.buffer + Payloads(Flatten(s.q.items)) + Objs(s.w.buffer)
  }

  /** The queue's messages continue the reader's count, and the writer's
      counter continues the queue's. */
  ghost predicate Numbered<P>(s: Sys<P>) {
    && NumberedFrom(Flatten(s.q.items), FetchedCount(s))
    && s.w.n == FetchedCount(s) + |Flatten(s.q.items)|
  }

  /** Every time recorded so far is at most `bound`, and every record is in
      protocol order. */
  ghost predicate TimedBy<P>(s: Sys<P>, bound: Time) {
    && StampedBy(Flatten(s.q.items), bound)
    && (forall i :: 0 <= i < |s.w.buffer| ==> s.w.buffer[i].s0 <= bound)
    && (forall i :: 0 <= i < |s.r.log| ==> WellTimed(s.r.log[i]))
  }

  /** What every history keeps, drains included, whatever the clock
      returns. */
  ghost predicate Core<P>(s: Sys<P>) {
    Conserved(s) && Numbered(s) && Bounded(s.q)
  }

  /** `Core` and timestamp order. The time bound is the next clock reading,
      so every later reading of a monotone clock is above all times
      recorded. */
  ghost predicate Inv<P>(s: Sys<P>, time: Stream) {
    Core(s) && TimedBy(s, time(s.ticks))
  }

  /** The reader's sequence check compares against the log length, which
      counts the messages fetched so far only while the log is undrained. */
  ghost predicate LogTracks<P>(s: Sys<P>) {
    |s.r.log| == FetchedCount(s)
  }

  predicate IsMismatch(h: Halt) {
    h.Fault? && h.error.SequenceMismatch?
  }

  ghost predicate DrainFree<P>(ops: seq<Op<P>>) {
    forall i :: 0 <= i < |ops| ==> !ops[i].DrainOp?
  }

  /** A fresh pipe, over its own queue or an empty one supplied by the
      caller, starts out satisfying both invariants. */
  lemma StartInv<P>(q: Option<Queue<Batch<P>>>, ticks: nat, time: Stream)
    requires q.Some? ==> q.value.items == [] 
    ensures MeteredPipe<P>(false, q).Ok?
    ensures Inv(Start(MeteredPipe<P>(false, q).value, ticks), time)
    ensures LogTracks(Start(MeteredPipe<P>(false, q).value, ticks))
  {
  }

  /** Appending the whole writer buffer to the queue as one batch keeps the
      invariant. */
  lemma EnqueueKeepsInv<P>(s: Sys<P>, s': Sys<P>, b: Batch<P>, time: Stream)
    requires Core(s)
    requires s'.sent == s.sent && s'.received == s.received && s'.r == s.r
    requires s'.q == s.q.(items := s.q.items + [b]) && !Full(s.q)
    requires BatchOf(b, s.w.buffer, s.w.n) && EnqueuedAt(b, time, s.ticks)
    requires s'.w.buffer == [] && s'.w.n == s.w.n + |b| && s'.ticks == s.ticks + |b| + 1
    ensures Core(s')
    ensures Monotone(time) && TimedBy(s, time(s.ticks)) ==> TimedBy(s', time(s'.ticks))
  {
    FlattenConcat(s.q.items, [b]);
    assert Flatten([b]) == b + Flatten([]);
    BatchOfCarriesBuffer(b, s.w.buffer, s.w.n);
    EnqueueConserves(s, s', b);
    EnqueueNumbers(s, s', b);
    if Monotone(time) && TimedBy(s, time(s.ticks)) {
      EnqueueTimes(s, s', b, time);
    }
  }

  lemma EnqueueConserves<P>(s: Sys<P>, s': Sys<P>, b: Batch<P>)
    requires Conserved(s)
    requires s'.sent == s.sent && s'.received == s.received && s'.r == s.r
    requires Flatten(s'.q.items) == Flatten(s.q.items) + b
    requires Payloads(b) == Objs(s.w.buffer) && s'.w.buffer == []
    ensures Conserved(s')
  {
  }

  lemma EnqueueNumbers<P>(s: Sys<P>, s': Sys<P>, b: Batch<P>)
    requires Numbered(s)
    requires s'.received == s.received && s'.r == s.r
    requires Flatten(s'.q.items) == Flatten(s.q.items) + b
    requires NumberedFrom(b, s.w.n) && s'.w.n == s.w.n + |b|
    ensures Numbered(s')
  {
  }

  lemma EnqueueTimes<P>(s: Sys<P>, s': Sys<P>, b: Batch<P>, time: Stream)
    requires Monotone(time) && TimedBy(s, time(s.ticks))
    requires s'.r == s.r && s'.w.buffer == []
    requires Flatten(s'.q.items) == Flatten(s.q.items) + b
    requires BatchOf(b, s.w.buffer, s.w.n) && EnqueuedAt(b, time, s.ticks)
    requires s'.ticks == s.ticks + |b| + 1
    ensures TimedBy(s', time(s'.ticks))
  {
    Later(time, s.ticks, s'.ticks);
    forall i | 0 <= i < |b| ensures b[i].s0 <= b[i].s1 <= time(s'.ticks) {
      assert b[i].s0 == s.w.buffer[i].s0;
      assert b[i].s1 == time(s.ticks + i);
      Later(time, s.ticks, s.ticks + i);
      Later(time, s.ticks + i, s'.ticks);
    }
    StampedConcat(Flatten(s.q.items), b, time(s'.ticks));
  }

  /** Advancing the clock alone keeps the invariant. */
  lemma ClockKeepsInv<P>(s: Sys<P>, ticks: nat, time: Stream)
    requires Monotone(time) && Inv(s, time) && s.ticks <= ticks
    ensures Inv(s.(ticks := ticks), time)
  {
    Later(time, s.ticks, ticks);
  }

  /** A flush keeps the invariant, whether the queue was full or not. */
  lemma FlushKeepsInv<P>(s: Sys<P>, time: Stream)
    requires Core(s)
    ensures Step(s, FlushOp, time).Ok?
    ensures Core(Step(s, FlushOp, time).value)
    ensures Monotone(time) && Inv(s, time) ==> Inv(Step(s, FlushOp, time).value, time)
    ensures LogTracks(s) ==> LogTracks(Step(s, FlushOp, time).value)
  {
    var f := Flush(s.w, s.q, time, s.ticks);
    var s' := s.(w := f.w, q := f.q, ticks := f.ticks);
    assert Step(s, FlushOp, time) == Ok(s');
    if Full(s.q) {
      assert s' == s.(ticks := f.ticks);
      if Monotone(time) && Inv(s, time) {
        ClockKeepsInv(s, f.ticks, time);
      }
    } else {
      var b := f.q.items[|s.q.items|];
      assert f.q.items == s.q.items + [b];
      EnqueueKeepsInv(s, s', b, time);
    }
  }

  /** Buffering one payload stamped with the next clock reading keeps the
      invariant. */
  lemma BufferKeepsInv<P>(s: Sys<P>, obj: P, time: Stream)
    requires Core(s)
    ensures Core(s.(w := s.w.(buffer := s.w.buffer + [Pending(obj, time(s.ticks))]), ticks := s.ticks + 1, sent := s.sent + [obj]))
    ensures Monotone(time) && Inv(s, time) ==>
      Inv(s.(w := s.w.(buffer := s.w.buffer + [Pending(obj, time(s.ticks))]), ticks := s.ticks + 1, sent := s.sent + [obj]), time)
  {
    var s1 := s.(w := s.w.(buffer := s.w.buffer + [Pending(obj, time(s.ticks))]), ticks := s.ticks + 1, sent := s.sent + [obj]);
    assert Objs(s1.w.buffer) == Objs(s.w.buffer) + [obj];
    assert Conserved(s1);
    if Monotone(time) && Inv(s, time) {
      Later(time, s.ticks, s1.ticks);
      assert TimedBy(s1, time(s1.ticks));
    }
  }

  /** A send keeps the invariant: buffering keeps it, and the flush the
      open gate triggers keeps it by `FlushKeepsInv`. */
  lemma SendKeepsInv<P>(s: Sys<P>, obj: P, time: Stream)
    requires Core(s)
    ensures Step(s, SendOp(obj), time).Ok?
    ensures Core(Step(s, SendOp(obj), time).value)
    ensures Monotone(time) && Inv(s, time) ==> Inv(Step(s, SendOp(obj), time).value, time)
    ensures LogTracks(s) ==> LogTracks(Step(s, SendOp(obj), time).value)
  {
    var s1 := s.(w := s.w.(buffer := s.w.buffer + [Pending(obj, time(s.ticks))]), ticks := s.ticks + 1, sent := s.sent + [obj]);
    BufferKeepsInv(s, obj, time);
    if GateOpen(s.w, time(s.ticks)) {
      assert Step(s, SendOp(obj), time) == Step(s1, FlushOp, time);
      FlushKeepsInv(s1, time);
    } else {
      assert Step(s, SendOp(obj), time) == Ok(s1);
    }
  }

  /** Taking the front batch off the queue into the (empty) reader buffer,
      logging it, and handing out its first payload keeps the invariant. */
  lemma DequeueKeepsInv<P>(s: Sys<P>, s': Sys<P>, obj: P, time: Stream)
    requires Core(s)
    requires |s.r.buffer| == 0 && |s.q.items| > 0
    requires s'.w == s.w && s'.sent == s.sent && s'.q == s.q.(items := s.q.items[1..])
    requires s'.received == s.received + [obj] && [obj] + s'.r.buffer == Payloads(s.q.items[0])
    requires s'.ticks == s.ticks + 1 + |s.q.items[0]|
    requires |s'.r.log| == |s.r.log| + |s.q.items[0]| && s.r.log <= s'.r.log
    requires forall i :: 0 <= i < |s.q.items[0]| ==>
      s'.r.log[|s.r.log| + i] == Record(s.q.items[0][i].s0, s.q.items[0][i].s1, time(s.ticks), time(s.ticks + 1 + i))
    ensures Core(s')
    ensures Monotone(time) && TimedBy(s, time(s.ticks)) ==> TimedBy(s', time(s'.ticks))
    ensures LogTracks(s) ==> LogTracks(s')
  {
    var batch := s.q.items[0];
    var rest := Flatten(s.q.items[1..]);
    assert Flatten(s.q.items) == batch + rest;
    assert Flatten(s'.q.items) == rest;
    assert FetchedCount(s') == FetchedCount(s) + |batch|;
    DequeueConserves(s, s', obj, batch, rest);
    NumberedConcat(batch, rest, FetchedCount(s));
    if Monotone(time) && TimedBy(s, time(s.ticks)) {
      DequeueTimes(s, s', batch, rest, time);
    }
  }

  lemma DequeueConserves<P>(s: Sys<P>, s': Sys<P>, obj: P, batch: Batch<P>, rest: seq<Envelope<P>>)
    requires Conserved(s) && |s.r.buffer| == 0
    requires Flatten(s.q.items) == batch + rest && Flatten(s'.q.items) == rest
    requires s'.w == s.w && s'.sent == s.sent
    requires s'.received == s.received + [obj] && [obj] + s'.r.buffer == Payloads(batch)
    ensures Conserved(s')
  {
    PayloadsAppend(batch, rest);
    assert s'.received + s'.r.buffer == s.received + Payloads(batch);
  }

  lemma DequeueTimes<P>(s: Sys<P>, s': Sys<P>, batch: Batch<P>, rest: seq<Envelope<P>>, time: Stream)
    requires Monotone(time) && TimedBy(s, time(s.ticks))
    requires Flatten(s.q.items) == batch + rest && Flatten(s'.q.items) == rest
    requires s'.w == s.w && s'.ticks == s.ticks + 1 + |batch|
    requires |s'.r.log| == |s.r.log| + |batch| && s.r.log <= s'.r.log
    requires forall i :: 0 <= i < |batch| ==>
      s'.r.log[|s.r.log| + i] == Record(batch[i].s0, batch[i].s1, time(s.ticks), time(s.ticks + 1 + i))
    ensures TimedBy(s', time(s'.ticks))
  {
    Later(time, s.ticks, s'.ticks);
    StampedConcat(batch, rest, time(s.ticks));
    forall i | 0 <= i < |s'.r.log| ensures WellTimed(s'.r.log[i]) {
      if i >= |s.r.log| {
        var j := i - |s.r.log|;
        assert s'.r.log[|s.r.log| + j] == Record(batch[j].s0, batch[j].s1, time(s.ticks), time(s.ticks + 1 + j));
        Later(time, s.ticks, s.ticks + 1 + j);
      } else {
        assert s'.r.log[i] == s.r.log[i];
      }
    }
  }

  /** A receive that returns keeps the invariant. */
  lemma RecvKeepsInv<P>(s: Sys<P>, time: Stream)
    requires Core(s)
    requires Step(s, RecvOp, time).Ok?
    ensures Core(Step(s, RecvOp, time).value)
    ensures Monotone(time) && Inv(s, time) ==> Inv(Step(s, RecvOp, time).value, time)
    ensures LogTracks(s) ==> LogTracks(Step(s, RecvOp, time).value)
  {
    var x := Recv(s.r, s.q, time, s.ticks).value;
    var s' := RecvState(s, x);
    assert Step(s, RecvOp, time) == Ok(s');
    if |s.r.buffer| > 0 {
      PopKeepsInv(s, s', time);
    } else {
      FetchKeepsInv(s, x, time);
    }
  }

  /** The state a returning receive leaves. */
  function RecvState<P>(s: Sys<P>, x: Received<P>): Sys<P> {
    s.(r := x.r, q := x.q, ticks := x.ticks, received := s.received + [x.obj])
  }

  lemma FetchKeepsInv<P>(s: Sys<P>, x: Received<P>, time: Stream)
    requires Core(s)
    requires |s.r.buffer| == 0 && |s.q.items| > 0
    requires Recv(s.r, s.q, time, s.ticks) == Ok(x)
    ensures Core(RecvState(s, x))
    ensures Monotone(time) && Inv(s, time) ==> Inv(RecvState(s, x), time)
    ensures LogTracks(s) ==> LogTracks(RecvState(s, x))
  {
    FetchedFacts(s.r, s.q, x, time, s.ticks);
    DequeueKeepsInv(s, RecvState(s, x), x.obj, time);
  }

  lemma PopKeepsInv<P>(s: Sys<P>, s': Sys<P>, time: Stream)
    requires Core(s)
    requires s'.w == s.w && s'.q == s.q && s'.ticks == s.ticks && s'.sent == s.sent && s'.r.log == s.r.log
    requires s.received + s.r.buffer == s'.received + s'.r.buffer
    ensures Core(s')
    ensures Inv(s, time) ==> Inv(s', time)
    ensures LogTracks(s) ==> LogTracks(s')
  {
  }

  /** What a receive that had to fetch did, in the terms of
      `DequeueKeepsInv`. */
  lemma FetchedFacts<P>(r: Reader<P>, q: Queue<Batch<P>>, x: Received<P>, time: Stream, ticks: nat)
    requires |r.buffer| == 0 && |q.items| > 0
    requires Recv(r, q, time, ticks) == Ok(x)
    ensures [x.obj] + x.r.buffer == Payloads(q.items[0])
    ensures x.q == q.(items := q.items[1..])
    ensures x.ticks == ticks + 1 + |q.items[0]|
    ensures |x.r.log| == |r.log| + |q.items[0]| && r.log <= x.r.log
    ensures forall i :: 0 <= i < |q.items[0]| ==>
      x.r.log[|r.log| + i] == Record(q.items[0][i].s0, q.items[0][i].s1, time(ticks), time(ticks + 1 + i))
  {
  }

  /** While the log has never been drained, the reader's sequence check
      never fails: the front batch is numbered from the log length. */
  lemma RecvPassesCheck<P>(s: Sys<P>, time: Stream)
    requires Core(s) && LogTracks(s)
    ensures !(Step(s, RecvOp, time).Err? && IsMismatch(Step(s, RecvOp, time).error))
  {
    if |s.r.buffer| == 0 && |s.q.items| > 0 {
      assert Flatten(s.q.items) == s.q.items[0] + Flatten(s.q.items[1..]);
      NumberedConcat(s.q.items[0], Flatten(s.q.items[1..]), FetchedCount(s));
    }
  }

  /** Every call keeps `Core` whatever the clock returns, and keeps
      timestamp order under a monotone clock. */
  lemma StepKeepsInv<P>(s: Sys<P>, op: Op<P>, time: Stream)
    requires Core(s)
    ensures Step(s, op, time).Ok? ==> Core(Step(s, op, time).value)
    ensures Step(s, op, time).Ok? && Monotone(time) && Inv(s, time) ==> Inv(Step(s, op, time).value, time)
    ensures Step(s, op, time).Ok? && LogTracks(s) && !op.DrainOp? ==> LogTracks(Step(s, op, time).value)
    ensures LogTracks(s) && !op.DrainOp? ==> !(Step(s, op, time).Err? && IsMismatch(Step(s, op, time).error))
  {
    match op
    case SendOp(obj) => SendKeepsInv(s, obj, time);
    case FlushOp => FlushKeepsInv(s, time);
    case RecvOp =>
      if Step(s, op, time).Ok? { RecvKeepsInv(s, time); }
      if LogTracks(s) { RecvPassesCheck(s, time); }
    case DrainOp =>
  }

  /** Every history that completes keeps `Core`, and under a monotone clock
      the whole invariant. */
  lemma {:induction false} RunKeepsInv<P>(s: Sys<P>, ops: seq<Op<P>>, time: Stream)
    requires Core(s)
    ensures Run(s, ops, time).Ok? ==> Core(Run(s, ops, time).value)
    ensures Run(s, ops, time).Ok? && Monotone(time) && Inv(s, time) ==> Inv(Run(s, ops, time).value, time)
    decreases |ops|
  {
    if |ops| > 0 {
      StepKeepsInv(s, ops[0], time);
      if Step(s, ops[0], time).Ok? {
        RunKeepsInv(Step(s, ops[0], time).value, ops[1..], time);
      }
    }
  }

  /** A history without drains never trips the sequence check, and its log
      keeps one record per fetched message. */
  lemma {:induction false} DrainFreeRunPassesCheck<P>(s: Sys<P>, ops: seq<Op<P>>, time: Stream)
    requires Core(s) && LogTracks(s) && DrainFree(ops)
    ensures !(Run(s, ops, time).Err? && IsMismatch(Run(s, ops, time).error))
    ensures Run(s, ops, time).Ok? ==> LogTracks(Run(s, ops, time).value)
    decreases |ops|
  {
    if |ops| > 0 {
      assert !ops[0].DrainOp?;
      StepKeepsInv(s, ops[0], time);
      if Step(s, ops[0], time).Ok? {
        assert DrainFree(ops[1..]) by {
          forall i | 0 <= i < |ops[1..]| ensures !ops[1..][i].DrainOp? {
            assert ops[1..][i] == ops[i + 1];
          }
        }
        DrainFreeRunPassesCheck(Step(s, ops[0], time).value, ops[1..], time);
      }
    }
  }

  /** Conservation and ordering over any history of a fresh pipe, whatever
      the clock returns: nothing sent is lost or duplicated, and the
      received payloads are a prefix of the sent ones. Under a monotone
      clock every record is also in protocol order. */
  lemma Conservation<P>(ops: seq<Op<P>>, time: Stream, ticks: nat)
    ensures var s := Start(MeteredPipe<P>(false).value, ticks);
      Run(s, ops, time).Ok? ==>
        var s' := Run(s, ops, time).value;
        && s'.sent == s'.received + s'.r.buffer + Payloads(Flatten(s'.q.items)) + Objs(s'.w.buffer)
        && s'.received <= s'.sent
        && (Monotone(time) ==> forall i :: 0 <= i < |s'.r.log| ==> WellTimed(s'.r.log[i]))
  {
    var s := Start(MeteredPipe<P>(false).value, ticks);
    StartInv<P>(None, ticks, time);
    RunKeepsInv(s, ops, time);
  }

  /** End to end with one writer, one reader and no drains, whatever the
      clock returns: the sequence check never fails and the log holds one
      record per fetched message. */
  lemma EndToEnd<P>(ops: seq<Op<P>>, time: Stream, ticks: nat)
    requires DrainFree(ops)
    ensures var s := Start(MeteredPipe<P>(false).value, ticks);
      && !(Run(s, ops, time).Err? && IsMismatch(Run(s, ops, time).error))
      && (Run(s, ops, time).Ok? ==>
            var s' := Run(s, ops, time).value;
            s'.received <= s'.sent && |s'.r.log| == |s'.received| + |s'.r.buffer|)
  {
    var s := Start(MeteredPipe<P>(false).value, ticks);
    StartInv<P>(None, ticks, time);
    RunKeepsInv(s, ops, time);
    DrainFreeRunPassesCheck(s, ops, time);
  }

  /** The check against the log length is not robust to drains: once
      something has been received, a drain followed by a receive that has to
      fetch a non-empty batch fails the check. */
  lemma DrainThenFetchMismatches<P>(s: Sys<P>, time: Stream)
    requires Core(s)
    requires |s.received| > 0 && |s.r.buffer| == 0
    requires |s.q.items| > 0 && |s.q.items[0]| > 0
    ensures Run(s, [DrainOp, RecvOp], time) == Err(Fault(SequenceMismatch(0, |s.received|)))
  {
    var s1 := Step(s, DrainOp, time).value;
    var batch := s.q.items[0];
    assert Flatten(s.q.items) == batch + Flatten(s.q.items[1..]);
    assert batch[0] == Flatten(s.q.items)[0];
    assert batch[..0] == [];
    assert Run(s, [DrainOp, RecvOp], time) == Run(s1, [RecvOp], time);
  }

  /** A flush of an empty writer buffer still puts a batch, an empty one; a
      receive that fetches it fails instead of waiting for the next batch. */
  lemma EmptyFlushBreaksRecv<P>(s: Sys<P>, time: Stream)
    requires |s.w.buffer| == 0 && |s.r.buffer| == 0 && |s.q.items| == 0
    ensures Run(s, [FlushOp, RecvOp], time) == Err(Fault(EmptyBatch))
  {
  }
}
