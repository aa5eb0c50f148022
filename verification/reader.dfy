/** The reading end `CR`: a delivery buffer and the metering log. */
module Reader {
  import opened Outcomes
  import opened Clock
  import opened Messages
  import opened Channel

  datatype Reader<P> = Reader(buffer: seq<P>, log: seq<Record>)

  /** The reader's fatal errors: the failed `assert` on a sequence number,
      and the `IndexError` of `recv` after fetching an empty batch. */
  datatype ReadError = SequenceMismatch(expected: nat, found: nat) | EmptyBatch

  /** The state after a fetch: the reader, the shared queue and the number
      of clock readings taken so far. */
  datatype Fetched<P> = Fetched(r: Reader<P>, q: Queue<Batch<P>>, ticks: nat)

  /** The state after a receive, with the payload it returned. */
  datatype Received<P> = Received(obj: P, r: Reader<P>, q: Queue<Batch<P>>, ticks: nat)

  /** `CR.__init__`. */
  function NewReader<P>(): Reader<P> {
    Reader([], [])
  }

  /** `r'` is `r` after taking in all of `batch`: its payloads appended to
      the buffer and one record per message appended to the log, the i-th
      completed at clock reading `k + i`. */
  ghost predicate Unpacked<P>(r: Reader<P>, r': Reader<P>, batch: Batch<P>, t0: Time, time: Stream, k: nat) {
    && r'.buffer == r.buffer + Payloads(batch)
    && |r'.log| == |r.log| + |batch|
    && r.log <= r'.log
    && forall i :: 0 <= i < |batch| ==> r'.log[|r.log| + i] == Record(batch[i].s0, batch[i].s1, t0, time(k + i))
  }

  /** `e` reports the first message of `batch` whose number is not its
      position counted from `start`. */
  ghost predicate FirstMismatch<P>(batch: Batch<P>, start: nat, e: ReadError) {
    exists i :: 0 <= i < |batch| && NumberedFrom(batch[..i], start) && batch[i].seqNo != start + i
             && e == SequenceMismatch(start + i, batch[i].seqNo)
  }

  /** The loop body of `CR.fetch` over the messages of one batch, each
      checked against the current log length before its record is added. */
  function Unpack<P>(r: Reader<P>, batch: Batch<P>, t0: Time, time: Stream, ticks: nat): (res: Result<(Reader<P>, nat), ReadError>)
    ensures res.Ok? <==> NumberedFrom(batch, |r.log|)
    ensures res.Ok? ==> Unpacked(r, res.value.0, batch, t0, time, ticks) && res.value.1 == ticks + |batch|
    ensures res.Err? ==> FirstMismatch(batch, |r.log|, res.error)
    decreases |batch|
  {
    if |batch| == 0 then Ok((r, ticks))
    else
      var e := batch[0];
      var buffer := r.buffer + [e.obj];
      var t1 := time(ticks);
      if e.seqNo != |r.log| then
        assert batch[..0] == [];
        Err(SequenceMismatch(|r.log|, e.seqNo))
      else
        var r1 := Reader(buffer, r.log + [Record(e.s0, e.s1, t0, t1)]);
        var res := Unpack(r1, batch[1..], t0, time, ticks + 1);
        UnpackStep(r, r1, batch, t0, time, ticks, res);
        res
  }

  lemma UnpackStep<P>(r: Reader<P>, r1: Reader<P>, batch: Batch<P>, t0: Time, time: Stream, ticks: nat,
                      res: Result<(Reader<P>, nat), ReadError>)
    requires |batch| > 0 && batch[0].seqNo == |r.log|
    requires r1 == Reader(r.buffer + [batch[0].obj], r.log + [Record(batch[0].s0, batch[0].s1, t0, time(ticks))])
    requires res.Ok? <==> NumberedFrom(batch[1..], |r1.log|)
    requires res.Ok? ==> Unpacked(r1, res.value.0, batch[1..], t0, time, ticks + 1) && res.value.1 == ticks + 1 + |batch[1..]|
    requires res.Err? ==> FirstMismatch(batch[1..], |r1.log|, res.error)
    ensures res.Ok? <==> NumberedFrom(batch, |r.log|)
    ensures res.Ok? ==> Unpacked(r, res.value.0, batch, t0, time, ticks) && res.value.1 == ticks + |batch|
    ensures res.Err? ==> FirstMismatch(batch, |r.log|, res.error)
  {
    NumberedShift(batch, |r.log|);
    if res.Ok? {
      UnpackedShift(r, r1, res.value.0, batch, t0, time, ticks);
    } else {
      MismatchShift(batch, |r.log|, res.error);
    }
  }

  lemma NumberedShift<P>(batch: Batch<P>, start: nat)
    requires |batch| > 0 && batch[0].seqNo == start
    ensures NumberedFrom(batch, start) <==> NumberedFrom(batch[1..], start + 1)
  {
  }

  lemma UnpackedShift<P>(r: Reader<P>, r1: Reader<P>, r': Reader<P>, batch: Batch<P>, t0: Time, time: Stream, ticks: nat)
    requires |batch| > 0
    requires r1 == Reader(r.buffer + [batch[0].obj], r.log + [Record(batch[0].s0, batch[0].s1, t0, time(ticks))])
    requires Unpacked(r1, r', batch[1..], t0, time, ticks + 1)
    ensures Unpacked(r, r', batch, t0, time, ticks)
  {
  }

  lemma MismatchShift<P>(batch: Batch<P>, start: nat, e: ReadError)
    requires |batch| > 0 && batch[0].seqNo == start
    requires FirstMismatch(batch[1..], start + 1, e)
    ensures FirstMismatch(batch, start, e)
  {
    var j :| 0 <= j < |batch[1..]| && NumberedFrom(batch[1..][..j], start + 1) && batch[1..][j].seqNo != start + 1 + j
           && e == SequenceMismatch(start + 1 + j, batch[1..][j].seqNo);
    assert batch[j + 1] == batch[1..][j];
    var prefix := batch[..j + 1];
    assert NumberedFrom(prefix, start) by {
      forall i | 0 <= i < |prefix| ensures prefix[i].seqNo == start + i {
        if i > 0 { assert prefix[i] == batch[1..][..j][i - 1]; }
      }
    }
  }

  /** `CR.fetch` on a queue holding at least one batch: read the clock, take
      the front batch, and take in its messages. On an empty queue the
      source blocks forever, which this precondition excludes. */
  function Fetch<P>(r: Reader<P>, q: Queue<Batch<P>>, time: Stream, ticks: nat): (res: Result<Fetched<P>, ReadError>)
    requires |q.items| > 0
    ensures res.Ok? <==> NumberedFrom(q.items[0], |r.log|)
    ensures res.Ok? ==>
      && res.value.q == q.(items := q.items[1..])
      && Unpacked(r, res.value.r, q.items[0], time(ticks), time, ticks + 1)
      && res.value.ticks == ticks + 1 + |q.items[0]|
    ensures res.Err? ==> FirstMismatch(q.items[0], |r.log|, res.error)
  {
    var t0 := time(ticks);
    var (batch, q') := Get(q);
    match Unpack(r, batch, t0, time, ticks + 1)
    case Err(e) => Err(e)
    case Ok((r', ticks')) => Ok(Fetched(r', q', ticks'))
  }

  /** Under a monotone clock, a fetch of envelopes enqueued before it began
      adds only records whose four times are in protocol order. */
  lemma FetchIsWellTimed<P>(r: Reader<P>, q: Queue<Batch<P>>, time: Stream, ticks: nat)
    requires Monotone(time)
    requires |q.items| > 0
    requires StampedBy(q.items[0], time(ticks))
    requires Fetch(r, q, time, ticks).Ok?
    ensures forall i :: |r.log| <= i < |Fetch(r, q, time, ticks).value.r.log| ==> WellTimed(Fetch(r, q, time, ticks).value.r.log[i])
  {
    var f := Fetch(r, q, time, ticks).value;
    var batch := q.items[0];
    forall i | |r.log| <= i < |f.r.log| ensures WellTimed(f.r.log[i]) {
      var j := i - |r.log|;
      assert f.r.log[|r.log| + j] == Record(batch[j].s0, batch[j].s1, time(ticks), time(ticks + 1 + j));
      Later(time, ticks, ticks + 1 + j);
    }
  }

  /** `CR.recv`: pop the oldest buffered payload, fetching once first if the
      buffer is empty. The precondition is that of the blocking get. */
  function Recv<P>(r: Reader<P>, q: Queue<Batch<P>>, time: Stream, ticks: nat): (res: Result<Received<P>, ReadError>)
    requires |r.buffer| > 0 || |q.items| > 0
    ensures |r.buffer| > 0 ==>
      && res.Ok?
      && [res.value.obj] + res.value.r.buffer == r.buffer
      && res.value.r.log == r.log
      && res.value.q == q
      && res.value.ticks == ticks
    ensures |r.buffer| == 0 ==>
      (res.Ok? <==> NumberedFrom(q.items[0], |r.log|) && |q.items[0]| > 0)
    ensures |r.buffer| == 0 && NumberedFrom(q.items[0], |r.log|) && |q.items[0]| == 0 ==> res == Err(EmptyBatch)
    ensures |r.buffer| == 0 && !NumberedFrom(q.items[0], |r.log|) ==> FirstMismatch(q.items[0], |r.log|, res.error)
    ensures |r.buffer| == 0 && res.Ok? ==>
      && [res.value.obj] + res.value.r.buffer == Payloads(q.items[0])
      && res.value.q == q.(items := q.items[1..])
      && Unpacked(r, res.value.r.(buffer := [res.value.obj] + res.value.r.buffer), q.items[0], time(ticks), time, ticks + 1)
      && res.value.ticks == ticks + 1 + |q.items[0]|
  {
    if |r.buffer| > 0 then
      Ok(Received(r.buffer[0], r.(buffer := r.buffer[1..]), q, ticks))
    else
      match Fetch(r, q, time, ticks)
      case Err(e) => Err(e)
      case Ok(f) =>
        if |f.r.buffer| == 0 then Err(EmptyBatch)
        else Ok(Received(f.r.buffer[0], f.r.(buffer := f.r.buffer[1..]), f.q, f.ticks))
  }

  /** The reader once its log is drained: no records, the buffer untouched. */
  function Drained<P>(r: Reader<P>): Reader<P> {
    r.(log := [])
  }

  /** `CR.flush_log_using(f)`: hand the records to the callback one at a
      time, oldest first, until the log is empty. `calls` lists the
      arguments of the callback's invocations in order. */
  method FlushLogUsing<P>(r: Reader<P>) returns (calls: seq<Record>, r': Reader<P>)
    ensures calls == r.log
    ensures r' == Drained(r) && r'.log == [] && r'.buffer == r.buffer
  {
    calls := [];
    r' := r;
    while |r'.log| > 0
      invariant calls + r'.log == r.log
      invariant r'.buffer == r.buffer
      decreases |r'.log|
    {
      calls := calls + [r'.log[0]];
      r' := r'.(log := r'.log[1..]);
    }
  }

  /** A drain leaves nothing behind, so a second drain makes no calls. */
  method DrainTwice<P>(r: Reader<P>) returns (first: seq<Record>, second: seq<Record>, r': Reader<P>)
    ensures first == r.log && second == []
    ensures r' == Drained(r)
  {
    var r1;
    first, r1 := FlushLogUsing(r);
    second, r' := FlushLogUsing(r1);
  }
}
