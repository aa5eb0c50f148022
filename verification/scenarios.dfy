/** Concrete histories of a fresh pipe. `Ticking` starts at one millisecond
    and advances one microsecond per reading, faster than the send gate;
    `Slow` advances 100 microseconds per reading, exactly the send gate's
    interval. */
module Scenarios {
  import opened Outcomes
  import opened Clock
  import opened Messages
  import opened Channel
  import opened Writer
  import opened Reader
  import opened Pipe
  import opened System

  function Ticking(): Stream {
    k => 1000 + k
  }

  function Slow(): Stream {
    k => 1000 + 100 * k
  }

  function Fresh(): Sys<int> {
    Start(MeteredPipe<int>(false).value, 0)
  }

  /** One send, one receive: the first send finds the gate open, so the
      payload arrives with one record in protocol order. */
  lemma SendThenRecv()
    ensures Run(Fresh(), [SendOp(43), RecvOp], Ticking()).Ok?
    ensures Run(Fresh(), [SendOp(43), RecvOp], Ticking()).value.received == [43]
    ensures Run(Fresh(), [SendOp(43), RecvOp], Ticking()).value.r.log == [Record(1000, 1001, 1003, 1004)]
  {
  }

  /** Two sends in quick succession: the second is only buffered, so without
      a flush the second receive waits for a batch that never comes. */
  lemma CoalescedSendIsNotDelivered()
    ensures Run(Fresh(), [SendOp(43), SendOp(121), RecvOp, RecvOp], Ticking()) == Err(Blocked)
  {
  }

  /** The states of two sends and two receives under the slow clock. Each
      send finds the gate open and puts its own batch. */
  function SlowOne(a: int): Sys<int> {
    Sys(Writer(1, [], 1200), Reader([], []), Queue([[Envelope(a, 0, 1000, 1100)]], PipeBufferSize), 3, [a], [])
  }

  function SlowTwo(a: int, b: int): Sys<int> {
    Sys(Writer(2, [], 1500), Reader([], []),
        Queue([[Envelope(a, 0, 1000, 1100)], [Envelope(b, 1, 1300, 1400)]], PipeBufferSize), 6, [a, b], [])
  }

  function SlowThree(a: int, b: int): Sys<int> {
    Sys(Writer(2, [], 1500), Reader([], [Record(1000, 1100, 1600, 1700)]),
        Queue([[Envelope(b, 1, 1300, 1400)]], PipeBufferSize), 8, [a, b], [a])
  }

  function SlowFour(a: int, b: int): Sys<int> {
    Sys(Writer(2, [], 1500), Reader([], [Record(1000, 1100, 1600, 1700), Record(1300, 1400, 1800, 1900)]),
        Queue([], PipeBufferSize), 10, [a, b], [a, b])
  }

  lemma SlowFirstSend(a: int)
    ensures Step(Fresh(), SendOp(a), Slow()) == Ok(SlowOne(a))
  {
    var s := Step(Fresh(), SendOp(a), Slow()).value;
    assert |s.q.items| == 1 && |s.q.items[0]| == 1;
    assert s.q.items[0][0] == Envelope(a, 0, 1000, 1100);
    assert s.q.items[0] == [Envelope(a, 0, 1000, 1100)];
    assert s.q == SlowOne(a).q;
    assert s.w == Writer(1, [], 1200) && s.ticks == 3;
    assert s.r == Reader([], []) && s.sent == [a] && s.received == [];
  }

  lemma SlowSecondSend(a: int, b: int)
    ensures Step(SlowOne(a), SendOp(b), Slow()) == Ok(SlowTwo(a, b))
  {
    var s := Step(SlowOne(a), SendOp(b), Slow()).value;
    assert |s.q.items| == 2 && |s.q.items[1]| == 1;
    assert s.q.items[1][0] == Envelope(b, 1, 1300, 1400);
    assert s.q.items[1] == [Envelope(b, 1, 1300, 1400)];
    assert s.q.items[0] == [Envelope(a, 0, 1000, 1100)];
    assert s.q.items == SlowTwo(a, b).q.items;
    assert s.q == SlowTwo(a, b).q;
    assert s.w.n == 2 && s.w.buffer == [] && s.w.lastPut == 1500;
    assert s.ticks == 6;
    assert s.r == Reader([], []) && s.sent == [a, b] && s.received == [];
  }

  lemma SlowFirstRecv(a: int, b: int)
    ensures Step(SlowTwo(a, b), RecvOp, Slow()) == Ok(SlowThree(a, b))
  {
    var s := Step(SlowTwo(a, b), RecvOp, Slow()).value;
    assert s.r.log[0] == Record(1000, 1100, 1600, 1700);
    assert s.r.log == [Record(1000, 1100, 1600, 1700)];
    assert s.r.buffer == [];
    assert s.q.items == SlowTwo(a, b).q.items[1..];
    assert s.q == SlowThree(a, b).q && s.w == SlowThree(a, b).w && s.ticks == 8;
    assert s.sent == [a, b] && s.received == [a];
  }

  lemma SlowSecondRecv(a: int, b: int)
    ensures Step(SlowThree(a, b), RecvOp, Slow()) == Ok(SlowFour(a, b))
  {
    var s := Step(SlowThree(a, b), RecvOp, Slow()).value;
    assert s.r.log[1] == Record(1300, 1400, 1800, 1900);
    assert s.r.log == SlowFour(a, b).r.log;
    assert s.r.buffer == [];
    assert s.q == Queue([], PipeBufferSize) && s.w == SlowFour(a, b).w && s.ticks == 10;
    assert s.sent == [a, b] && s.received == [a, b];
  }

  /** The whole slow history, step by step. */
  lemma SlowHistory(a: int, b: int)
    ensures Run(Fresh(), [SendOp(a), SendOp(b), RecvOp, RecvOp], Slow()) == Ok(SlowFour(a, b))
  {
    var time := Slow();
    var ops := [SendOp(a), SendOp(b), RecvOp, RecvOp];
    SlowFirstSend(a);
    SlowSecondSend(a, b);
    SlowFirstRecv(a, b);
    SlowSecondRecv(a, b);
    assert ops[1..][1..][1..][1..] == [];
    assert Run(SlowThree(a, b), ops[1..][1..][1..], time) == Ok(SlowFour(a, b));
    assert Run(SlowTwo(a, b), ops[1..][1..], time) == Ok(SlowFour(a, b));
    assert Run(SlowOne(a), ops[1..], time) == Ok(SlowFour(a, b));
  }

  /** The same two sends under a clock that advances a full send interval
      per reading: the gate is open again at the second send, so both
      payloads arrive without an explicit flush. */
  lemma SlowSendsAreDelivered()
    ensures Run(Fresh(), [SendOp(43), SendOp(121), RecvOp, RecvOp], Slow()).Ok?
    ensures Run(Fresh(), [SendOp(43), SendOp(121), RecvOp, RecvOp], Slow()).value.received == [43, 121]
  {
    SlowHistory(43, 121);
  }

  /** `test_log`: send 0 and 1, then receive twice. Under the slow clock
      both receives return in order, and the log holds one record per
      message. */
  lemma LogAfterTwoSends()
    ensures Run(Fresh(), [SendOp(0), SendOp(1), RecvOp, RecvOp], Slow()).Ok?
    ensures var s := Run(Fresh(), [SendOp(0), SendOp(1), RecvOp, RecvOp], Slow()).value;
      && s.received == [0, 1]
      && |s.r.log| == 2
      && forall i :: 0 <= i < |s.r.log| ==> WellTimed(s.r.log[i])
  {
    SlowHistory(0, 1);
  }

  /** The drain at the end of `test_log`: `flush_log_using` calls its
      callback twice, once per record, each with four times in protocol
      order, and leaves the log empty. */
  method DrainAfterTwoSends() returns (calls: seq<Record>, r: Reader<int>)
    ensures |calls| == 2
    ensures forall i :: 0 <= i < |calls| ==> WellTimed(calls[i])
    ensures r.log == []
  {
    LogAfterTwoSends();
    var s := Run(Fresh(), [SendOp(0), SendOp(1), RecvOp, RecvOp], Slow()).value;
    calls, r := FlushLogUsing(s.r);
  }

  /** The same two sends followed by a flush: both payloads arrive in send
      order, numbered 0 and 1, with one record each. */
  lemma FlushedSendsAreDelivered()
    ensures Run(Fresh(), [SendOp(43), SendOp(121), FlushOp, RecvOp, RecvOp], Ticking()) == Ok(
      Sys(Writer(2, [], 1005), Reader([], [Record(1000, 1001, 1006, 1007), Record(1003, 1004, 1008, 1009)]),
          Queue([], PipeBufferSize), 10, [43, 121], [43, 121]))
  {
    var time := Ticking();
    var e0 := Envelope(43, 0, 1000, 1001);
    var e1 := Envelope(121, 1, 1003, 1004);
    var s2 := Sys(Writer(1, [Pending(121, 1003)], 1002), Reader([], []), Queue([[e0]], PipeBufferSize), 4, [43, 121], []);
    var s3 := Sys(Writer(2, [], 1005), Reader([], []), Queue([[e0], [e1]], PipeBufferSize), 6, [43, 121], []);
    var s4 := Sys(Writer(2, [], 1005), Reader([], [Record(1000, 1001, 1006, 1007)]), Queue([[e1]], PipeBufferSize), 8, [43, 121], [43]);
    TwoSends();
    FlushSecond(s2, s3);
    RecvFirst(s3, s4);
    RecvSecond(s4);
    assert Run(Fresh(), [SendOp(43), SendOp(121), FlushOp, RecvOp, RecvOp], time)
        == Run(Step(Fresh(), SendOp(43), time).value, [SendOp(121), FlushOp, RecvOp, RecvOp], time);
  }

  lemma TwoSends()
    ensures Step(Fresh(), SendOp(43), Ticking()).Ok?
    ensures Step(Step(Fresh(), SendOp(43), Ticking()).value, SendOp(121), Ticking()) ==
      Ok(Sys(Writer(1, [Pending(121, 1003)], 1002), Reader([], []),
             Queue([[Envelope(43, 0, 1000, 1001)]], PipeBufferSize), 4, [43, 121], []))
  {
    var time := Ticking();
    var s1 := Step(Fresh(), SendOp(43), time).value;
    assert |s1.q.items| == 1 && |s1.q.items[0]| == 1;
    assert s1.q.items[0][0] == Envelope(43, 0, 1000, 1001);
    assert s1.q.items[0] == [Envelope(43, 0, 1000, 1001)];
    assert s1.q == Queue([[Envelope(43, 0, 1000, 1001)]], PipeBufferSize);
    assert s1.w == Writer(1, [], 1002) && s1.ticks == 3;
    var s2 := Step(s1, SendOp(121), time).value;
    assert s2.w.buffer == [Pending(121, 1003)];
    assert s2.w == Writer(1, [Pending(121, 1003)], 1002);
    assert s2.q == s1.q && s2.ticks == 4 && s2.r == Reader([], []);
    assert s2.sent == [43, 121] && s2.received == [];
  }

  lemma FlushSecond(s2: Sys<int>, s3: Sys<int>)
    requires s2 == Sys(Writer(1, [Pending(121, 1003)], 1002), Reader([], []),
                       Queue([[Envelope(43, 0, 1000, 1001)]], PipeBufferSize), 4, [43, 121], [])
    requires s3 == Sys(Writer(2, [], 1005), Reader([], []),
                       Queue([[Envelope(43, 0, 1000, 1001)], [Envelope(121, 1, 1003, 1004)]], PipeBufferSize), 6, [43, 121], [])
    ensures Step(s2, FlushOp, Ticking()) == Ok(s3)
  {
    var s := Step(s2, FlushOp, Ticking()).value;
    assert |s.q.items| == 2 && |s.q.items[1]| == 1;
    assert s.q.items[1][0] == Envelope(121, 1, 1003, 1004);
    assert s.q.items[1] == [Envelope(121, 1, 1003, 1004)];
    assert s.q.items[0] == [Envelope(43, 0, 1000, 1001)];
    assert s.q.items == s3.q.items;
    assert s.q == s3.q;
    assert s.w.n == 2;
    assert s.w.buffer == [];
    assert s.w.lastPut == 1005;
    assert s.ticks == 6;
    assert s.r == s3.r;
    assert s.sent == s3.sent;
    assert s.received == s3.received;
  }

  lemma RecvFirst(s3: Sys<int>, s4: Sys<int>)
    requires s3 == Sys(Writer(2, [], 1005), Reader([], []),
                       Queue([[Envelope(43, 0, 1000, 1001)], [Envelope(121, 1, 1003, 1004)]], PipeBufferSize), 6, [43, 121], [])
    requires s4 == Sys(Writer(2, [], 1005), Reader([], [Record(1000, 1001, 1006, 1007)]),
                       Queue([[Envelope(121, 1, 1003, 1004)]], PipeBufferSize), 8, [43, 121], [43])
    ensures Step(s3, RecvOp, Ticking()) == Ok(s4)
  {
    var s := Step(s3, RecvOp, Ticking()).value;
    assert s.r.log[0] == Record(1000, 1001, 1006, 1007);
    assert s.r.log == [Record(1000, 1001, 1006, 1007)];
    assert s.r.buffer == [];
    assert s.q.items == s3.q.items[1..];
    assert s.q == s4.q && s.w == s4.w && s.ticks == 8;
    assert s.sent == s4.sent && s.received == [43];
  }

  lemma RecvSecond(s4: Sys<int>)
    requires s4 == Sys(Writer(2, [], 1005), Reader([], [Record(1000, 1001, 1006, 1007)]),
                       Queue([[Envelope(121, 1, 1003, 1004)]], PipeBufferSize), 8, [43, 121], [43])
    ensures Step(s4, RecvOp, Ticking()) ==
      Ok(Sys(Writer(2, [], 1005), Reader([], [Record(1000, 1001, 1006, 1007), Record(1003, 1004, 1008, 1009)]),
             Queue([], PipeBufferSize), 10, [43, 121], [43, 121]))
  {
    var s := Step(s4, RecvOp, Ticking()).value;
    assert s.r.log[1] == Record(1003, 1004, 1008, 1009);
    assert s.r.log == [Record(1000, 1001, 1006, 1007), Record(1003, 1004, 1008, 1009)];
    assert s.r.buffer == [];
    assert s.q == Queue([], PipeBufferSize) && s.w == s4.w && s.ticks == 10;
    assert s.sent == s4.sent && s.received == [43, 121];
  }

  /** Two writers on one queue both number from 0, so the reader's check
      fails on the second writer's first message. */
  lemma TwoWritersTripTheCheck()
    ensures var time := Ticking();
      var q := MeteredPipe<int>(false).value.q;
      var f1 := Send(NewWriter(), q, 1, time, 0);
      var f2 := Send(NewWriter(), f1.q, 2, time, f1.ticks);
      var x := Recv(NewReader(), f2.q, time, f2.ticks);
      x.Ok? && x.value.obj == 1 && Recv(x.value.r, x.value.q, time, x.value.ticks) == Err(SequenceMismatch(1, 0))
  {
  }
}
