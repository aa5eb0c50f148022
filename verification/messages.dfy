/** The values that travel from the writer to the reader. */
module Messages {
  import opened Clock

  /** One entry of the writer's local buffer: a payload and the time `send`
      was called for it. */
  datatype Pending<P> = Pending(obj: P, s0: Time)

  /** One message on the channel: the tuple `(obj, n, s0, s1)`, where `n` is
      the writer's sequence number and `s1` the time the enclosing batch was
      built for the put that succeeded. */
  datatype Envelope<P> = Envelope(obj: P, seqNo: nat, s0: Time, s1: Time)

  /** The list a single `put` places on the channel. */
  type Batch<P> = seq<Envelope<P>>

  /** One entry of the reader's metering log: sent, enqueued, fetch started,
      fetch completed. */
  datatype Record = Record(s0: Time, s1: Time, t0: Time, t1: Time)

  /** The payloads of a run of buffer entries, in order. */
  function Objs<P>(buffer: seq<Pending<P>>): seq<P> {
    seq(|buffer|, i requires 0 <= i < |buffer| => buffer[i].obj)
  }

  /** The payloads of a run of envelopes, in order. */
  function Payloads<P>(es: seq<Envelope<P>>): seq<P> {
    seq(|es|, i requires 0 <= i < |es| => es[i].obj)
  }

  /** All envelopes of a sequence of batches, front batch first. */
  function Flatten<P>(batches: seq<Batch<P>>): seq<Envelope<P>>
    decreases |batches|
  {
    if |batches| == 0 then [] else batches[0] + Flatten(batches[1..])
  }

  /** The envelopes carry the consecutive sequence numbers `k, k+1, ...`. */
  ghost predicate NumberedFrom<P>(es: seq<Envelope<P>>, k: nat) {
    forall i :: 0 <= i < |es| ==> es[i].seqNo == k + i
  }

  /** Each envelope was sent no later than it was enqueued, and enqueued no
      later than `bound`. */
  ghost predicate StampedBy<P>(es: seq<Envelope<P>>, bound: Time) {
    forall i :: 0 <= i < |es| ==> es[i].s0 <= es[i].s1 <= bound
  }

  /** A record whose four times are in the order the protocol takes them. */
  ghost predicate WellTimed(r: Record) {
    r.s0 <= r.s1 <= r.t1 && r.t0 <= r.t1
  }

  lemma PayloadsAppend<P>(a: seq<Envelope<P>>, b: seq<Envelope<P>>)
    ensures Payloads(a + b) == Payloads(a) + Payloads(b)
  {
  }

  /** Flattening distributes over concatenation of batch sequences. */
  lemma {:induction false} FlattenConcat<P>(a: seq<Batch<P>>, b: seq<Batch<P>>)
    ensures Flatten(a + b) == Flatten(a) + Flatten(b)
    decreases |a|
  {
    if |a| == 0 {
      assert a + b == b;
    } else {
      assert (a + b)[1..] == a[1..] + b;
      FlattenConcat(a[1..], b);
    }
  }

  lemma NumberedConcat<P>(a: seq<Envelope<P>>, b: seq<Envelope<P>>, k: nat)
    ensures NumberedFrom(a + b, k) <==> NumberedFrom(a, k) && NumberedFrom(b, k + |a|)
  {
    if NumberedFrom(a + b, k) {
      forall i | 0 <= i < |a| ensures a[i].seqNo == k + i {
        assert a[i] == (a + b)[i];
      }
      forall i | 0 <= i < |b| ensures b[i].seqNo == k + |a| + i {
        assert b[i] == (a + b)[|a| + i];
      }
    }
  }

  lemma StampedConcat<P>(a: seq<Envelope<P>>, b: seq<Envelope<P>>, bound: Time)
    ensures StampedBy(a + b, bound) <==> StampedBy(a, bound) && StampedBy(b, bound)
  {
    if StampedBy(a + b, bound) {
      forall i | 0 <= i < |a| ensures a[i].s0 <= a[i].s1 <= bound {
        assert a[i] == (a + b)[i];
      }
      forall i | 0 <= i < |b| ensures b[i].s0 <= b[i].s1 <= bound {
        assert b[i] == (a + b)[|a| + i];
      }
    }
  }
}
