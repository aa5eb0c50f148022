/** The factory `MeteredPipe`: a connected reader and writer over one queue. */
module Pipe {
  import opened Outcomes
  import opened Messages
  import opened Channel
  import opened Writer
  import opened Reader

  /** PIPE_BUFFER_SIZE, 2**12: the capacity, in batches, of a fresh queue. */
  const PipeBufferSize: nat := 0x1000

  /** The two ends and the queue they share. */
  datatype Ends<P> = Ends(r: Reader<P>, w: Writer<P>, q: Queue<Batch<P>>)

  /** `NotImplementedError`: only one-way pipes exist. */
  datatype ConfigError = DuplexNotImplemented

  /** `MeteredPipe(duplex=True, q=None)`. As in the source, the default
      request is the unsupported duplex pipe. */
  function MeteredPipe<P>(duplex: bool := true, q: Option<Queue<Batch<P>>> := None): (res: Result<Ends<P>, ConfigError>)
    ensures res.Err? <==> duplex
    ensures res.Ok? ==> res.value.r == NewReader() && res.value.w == NewWriter()
    ensures res.Ok? && q.Some? ==> res.value.q == q.value
    ensures res.Ok? && q.None? ==> res.value.q.items == [] && res.value.q.maxsize == PipeBufferSize
  {
    if duplex then Err(DuplexNotImplemented)
    else
      var q' := if q.None? then Queue([], PipeBufferSize) else q.value;
      Ok(Ends(NewReader(), NewWriter(), q'))
  }
}
