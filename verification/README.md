# metered_pipe in Dafny

A model of the metered pipe from `metered_pipe/metered_pipe.py`. It is a
one-way channel. The writer (`CW`) buffers payloads and flushes them as
numbered batches into a shared bounded queue. The reader (`CR`) takes
batches off the queue, checks the sequence numbers, hands out payloads one
at a time, and keeps a log with four timestamps per message. The factory
`MeteredPipe` wires the two ends to one queue.

Modules, one file each:

- `Outcomes` (`outcomes.dfy`): `Option` and `Result`. A Python exception raised to a caller becomes an `Err`. The `__del__` check, whose exception reaches no caller, is reported as `Some(BufferNotEmpty)`.
- `Clock` (`clock.dfy`): `time.time()` is modelled as a stream. `time(k)` is the value returned by the k-th call. Every state counts the calls made so far (`ticks`). Times are natural numbers in microseconds. Conservation, numbering and the sequence check hold for every stream, including one that steps backwards as a wall clock can. Only timestamp order assumes a monotone stream.
- `Messages` (`messages.dfy`): buffer entries `(obj, s0)`, envelopes `(obj, n, s0, s1)`, batches and metering records.
- `Channel` (`channel.dfy`): `queue.Queue` as a FIFO with `maxsize`, where 0 means unbounded. A non-blocking put fails exactly when `0 < maxsize <= qsize`.
- `Writer` (`writer.dfy`): `CW`: `flush` with its retry loop, `send` with its rate gate, and the `__del__` check.
- `Reader` (`reader.dfy`): `CR`: `fetch` with its sequence check, `recv`, and `flush_log_using`.
- `Pipe` (`pipe.dfy`): the `MeteredPipe` factory and `PIPE_BUFFER_SIZE`.
- `System` (`system.dfy`): one writer, one reader and their queue under one clock. It runs any sequence of `send`, `flush`, `recv` and log drains. Its invariant `Core` gives conservation and ordering of payloads and numbering under any clock. `Inv` adds timestamp order, kept under a monotone clock.
- `Scenarios` (`scenarios.dfy`): concrete histories. They cover the repository's in-process tests (`test_io_inprocess_1`, `test_io_inprocess_2` under a fast and a slow clock, `test_log`). They also cover two histories that show edge cases of the code: an explicit flush after quick sends, and two writers on one queue.

Constants follow the source. There are 10 put attempts per flush. The send interval is `1e-4` s, which is 100 µs. A fresh queue holds `2**12` batches.

Some behaviours of the code are easy to miss. The model follows the code in each:

- Each envelope gets its own `s1`. It comes from a separate clock reading taken while the batch list is built. There is no single enqueue time per batch.
- `recv` fetches exactly once. If that batch is empty, `recv` fails (`EmptyBatch`, an `IndexError` in Python). It does not fetch again. An explicit `flush` on an empty buffer puts such an empty batch (`System.EmptyFlushBreaksRecv`).
- The sequence check compares against the current log length. Draining the log resets that length. So once anything has been received, a drain followed by a fetch of a non-empty batch fails the check (`System.DrainThenFetchMismatches`). The log tracks the fetched-message count only in histories without drains (`System.EndToEnd`).
- The second `send` of two quick sends is only buffered. Without a `flush`, the second `recv` waits forever (`Scenarios.CoalescedSendIsNotDelivered`). Under a clock that advances at least the send interval per reading, the gate is open again at the second send and both payloads arrive (`Scenarios.SlowSendsAreDelivered`). So the repository's two-item test depends on how fast the clock advances.

## Model

| member | source | states |
|---|---|---|
| Channel.PutNowait | metered_pipe/metered_pipe.py:43-50 | a non-blocking put fails exactly when the queue is full; otherwise it appends the one item at the back and keeps the capacity and the bound |
| Channel.Get | metered_pipe/metered_pipe.py:88 | a get on a non-empty queue returns the oldest item; the item followed by the remaining queue is the old queue |
| Channel.PutThenGet | metered_pipe/metered_pipe.py:119-123 | FIFO: an item put behind a non-empty queue does not overtake its front, and on an empty queue the next get returns it |
| Writer.BatchOfCarriesBuffer | metered_pipe/metered_pipe.py:44-47 | a batch built from the buffer carries the buffer's payloads in order, numbered consecutively from the counter |
| Writer.TryFlush | metered_pipe/metered_pipe.py:41-56 | the retry loop: against a full queue every remaining attempt fails, state is unchanged, and each attempt has read the clock once per entry; otherwise the first attempt puts the stamped buffer and resets the writer |
| Writer.Flush | metered_pipe/metered_pipe.py:40-59 | if the queue has room, exactly one batch joins the back: the buffer's payloads and send times in order, numbered n..n+len-1, each stamped by its own reading; n advances by the buffer length, the buffer empties, and the last-put time is the next reading; if the queue is full, writer and queue are unchanged |
| Writer.Send | metered_pipe/metered_pipe.py:61-68 | one `(obj, s0)` is appended with s0 the current reading; flush is called iff s0 >= last put + interval; the queue grows by at most one batch, and by one exactly when the gate is open and the queue has room; payloads put plus buffer equal old buffer plus obj |
| Writer.Teardown | metered_pipe/metered_pipe.py:74-76 | the teardown check raises exactly when the buffer is non-empty |
| Writer.TeardownAfterFlush | metered_pipe/metered_pipe.py:40-76 | after a flush, teardown raises exactly when the queue was full and the buffer non-empty |
| Reader.Unpack | metered_pipe/metered_pipe.py:88-93 | taking in a batch succeeds iff its numbers run on from the log length; then the payloads are appended in order and one record per message, the i-th with its own completion reading; otherwise it reports the first mismatching message, expected against found |
| Reader.Fetch | metered_pipe/metered_pipe.py:85-95 | removes exactly the front batch and takes it in, with start time the reading before the get; fails iff some message's number differs from the log length at that point |
| Reader.FetchIsWellTimed | metered_pipe/metered_pipe.py:86-93 | under a monotone clock, and for a front batch whose every s0 <= s1 is at most the reading before the fetch, every record a fetch adds has s0 <= s1 <= t1 and t0 <= t1 |
| Reader.Recv | metered_pipe/metered_pipe.py:97-104 | on a non-empty buffer returns its head, keeps the tail, leaves the queue and clock alone; on an empty buffer fetches once and returns the batch's first payload, failing with the sequence error or, for an empty batch, with `EmptyBatch` |
| Reader.FlushLogUsing | metered_pipe/metered_pipe.py:106-108 | the callback receives every record once, oldest first, and the log is left empty with the buffer untouched; this `Reader.Drained` state is also the drain step of `System.Step` |
| Reader.DrainTwice | metered_pipe/metered_pipe.py:106-108 | a second drain makes no callback calls |
| Pipe.MeteredPipe | metered_pipe/metered_pipe.py:115-129 | fails iff duplex is requested, which is the default, and then returns no queue; otherwise a fresh reader and writer over the supplied queue or a new empty one of capacity 4096 |
| System.StartInv | metered_pipe/metered_pipe.py:115-129 | a fresh pipe over a new or empty supplied queue satisfies the invariant and the log-tracking property |
| System.FlushKeepsInv | metered_pipe/metered_pipe.py:40-59 | a flush keeps conservation, numbering and the queue bound under any clock, and timestamp order under a monotone clock |
| System.SendKeepsInv | metered_pipe/metered_pipe.py:61-68 | a send keeps `Core` under any clock, and the full invariant under a monotone clock, with the payload added to the sent history |
| System.RecvKeepsInv | metered_pipe/metered_pipe.py:97-104 | a receive that returns keeps `Core` under any clock, and the full invariant under a monotone clock, with the payload added to the received history |
| System.RecvPassesCheck | metered_pipe/metered_pipe.py:92 | while the log length equals the fetched count, a receive never fails the sequence check |
| System.StepKeepsInv | metered_pipe/metered_pipe.py:40-108 | every call keeps `Core` under any clock and the full invariant under a monotone clock; every call except a drain keeps log tracking and cannot fail the sequence check |
| System.RunKeepsInv | metered_pipe/metered_pipe.py:40-108 | every completed history keeps `Core` under any clock, and the full invariant under a monotone clock |
| System.DrainFreeRunPassesCheck | metered_pipe/metered_pipe.py:88-93 | a history without drains never fails the sequence check and keeps one record per fetched message |
| System.Conservation | metered_pipe/metered_pipe.py:43-68 | over any completed history of a fresh pipe and under any clock, sent payloads are exactly received, reader-buffered, queued and writer-buffered ones in send order, and received is a prefix of sent; under a monotone clock every record is also in timestamp order |
| System.EndToEnd | tests/tests1.py:52-62 | with one writer, one reader and no drains, under any clock, the check never fails, received payloads are a prefix of the sent ones, and the log holds one record per fetched message |
| System.DrainThenFetchMismatches | metered_pipe/metered_pipe.py:92-108 | after something was received, a drain and then a receive that fetches a non-empty batch fail with expected 0 against the fetched count |
| System.EmptyFlushBreaksRecv | metered_pipe/metered_pipe.py:97-101 | with nothing buffered anywhere, a flush followed by a receive fails with `EmptyBatch` |
| Scenarios.SendThenRecv | tests/tests1.py:16-20 | send 43 then receive returns 43, with exactly one record in timestamp order |
| Scenarios.CoalescedSendIsNotDelivered | tests/tests1.py:22-30 | two quick sends then two receives: the second receive blocks, since the second payload was only buffered |
| Scenarios.SlowSendsAreDelivered | tests/tests1.py:22-30 | the same history under a clock advancing 100 µs per reading: both receives return, 43 then 121 |
| Scenarios.LogAfterTwoSends | tests/tests1.py:32-50 | send 0 and 1, then two receives, under the slow clock: both return in order, the log holds two records in timestamp order, and a drain leaves it empty |
| Scenarios.DrainAfterTwoSends | tests/tests1.py:42-50 | `flush_log_using` after that history calls its callback exactly twice, each time with a record in timestamp order |
| Scenarios.FlushedSendsAreDelivered | metered_pipe/metered_pipe.py:6 | two quick sends, the explicit flush the module's note asks for, and two receives return 43 then 121, numbered 0 and 1, with two records and an empty queue |
| Scenarios.TwoWritersTripTheCheck | metered_pipe/metered_pipe.py:92 | two writers on one queue both number from 0, so the reader's second fetch fails with expected 1 against found 0 |

## Left out

- `visualize` and `speed_test`, and the `__main__` entry point: plotting, floating-point arithmetic, process spawning and throughput measurement.
- The multiprocessing manager queue, cross-process visibility and `task_done`: the queue is a FIFO value passed between the two ends. The composed system runs the calls one after another. Concurrent interleavings are not modelled.
- Blocking: a get on an empty queue blocks forever in the source. This is a precondition of `Reader.Fetch` and `Reader.Recv`. In `System` it becomes the `Blocked` outcome.
- `time.sleep` between put attempts. In a sequential history nothing can drain the queue between attempts, so all attempts fail together.
- Floating-point time: readings are natural numbers of microseconds.
- The `maxlen=2**32` eviction of the log deque: the log is unbounded.
- The `readable` and `writable` properties, which always return true.
- Reader.Fetch: after a failed sequence check the source has already removed the batch from the queue. It has appended to the reader buffer the payloads of the earlier messages and of the failing message itself. It has read the clock once for each of them, and logged the earlier ones. The model reports only the error, not that partial state. The same holds for the `IndexError` of `Reader.Recv`.
- Writer.Teardown: CPython does not pass an exception raised in `__del__` to any caller. It prints "Exception ignored in ..." to standard error and goes on. The model returns the `RuntimeError` as a value instead.
- Python's `-O` flag, which would skip the sequence `assert`: the check is always on.
- Exceptions raised by the callback given to `flush_log_using`: the callback is modelled as the list of records it is called with.
- The truthiness test `if not q`: an absent queue is `None`. Any other supplied value is used as the queue.
- The multi-process test (`tests/tests1.py:52-71`). Only its single-writer, single-reader ordering claim is covered, by `System.EndToEnd`.
