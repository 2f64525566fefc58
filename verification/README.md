# oam verified models

Dafny models of the concurrent and algorithmic cores of oam, a JavaScript runtime, with proofs
of what they promise.

- **Streams** (`js/streams.js`): the queue; writable, default readable and byte streams, each as
  a state machine with one event per user call or promise settlement; the tees and the pipe,
  which compose those machines. The algorithms are those of sections 4 and 5 of the WHATWG
  Streams Standard. `WritableStream`, `ReadableStream`, `ByteStream` and `Queue` are classes
  whose methods change fields in place and are proved to step exactly as the machine does; the
  methods a user or a settled promise enters by also keep the machine's invariant.
- **Module loader** (`js/esm_loader.js`): collecting and instantiating a module graph while its
  jobs link in any order, and the worklist that adopts a graph loaded elsewhere.
- **Structured clone and MIME types** (`js/bootstrap.js`): cloning cyclic object graphs with
  transfer lists, and the MIME type parser and serializer (sections 4.4 and 4.5 of the MIME
  Sniffing Standard).
- **Server-sent events** (`js/ai.js`): the incremental parser.
- **Conformance pool** (`xtask/src/conformance.rs`): the worker pool and the rows it ends in.

`dafny verify dfyconfig.toml` checks everything.

## How the models are laid out

For each stream there is a `...Spec` module: a record of the fields, a function per engine
function, `Event`, `Step` and `Run`. `...Proofs` holds the invariant and shows that every step
keeps it; the main results speak of every reachable state, so of every run. `...Steps` says what
one step does to states, promises, answers, queues and pulls in terms of the states before and
after it alone, naming no engine function; the entry methods of the classes promise that too. A field kept for the
statements only (what was accepted, supplied, delivered, how often something was called) is
marked as history; a counter of faults turns "cannot happen" into a proved zero. Proofs of
compositions are kept small by `hide` statements, and where other modules only hand an invariant
on, by folding it into a recursive predicate (`Sealed`, `Sound`, ...) that means the same.

Conventions: a chunk's size is a natural number that its strategy produced, or the error it
raised; a settlement of user code is an event; the part of a source's `pull()` that runs at once
is the events that follow. Within a byte stream's read the engine answers last, the model first:
nothing in between looks at the answer.

Where code and comments differ the model follows the code:

- A byte stream's default reads need not be answered in order: after a released BYOB read is
  answered while default reads wait, a new read takes the queued bytes first
  (`ByteOrder.ALaterReadOvertakes`). `ByteOrder.OvertakesExactlyIf` says exactly when a read
  overtakes, `ByteOrder.OvertakingArises` when that comes up, and `ByteOrder.ReadsKeepTheirOrder`
  that otherwise reads are answered in order.
- The comment above the final flush of the event parser promises the trailing event; a last line
  without a newline is not part of it (`SseProofs.TrailingEventIsLost`).
  `SseProofs.FlushIsCompleteExactlyIf` says exactly when the flush is right all the same.
- The comment on `run_pool` promises that the case a worker panics in shows that panic; it does
  not if the case had filed its outcome (`PoolProofs.APanicIsLost`).
  `PoolProofs.PanicsAreAccountedFor` says exactly when it does.

## Model

| member | source | states |
|---|---|---|
| `Fifo.Queue.constructor` | js/streams.js:148-154 | A new queue is empty and keeps the bounds: dead slots at most max(1024, live + 1), elements copied by compaction at most the shifts. |
| `Fifo.Queue.Length` | js/streams.js:155-157 | The number of live elements of the plain sequence the head-index queue stands for. |
| `Fifo.Queue.Peek` | js/streams.js:158-160 | The first element of that sequence, `undefined` when there is none. |
| `Fifo.Queue.Push` | js/streams.js:161-167 | Appends to the sequence; `totalSize` stays the sum of the live sizes and the bounds hold. |
| `Fifo.Queue.Shift` | js/streams.js:168-190 | Takes the first element, through clearing, compacting and head-moving alike; the total never needs its floor, and the bounds on dead slots and copied elements hold over any run. |
| `Fifo.Queue.ConsumeHead` | js/streams.js:191-195 | Replaces the head by what a partial read left of it, its size reduced by what was read. |
| `Fifo.Queue.Clear` | js/streams.js:196-201 | Empties the sequence and the total. |
| `WritableTheorems.SinkProtocol` | js/streams.js:1642-1669 | In every reachable state the calls on the sink are the accepted chunks in write() order, then at most one of close and abort; none before start settles, never two outstanding; no cleared algorithm is called, and no missing or settled promise is settled. |
| `WritableTheorems.WriteConservation` | js/streams.js:1880-1950 | A write is fulfilled iff its sink write fulfilled, pending iff the stream lives and the sink has not finished it; in-flight plus pending requests are the unfinished writes in order, and while writable the queue is exactly their chunks. |
| `WritableTheorems.NothingLeftPending` | js/streams.js:1756-1844 | Once closed, or errored with any abort callback settled, no write, close or abort request and neither promise of the writer is pending. |
| `WritableTheorems.ExactReadiness` | js/streams.js:1736-1754 | An attached writer's `ready` is pending iff the stream is writable, no close is queued or in flight and desiredSize <= 0; there the cached flag equals the recomputed one. |
| `WritableTheorems.NeverStalls` | js/streams.js:1904-1950 | On a started stream, work that waits (a write, a close, an error) means exactly one sink call is outstanding. |
| `WritableTheorems.PromisesSettleOnce` | js/streams.js:1701-1844 | In every run: a step adds write, close and abort promises or settles pending ones; one that is settled never changes, although the setters would overwrite it. |
| `WritableTheorems.FulfilledClose` | js/streams.js:1821-1844 | In every run: once a close() promise is fulfilled the stream is closed, the sink has been given every accepted chunk in order, and every write is settled. |
| `WritableTheorems.StepKeepsCloseMeans` | js/streams.js:1821-1844 | No step but a fulfilled close of the sink fulfils a close() promise or closes the stream, and a closed stream stays as it is. |
| `WritableProofs.StepKeepsInv` | js/streams.js:1693-2083 | Every call and settlement keeps the whole invariant of the writable. |
| `WritableProofs.RunKeepsInv` | js/streams.js:1625-2083 | The invariant holds after any interleaving of calls and settlements. |
| `WritableProofs.RejectWritesEffect` | js/streams.js:1769-1775 | The drain loop of an errored stream rejects exactly the waiting writes and nothing else. |
| `WritableProofs.WriteKeepsInv` | js/streams.js:1966-1980 | A write keeps the invariant whatever size() did: a number, an exception, or a refused number. |
| `WritableProofs.CloseKeepsInv` | js/streams.js:1721-1735 | A close keeps the invariant, whether it is queued or refused. |
| `WritableProofs.AbortKeepsInv` | js/streams.js:1701-1720 | An abort keeps the invariant in every state. |
| `WritableSteps.StepFollows` | js/streams.js:1693-2083 | Every step, said of the states before and after it: what the stream fails with and when it closes; what becomes of each write, close and abort promise and with which reason; which requests are accepted or begun; the chunks charged to the queue and what the sink is called with. |
| `WritableSteps.WriteReplies` | js/streams.js:1966-1980 | An accepted chunk is answered with the promise of its own new request, given to nobody before; a refused one with a rejection: the stored error of a failed or failing stream, invalid state of a closing or closed one. |
| `WritableSteps.CloseReplies` | js/streams.js:1721-1735 | close() is answered with a promise of its own if it starts the close, else rejected with invalid state, and then nothing has changed. |
| `WritableSteps.AbortReplies` | js/streams.js:1701-1720 | abort() is answered at once on a stream that has ended, with a promise of its own, or with the pending promise of the abort it joins. |
| `WritableReasons.EverybodyIsTold` | js/streams.js:1745-1844 | Over every run: `ready` is rejected exactly with the error of a failing stream, `closed` tells how it ended, an abort calls the sink's abort with the stream's error, and the writes the sink never got to were rejected with it. |
| `WritableReasons.StepTold` | js/streams.js:1745-1844 | Every step keeps that. |
| `WritableObject.WritableStream.constructor` | js/streams.js:1625-1640 | The object starts as the initial state. It keeps the invariant. |
| `WritableObject.WritableStream.UpdateBackpressure` | js/streams.js:1736-1743 | Replaces `ready` when backpressure sets in and resolves it when it ends, as the specification function does. New state equals the specification's. |
| `WritableObject.WritableStream.StartErroring` | js/streams.js:1745-1754 | Takes the object to erroring, rejects `ready`, and finishes at once when nothing is in flight. New state equals the specification's. |
| `WritableObject.WritableStream.RejectCloseAndClosed` | js/streams.js:1756-1767 | Rejects a queued close request and the writer's `closed`. New state equals the specification's. |
| `WritableObject.WritableStream.RejectWrites` | js/streams.js:1769-1775 | The drain loop: every waiting write request is rejected in order. New state equals the specification's. |
| `WritableObject.WritableStream.FinishErroring` | js/streams.js:1769-1801 | Empties the queue, rejects the writes and answers a pending abort. New state equals the specification's. |
| `WritableObject.WritableStream.DealWithRejection` | js/streams.js:1802-1808 | Starts erroring a writable stream and finishes an erroring one. New state equals the specification's. |
| `WritableObject.WritableStream.FinishInFlightWrite` | js/streams.js:1810-1819 | Settles the write in flight, once. New state equals the specification's. |
| `WritableObject.WritableStream.FinishInFlightClose` | js/streams.js:1821-1844 | Settles the close in flight, once. New state equals the specification's. |
| `WritableObject.WritableStream.ControllerErrorIfNeeded` | js/streams.js:1846-1854 | Errors the stream only while it is writable, clearing its algorithms. New state equals the specification's. |
| `WritableObject.WritableStream.GetChunkSize` | js/streams.js:1870-1879 | The size of a chunk: 1 once algorithms are cleared, an error when size() throws. New state equals the specification's. |
| `WritableObject.WritableStream.ControllerWrite` | js/streams.js:1880-1893 | Queues the chunk, refreshes backpressure and advances; a refused size errors the stream. New state equals the specification's. |
| `WritableObject.WritableStream.AdvanceQueueIfNeeded` | js/streams.js:1904-1916 | Hands the sink the next thing: finish erroring, close, or write. New state equals the specification's. |
| `WritableObject.WritableStream.ProcessClose` | js/streams.js:1917-1930 | Moves the close request into flight and calls the sink's close. New state equals the specification's. |
| `WritableObject.WritableStream.ProcessWrite` | js/streams.js:1931-1950 | Moves the first write request into flight and calls the sink's write. New state equals the specification's. |
| `WritableObject.WritableStream.WritableAbort` | js/streams.js:1701-1720 | Every branch of abort(): already done, joined to a pending abort, or a new request. New state equals the specification's. |
| `WritableObject.WritableStream.WritableClose` | js/streams.js:1721-1735 | Every branch of close(): refused, or queued with `ready` resolved. New state equals the specification's. |
| `WritableObject.WritableStream.WriterWrite` | js/streams.js:1966-1980 | Every branch of a write; the reply is the promise of the new request or a rejection with the reason the state gives. New state equals the specification's. |
| `WritableObject.WritableStream.AttachWriter` | js/streams.js:2001-2030 | The promises a new writer gets in each state. New state equals the specification's. |
| `WritableObject.WritableStream.StartSettled` | js/streams.js:1657-1668 | The callbacks of start(). New state equals the specification's. |
| `WritableObject.WritableStream.WriteSettled` | js/streams.js:1931-1950 | The callbacks of the sink's write. New state equals the specification's. |
| `WritableObject.WritableStream.CloseSettled` | js/streams.js:1821-1844 | The callbacks of the sink's close; a success while erroring forgives the error. New state equals the specification's. |
| `WritableObject.WritableStream.AbortSettled` | js/streams.js:1787-1799 | The callbacks of the sink's abort. New state equals the specification's. |
| `WritableObject.WritableStream.GetWriter` | js/streams.js:2114-2116 | getWriter(). From any state that keeps the invariant, one that does: the machine's step, after which the sink protocol is followed, the writes are conserved, `ready` is exact, no work waits without a sink call outstanding, a finished stream leaves nothing pending, a fulfilled close means that the sink got every accepted chunk, everybody is told the error of a failed stream, and no settled promise has changed. State, promises, queue and sink calls follow from those before it as `WritableSteps.Follows` says. |
| `WritableObject.WritableStream.ReleaseWriter` | js/streams.js:2079-2082 | releaseLock(). From any state that keeps the invariant, one that does: the machine's step, after which the sink protocol is followed, the writes are conserved, `ready` is exact, no work waits without a sink call outstanding, a finished stream leaves nothing pending, a fulfilled close means that the sink got every accepted chunk, everybody is told the error of a failed stream, and no settled promise has changed. State, promises, queue and sink calls follow from those before it as `WritableSteps.Follows` says. |
| `WritableObject.WritableStream.Write` | js/streams.js:2052-2058 | write() through a writer, attached or not: an accepted chunk is answered with its own new promise, a refused one with a rejection and its reason. From any state that keeps the invariant, one that does: the machine's step, after which the sink protocol is followed, the writes are conserved, `ready` is exact, no work waits without a sink call outstanding, a finished stream leaves nothing pending, a fulfilled close means that the sink got every accepted chunk, everybody is told the error of a failed stream, and no settled promise has changed. State, promises, queue and sink calls follow from those before it as `WritableSteps.Follows` says. |
| `WritableObject.WritableStream.Close` | js/streams.js:2060-2069 | close(): a promise of its own, or a rejection that changes nothing. From any state that keeps the invariant, one that does: the machine's step, after which the sink protocol is followed, the writes are conserved, `ready` is exact, no work waits without a sink call outstanding, a finished stream leaves nothing pending, a fulfilled close means that the sink got every accepted chunk, everybody is told the error of a failed stream, and no settled promise has changed. State, promises, queue and sink calls follow from those before it as `WritableSteps.Follows` says. |
| `WritableObject.WritableStream.Abort` | js/streams.js:2071-2077 | abort(): done, a promise of its own, or that of the pending abort it joins. From any state that keeps the invariant, one that does: the machine's step, after which the sink protocol is followed, the writes are conserved, `ready` is exact, no work waits without a sink call outstanding, a finished stream leaves nothing pending, a fulfilled close means that the sink got every accepted chunk, everybody is told the error of a failed stream, and no settled promise has changed. State, promises, queue and sink calls follow from those before it as `WritableSteps.Follows` says. |
| `WritableObject.WritableStream.Error` | js/streams.js:1610-1613 | The controller's error(). From any state that keeps the invariant, one that does: the machine's step, after which the sink protocol is followed, the writes are conserved, `ready` is exact, no work waits without a sink call outstanding, a finished stream leaves nothing pending, a fulfilled close means that the sink got every accepted chunk, everybody is told the error of a failed stream, and no settled promise has changed. State, promises, queue and sink calls follow from those before it as `WritableSteps.Follows` says. |
| `WritableObject.WritableStream.OnStart` | js/streams.js:1657-1668 | start() has settled. From any state that keeps the invariant, one that does: the machine's step, after which the sink protocol is followed, the writes are conserved, `ready` is exact, no work waits without a sink call outstanding, a finished stream leaves nothing pending, a fulfilled close means that the sink got every accepted chunk, everybody is told the error of a failed stream, and no settled promise has changed. State, promises, queue and sink calls follow from those before it as `WritableSteps.Follows` says. |
| `WritableObject.WritableStream.OnWrite` | js/streams.js:1931-1950 | The sink's write has settled. From any state that keeps the invariant, one that does: the machine's step, after which the sink protocol is followed, the writes are conserved, `ready` is exact, no work waits without a sink call outstanding, a finished stream leaves nothing pending, a fulfilled close means that the sink got every accepted chunk, everybody is told the error of a failed stream, and no settled promise has changed. State, promises, queue and sink calls follow from those before it as `WritableSteps.Follows` says. |
| `WritableObject.WritableStream.OnClose` | js/streams.js:1917-1929 | The sink's close has settled. From any state that keeps the invariant, one that does: the machine's step, after which the sink protocol is followed, the writes are conserved, `ready` is exact, no work waits without a sink call outstanding, a finished stream leaves nothing pending, a fulfilled close means that the sink got every accepted chunk, everybody is told the error of a failed stream, and no settled promise has changed. State, promises, queue and sink calls follow from those before it as `WritableSteps.Follows` says. |
| `WritableObject.WritableStream.OnAbort` | js/streams.js:1787-1799 | The sink's abort has settled. From any state that keeps the invariant, one that does: the machine's step, after which the sink protocol is followed, the writes are conserved, `ready` is exact, no work waits without a sink call outstanding, a finished stream leaves nothing pending, a fulfilled close means that the sink got every accepted chunk, everybody is told the error of a failed stream, and no settled promise has changed. State, promises, queue and sink calls follow from those before it as `WritableSteps.Follows` says. |
| `ReadableProofs.FifoDelivery` | js/streams.js:423-484 | What the reads got, in the order they were issued, then the queue, is what was enqueued in every uncancelled, unerrored run; an error or a cancel only cuts it short; queue and waiters are never both non-empty. |
| `ReadableProofs.DeferredClose` | js/streams.js:454-484 | While a close is pending there is a chunk to read; a stream its controller closed has delivered every chunk; a stream no longer readable has no waiting read. |
| `ReadableProofs.NoStrandedRead` | js/streams.js:390-421 | On a started, readable stream every waiting read was issued before the last pull began, or a pull is in flight with another asked for. |
| `ReadableProofs.OnePullAtATime` | js/streams.js:398-421 | At most one pull is in flight, and `_pullAgain` implies `_pulling`. |
| `ReadableProofs.StepKeepsInv` | js/streams.js:366-609 | Every step of a default readable keeps its invariant. |
| `ReadableProofs.RunKeepsInv` | js/streams.js:366-609 | The invariant holds after any interleaving. |
| `ReadableSteps.StepFollows` | js/streams.js:366-609 | Every step, said of the states before and after it: what the stream fails with and when it closes; that a failure answers every waiting read with that error, an end with Done, a release with its own error and a chunk only the first; what a new read finds; that a settled read keeps its answer; the queue with its charges; and that a pull is called only on demand and no demand is forgotten. |
| `ReadableSteps.AnswersAreTrue` | js/streams.js:477-588 | Over every run: a read is told the end only by a closed stream, and fails only with the error of a failed stream or because its reader was released. |
| `ReadableSteps.StepTruthful` | js/streams.js:477-588 | Every step keeps that. |
| `ReadableObject.ReadableStream.constructor` | js/streams.js:317-365 | The object starts as the initial state. New state equals the specification's. |
| `ReadableObject.ReadableStream.CallPullIfNeeded` | js/streams.js:390-421 | Calls pull, or remembers to, exactly when a read waits or there is room. New state equals the specification's. |
| `ReadableObject.ReadableStream.AnswerAll` | js/streams.js:477-502 | The loop that gives every waiting read the same answer. New state equals the specification's. |
| `ReadableObject.ReadableStream.CloseStream` | js/streams.js:477-484 | Closes, and answers every waiting read with the end. New state equals the specification's. |
| `ReadableObject.ReadableStream.ErrorStream` | js/streams.js:486-501 | Errors, drops the queue, and fails every waiting read with that error. New state equals the specification's. |
| `ReadableObject.ReadableStream.StreamCancel` | js/streams.js:503-519 | Cancelling closes, drops the queue and ends every waiting read. New state equals the specification's. |
| `ReadableObject.ReadableStream.ControllerEnqueue` | js/streams.js:423-437 | Answers the first waiting read, or queues; a failing size() errors the stream. New state equals the specification's. |
| `ReadableObject.ReadableStream.ControllerClose` | js/streams.js:454-476 | Closes at once, or once the queue is read. New state equals the specification's. |
| `ReadableObject.ReadableStream.ReaderRead` | js/streams.js:569-588 | All branches of a read. New state equals the specification's. |
| `ReadableObject.ReadableStream.TakeChunk` | js/streams.js:575-583 | Takes the head of the queue, then closes or pulls. New state equals the specification's. |
| `ReadableObject.ReadableStream.ReaderRelease` | js/streams.js:555-560 | Releasing fails every waiting read. New state equals the specification's. |
| `ReadableObject.ReadableStream.StartSettled` | js/streams.js:366-379 | The callbacks of start(). New state equals the specification's. |
| `ReadableObject.ReadableStream.PullSettled` | js/streams.js:398-421 | The callbacks of pull(). New state equals the specification's. |
| `ReadableObject.ReadableStream.Acquire` | js/streams.js:1439-1445 | getReader(). From any state that keeps the invariant, one that does: the machine's step, after which the chunks read and queued are those enqueued, a pending close has a chunk to wait for, a stream no longer readable has no waiting read, reads are told the end or an error only as the stream had it, and at most one pull is in flight. State, answers, queue and pulls follow from those before it as `ReadableSteps.Follows` says. |
| `ReadableObject.ReadableStream.Release` | js/streams.js:555-560 | releaseLock(). From any state that keeps the invariant, one that does: the machine's step, after which the chunks read and queued are those enqueued, a pending close has a chunk to wait for, a stream no longer readable has no waiting read, reads are told the end or an error only as the stream had it, and at most one pull is in flight. State, answers, queue and pulls follow from those before it as `ReadableSteps.Follows` says. |
| `ReadableObject.ReadableStream.Read` | js/streams.js:541-546 | read(), attached or not. From any state that keeps the invariant, one that does: the machine's step, after which the chunks read and queued are those enqueued, a pending close has a chunk to wait for, a stream no longer readable has no waiting read, reads are told the end or an error only as the stream had it, and at most one pull is in flight. State, answers, queue and pulls follow from those before it as `ReadableSteps.Follows` says. |
| `ReadableObject.ReadableStream.Cancel` | js/streams.js:1447-1450 | cancel(). From any state that keeps the invariant, one that does: the machine's step, after which the chunks read and queued are those enqueued, a pending close has a chunk to wait for, a stream no longer readable has no waiting read, reads are told the end or an error only as the stream had it, and at most one pull is in flight. State, answers, queue and pulls follow from those before it as `ReadableSteps.Follows` says. |
| `ReadableObject.ReadableStream.Enqueue` | js/streams.js:277-285 | The controller's enqueue(). From any state that keeps the invariant, one that does: the machine's step, after which the chunks read and queued are those enqueued, a pending close has a chunk to wait for, a stream no longer readable has no waiting read, reads are told the end or an error only as the stream had it, and at most one pull is in flight. State, answers, queue and pulls follow from those before it as `ReadableSteps.Follows` says. |
| `ReadableObject.ReadableStream.Close` | js/streams.js:286-295 | The controller's close(). From any state that keeps the invariant, one that does: the machine's step, after which the chunks read and queued are those enqueued, a pending close has a chunk to wait for, a stream no longer readable has no waiting read, reads are told the end or an error only as the stream had it, and at most one pull is in flight. State, answers, queue and pulls follow from those before it as `ReadableSteps.Follows` says. |
| `ReadableObject.ReadableStream.Error` | js/streams.js:296-298 | The controller's error(). From any state that keeps the invariant, one that does: the machine's step, after which the chunks read and queued are those enqueued, a pending close has a chunk to wait for, a stream no longer readable has no waiting read, reads are told the end or an error only as the stream had it, and at most one pull is in flight. State, answers, queue and pulls follow from those before it as `ReadableSteps.Follows` says. |
| `ReadableObject.ReadableStream.OnStart` | js/streams.js:366-379 | start() has settled. From any state that keeps the invariant, one that does: the machine's step, after which the chunks read and queued are those enqueued, a pending close has a chunk to wait for, a stream no longer readable has no waiting read, reads are told the end or an error only as the stream had it, and at most one pull is in flight. State, answers, queue and pulls follow from those before it as `ReadableSteps.Follows` says. |
| `ReadableObject.ReadableStream.OnPull` | js/streams.js:398-421 | pull() has settled. From any state that keeps the invariant, one that does: the machine's step, after which the chunks read and queued are those enqueued, a pending close has a chunk to wait for, a stream no longer readable has no waiting read, reads are told the end or an error only as the stream had it, and at most one pull is in flight. State, answers, queue and pulls follow from those before it as `ReadableSteps.Follows` says. |
| `ByteProofs.ByteConservation` | js/streams.js:664-839 | While readable, bytes delivered in delivery order, then held by the first descriptor (released or not), then queued, are exactly the bytes supplied; a prefix is all that is ever delivered. |
| `ByteProofs.PullIntoDiscipline` | js/streams.js:664-703 | Every pending descriptor holds less than its minimum; only the first holds bytes or is released; the queue holds none while one is pending; the reads waiting are exactly the unreleased descriptors. |
| `ByteProofs.NoFaults` | js/streams.js:651-703 | No peek finds an empty queue, no loop stalls, no missing or settled request is settled again; a read waits iff it is listed. |
| `ByteProofs.TakeEffect` | js/streams.js:676-688 | The copy loop takes exactly the bytes asked for off the front of the queue, across chunks. |
| `ByteProofs.FillEffect` | js/streams.js:664-690 | Filling moves bytes from the front of the queue to the end of the descriptor, and as many as can be: it is then complete in whole elements with no room for, or no bytes of, one element more; or the queue has no bytes left. |
| `ByteProofs.ProcessEffect` | js/streams.js:692-703 | The process loop fills descriptors in order, completes each it takes off with as many elements as its view has room for or the bytes allow, and stops with no bytes queued or nobody waiting. |
| `ByteSteps.FillIsLargest` | js/streams.js:664-690 | A new view is answered from the queue iff that holds its minimum, and then with the largest number of whole elements that are queued and fit, the first bytes of the queue. |
| `ByteSteps.StepFollows` | js/streams.js:454-1003 | Every step, said of the states before and after it: failing and closing; that a failure answers every waiting read with that error, and an end, a cancel and a release as they should; which default reads an enqueue answers and with which chunks; which views are handed out, each complete and full; what a new read finds, a BYOB read the largest whole number of elements; that every other answer stays; the bytes supplied; and that a pull is called only on demand and no demand is forgotten. |
| `ByteSteps.AnswersAreTrue` | js/streams.js:454-839 | Over every run: a read is told the end only by a closed stream, and fails only with the error of a failed one or because its reader was released or its view refused. |
| `ByteSteps.StepTruthful` | js/streams.js:454-839 | Every step keeps that. |
| `ByteProofs.StepKeepsInv` | js/streams.js:454-1003 | Every step of a byte stream keeps its invariant. |
| `ByteProofs.RunKeepsInv` | js/streams.js:454-1003 | The invariant holds after any interleaving of enqueue, default and BYOB reads, respond, release, re-acquire, cancel, close, error and settlements. |
| `ByteAnswers.StepFollows` | js/streams.js:651-839 | From every state that keeps the invariant: no step changes an answer that was given, although the setter would overwrite it, and the delivery log stays exactly what the answers carry. |
| `ByteAnswers.ReadsGetTheSuppliedBytes` | js/streams.js:569-839 | The bytes in the answers themselves, in the order of the answers, with what is held and queued, are the bytes supplied; each read is answered at most once. |
| `ByteRequests.ViewsAreComplete` | js/streams.js:639-703 | A BYOB read is answered within the view it asked for and with whole elements; with at least `min` of them iff that answer does not end the stream. |
| `ByteWhole.StepWhole` | js/streams.js:454-476 | Once a byte stream is closed every view still pending holds whole elements, so handing it over truncates nothing. |
| `ByteRequests.StepMatched` | js/streams.js:651-839 | Every step keeps each waiting BYOB read matched with its own descriptor, in order. |
| `ByteOrder.OvertakingArises` | js/streams.js:726-748 | From a state in which no read can overtake a waiting one, a step leads to one in which a read can iff it answers a released BYOB read, with bytes that fit, while default reads wait. |
| `ByteOrder.ALaterReadOvertakes` | js/streams.js:569-588 | A reachable run in which a later default read gets the byte an earlier one still waits for. |
| `ByteOrder.OvertakesExactlyIf` | js/streams.js:569-588 | A default read is handed bytes while an earlier read waits iff default reads wait and the queue is not empty when it is issued. |
| `ByteOrder.ReadsKeepTheirOrder` | js/streams.js:569-588 | In a run in which no released BYOB read is answered while default reads wait, the reads that were handed bytes were so in the order in which they were issued, and before every read that waits. |
| `ByteTurns.StepStays` | js/streams.js:569-839 | Every step keeps the reads handed bytes, then those waiting, in the order they were issued, unless it hands a default read bytes past a waiting one. |
| `ByteObject.Descriptor.constructor` | js/streams.js:768-778 | A descriptor over the caller's buffer, holding nothing yet. |
| `ByteObject.Descriptor.Append` | js/streams.js:679-686 | Copies bytes into the buffer behind those it holds, and counts them. |
| `ByteObject.MoveHead` | js/streams.js:677-687 | One turn of the copy loop: what the head chunk has, as far as it is wanted, moves from the queue into the buffer. |
| `ByteObject.MoveBytes` | js/streams.js:676-688 | The copy loop, zero-length chunks included: the buffer and the queue end as the specification's Take says. |
| `ByteObject.FillPullIntoFromQueue` | js/streams.js:664-690 | Fills one descriptor in place, and says whether it is ready, as the specification does; `ByteProofs.FillEffect` says that no more could be moved. |
| `ByteObject.ProcessPending` | js/streams.js:692-703 | The loop over pending descriptors fills them in place as the specification's Process says. |
| `ByteStreamObject.ByteStream.constructor` | js/streams.js:317-365 | The object starts as the initial state. New state equals the specification's. |
| `ByteStreamObject.ByteStream.ShouldCallPull` | js/streams.js:390-397 | True iff a pull is due. |
| `ByteStreamObject.ByteStream.CallPullIfNeeded` | js/streams.js:398-421 | Calls pull, or remembers to. New state equals the specification's. |
| `ByteStreamObject.ByteStream.CloseStream` | js/streams.js:477-484 | Closes, and ends every waiting default read. New state equals the specification's. |
| `ByteStreamObject.ByteStream.ErrorStream` | js/streams.js:486-501 | Errors, drops queue and descriptors, and fails every waiting read. New state equals the specification's. |
| `ByteStreamObject.ByteStream.StreamCancel` | js/streams.js:503-519 | Cancelling closes and ends every waiting read. New state equals the specification's. |
| `ByteStreamObject.ByteStream.Commit` | js/streams.js:651-656 | Hands a descriptor's bytes to the first waiting BYOB read. New state equals the specification's. |
| `ByteStreamObject.ByteStream.CommitAll` | js/streams.js:658-662 | The loop that hands over several. New state equals the specification's. |
| `ByteStreamObject.ByteStream.ProcessUsingQueue` | js/streams.js:692-703 | Fills the pending descriptors and takes off those filled. New state equals the specification's. |
| `ByteStreamObject.ByteStream.ProcessAndCommit` | js/streams.js:735-737 | Fills and hands over. New state equals the specification's. |
| `ByteStreamObject.ByteStream.HandleQueueDrain` | js/streams.js:706-715 | Closes a stream whose queue is drained and whose close was requested. New state equals the specification's. |
| `ByteStreamObject.ByteStream.DetachFirst` | js/streams.js:717-724 | A released descriptor's bytes go to the queue. New state equals the specification's. |
| `ByteStreamObject.ByteStream.DrainToWaiters` | js/streams.js:742-745 | The loop that gives queued chunks to waiting default reads. New state equals the specification's. |
| `ByteStreamObject.ByteStream.ControllerEnqueue` | js/streams.js:726-747 | All branches of an enqueue. New state equals the specification's. |
| `ByteStreamObject.ByteStream.ControllerClose` | js/streams.js:454-476 | All branches of close(), the partial element included. New state equals the specification's. |
| `ByteStreamObject.ByteStream.AddPullInto` | js/streams.js:750-805 | All branches of a BYOB read past its argument checks. New state equals the specification's. |
| `ByteStreamObject.ByteStream.ByobReaderRead` | js/streams.js:951-976 | A BYOB read with its checks on the view and on `min`. New state equals the specification's. |
| `ByteStreamObject.ByteStream.RespondInClosedState` | js/streams.js:807-815 | Hands out the pending views at the end of the stream. New state equals the specification's. |
| `ByteStreamObject.ByteStream.RespondInReadableState` | js/streams.js:817-839 | The bytes the source wrote are counted; a complete descriptor is handed over with the later ones it lets fill. New state equals the specification's. |
| `ByteStreamObject.ByteStream.CompleteFirst` | js/streams.js:828-838 | Whole elements go to the read, the rest is queued again, later descriptors are filled and all handed over in order. New state equals the specification's. |
| `ByteStreamObject.ByteStream.ControllerRespond` | js/streams.js:882-895 | respond() with its checks. New state equals the specification's. |
| `ByteStreamObject.ByteStream.ReaderRead` | js/streams.js:569-588 | A default read. New state equals the specification's. |
| `ByteStreamObject.ByteStream.ReaderRelease` | js/streams.js:593-609 | Releasing keeps the first descriptor as a released one and fails the waiting reads. New state equals the specification's. |
| `ByteStreamObject.ByteStream.StartSettled` | js/streams.js:366-379 | The callbacks of start(). New state equals the specification's. |
| `ByteStreamObject.ByteStream.PullSettled` | js/streams.js:398-421 | The callbacks of pull(). New state equals the specification's. |
| `ByteStreamObject.ByteStream.Acquire` | js/streams.js:1439-1445 | getReader(), default or BYOB. From any state that keeps all that is proved of byte streams, one that does: the machine's step, after which the bytes in the answers, held and queued are those supplied, every view fits what its read asked for with whole elements, reads are told the end or an error only as the stream had it, and no answer given has changed. State, answers, queue, descriptors and pulls follow from those before it as `ByteSteps.Follows` says. |
| `ByteStreamObject.ByteStream.Release` | js/streams.js:555-560 | releaseLock(). From any state that keeps all that is proved of byte streams, one that does: the machine's step, after which the bytes in the answers, held and queued are those supplied, every view fits what its read asked for with whole elements, reads are told the end or an error only as the stream had it, and no answer given has changed. State, answers, queue, descriptors and pulls follow from those before it as `ByteSteps.Follows` says. |
| `ByteStreamObject.ByteStream.Read` | js/streams.js:541-546 | A default read(). From any state that keeps all that is proved of byte streams, one that does: the machine's step, after which the bytes in the answers, held and queued are those supplied, every view fits what its read asked for with whole elements, reads are told the end or an error only as the stream had it, and no answer given has changed. State, answers, queue, descriptors and pulls follow from those before it as `ByteSteps.Follows` says. |
| `ByteStreamObject.ByteStream.ReadInto` | js/streams.js:951-976 | A BYOB read(), its checks included. From any state that keeps all that is proved of byte streams, one that does: the machine's step, after which the bytes in the answers, held and queued are those supplied, every view fits what its read asked for with whole elements, reads are told the end or an error only as the stream had it, and no answer given has changed. State, answers, queue, descriptors and pulls follow from those before it as `ByteSteps.Follows` says. |
| `ByteStreamObject.ByteStream.Cancel` | js/streams.js:1447-1450 | cancel(). From any state that keeps all that is proved of byte streams, one that does: the machine's step, after which the bytes in the answers, held and queued are those supplied, every view fits what its read asked for with whole elements, reads are told the end or an error only as the stream had it, and no answer given has changed. State, answers, queue, descriptors and pulls follow from those before it as `ByteSteps.Follows` says. |
| `ByteStreamObject.ByteStream.Enqueue` | js/streams.js:277-285 | The controller's enqueue(). From any state that keeps all that is proved of byte streams, one that does: the machine's step, after which the bytes in the answers, held and queued are those supplied, every view fits what its read asked for with whole elements, reads are told the end or an error only as the stream had it, and no answer given has changed. State, answers, queue, descriptors and pulls follow from those before it as `ByteSteps.Follows` says. |
| `ByteStreamObject.ByteStream.Respond` | js/streams.js:865-870 | respond(). From any state that keeps all that is proved of byte streams, one that does: the machine's step, after which the bytes in the answers, held and queued are those supplied, every view fits what its read asked for with whole elements, reads are told the end or an error only as the stream had it, and no answer given has changed. State, answers, queue, descriptors and pulls follow from those before it as `ByteSteps.Follows` says. |
| `ByteStreamObject.ByteStream.RespondWithNewView` | js/streams.js:871-879 | respondWithNewView(). From any state that keeps all that is proved of byte streams, one that does: the machine's step, after which the bytes in the answers, held and queued are those supplied, every view fits what its read asked for with whole elements, reads are told the end or an error only as the stream had it, and no answer given has changed. State, answers, queue, descriptors and pulls follow from those before it as `ByteSteps.Follows` says. |
| `ByteStreamObject.ByteStream.Close` | js/streams.js:286-295 | The controller's close(). From any state that keeps all that is proved of byte streams, one that does: the machine's step, after which the bytes in the answers, held and queued are those supplied, every view fits what its read asked for with whole elements, reads are told the end or an error only as the stream had it, and no answer given has changed. State, answers, queue, descriptors and pulls follow from those before it as `ByteSteps.Follows` says. |
| `ByteStreamObject.ByteStream.Error` | js/streams.js:296-298 | The controller's error(). From any state that keeps all that is proved of byte streams, one that does: the machine's step, after which the bytes in the answers, held and queued are those supplied, every view fits what its read asked for with whole elements, reads are told the end or an error only as the stream had it, and no answer given has changed. State, answers, queue, descriptors and pulls follow from those before it as `ByteSteps.Follows` says. |
| `ByteStreamObject.ByteStream.OnStart` | js/streams.js:366-379 | start() has settled. From any state that keeps all that is proved of byte streams, one that does: the machine's step, after which the bytes in the answers, held and queued are those supplied, every view fits what its read asked for with whole elements, reads are told the end or an error only as the stream had it, and no answer given has changed. State, answers, queue, descriptors and pulls follow from those before it as `ByteSteps.Follows` says. |
| `ByteStreamObject.ByteStream.OnPull` | js/streams.js:398-421 | pull() has settled. From any state that keeps all that is proved of byte streams, one that does: the machine's step, after which the bytes in the answers, held and queued are those supplied, every view fits what its read asked for with whole elements, reads are told the end or an error only as the stream had it, and no answer given has changed. State, answers, queue, descriptors and pulls follow from those before it as `ByteSteps.Follows` says. |
| `BytePromises.StepProved` | js/streams.js:454-1003 | Every step keeps the invariant, the match of reads and descriptors, whole elements at the end and the delivery log together, and changes no answer given. |
| `ByteEnds.StepTimely` | js/streams.js:454-519 | No step of a stream tells a read the end while it stays readable, and a stream that is not readable feeds no read and stays so. |
| `ByteTeeTheorems.BranchSeesTheSource` | js/streams.js:1013-1184 | A branch that is not cancelled or errored has accepted the bytes the source delivered since it was teed, but for a chunk on its way, whatever became of the other branch. |
| `ByteTeeTheorems.BranchesAgree` | js/streams.js:1013-1184 | Two such branches have accepted the same bytes. |
| `ByteTeeTheorems.OneSourceRead` | js/streams.js:1041-1140 | At most one source read is outstanding, and one only while the tee says it is reading. |
| `ByteTeeTheorems.ReadsSeeTheSource` | js/streams.js:1046-1140 | What the reads of either branch were handed is a prefix of what the source delivered since, also after an error or a cancel. |
| `ByteTeeTheorems.NoSwapWhileReading` | js/streams.js:1046-1100 | The reader is swapped between default and BYOB only when no source read is outstanding. |
| `ByteTeeTheorems.TeeStepInv` | js/streams.js:1013-1193 | Every step of either branch, the source or the tee's own callbacks keeps the invariant of the three streams; a branch is open beside one that has failed, as when closing that one threw over a partial element, only once nothing more is to be read. |
| `ByteTeeTheorems.TeeRunInv` | js/streams.js:1013-1193 | The invariant holds after any interleaving, from any stream that may be teed. |
| `ByteTeeSteps.NoReadForgotten` | js/streams.js:1041-1165 | While a read waits on an open branch, and not behind a view whose reader was released, the tee has a source read under way, or the branch has a pull in flight and another to follow, or the source has nothing more to give. |
| `ByteTeeSteps.StepAttends` | js/streams.js:1026-1179 | Every step keeps that. |
| `ByteTeeSteps.BranchAsks` | js/streams.js:1046-1165 | A branch that pulls makes a tee that is not reading ask its source in the same step: for a chunk, or for as many bytes as the branch's first pending view has room for. |
| `ByteTeeSteps.EndReachesBranches` | js/streams.js:1052-1110 | When the tee's read is told the end it is no longer reading and neither branch stays open, unless the other could not close and failed; once both are closed no read waits on them. |
| `ByteTeeSteps.BranchFailsWithTheSource` | js/streams.js:1026-1033 | A branch fails only with the error of its failed source, or because it could not close over a partial element. |
| `ByteTeeSteps.ErrorReachesBranches` | js/streams.js:1026-1033 | The error of the source errors both branches, as `ByteSteps.Follows` says of error(), and leaves the source alone. |
| `ByteTeeSteps.CancelsWithBoth` | js/streams.js:1166-1178 | Cancelling the second of the branches cancels the source; cancelling the first cancels that branch and touches nothing else. |
| `TeeProofs.TeeConserves` | js/streams.js:1475-1505 | Each branch's consumed items then its private queue are the items read from the source, end mark included; their chunks are the source's in order; no shift finds an empty queue. |
| `TeeProofs.OneSharedRead` | js/streams.js:1489-1499 | At most one source read is outstanding, the shared one; whoever awaits, awaits it. |
| `TeeProofs.BranchesSeeTheSource` | js/streams.js:1475-1505 | What a branch's reads got, its stream's queue and its private queue are the chunks taken from the source, each once and in order; it is closed once it takes the end mark and not before. |
| `TeeProofs.DeliverKeeps` | js/streams.js:1483-1503 | Taking an item from the private queue and giving it to the branch keeps the branch's invariant. |
| `TeeProofs.StepKeepsInv` | js/streams.js:1475-1505 | Every interleaving step of branch users, pulls, the shared read and the source keeps the invariant. |
| `TeeProofs.RunKeepsInv` | js/streams.js:1475-1505 | The invariant holds after any interleaving. |
| `TeeSteps.BranchFailsWithTheSource` | js/streams.js:1475-1505 | In every run a branch fails only if the source did, and with the same error. |
| `TeeSteps.FailureReachesBranches` | js/streams.js:1489-1503 | A shared read that fails rejects every pull() that awaits it with the error of the source, and the branch fails with that unless it has ended. |
| `TeeSteps.StepFaithful` | js/streams.js:1475-1505 | Every step keeps the errors of the branches and of their pulls those of the source. |
| `PipeTheorems.PipeConserves` | js/streams.js:1296-1317 | Until it is finalized, what the pipe's reads took is what it handed over, in order and before its next read; the destination accepted a prefix of it, all of it while it accepts writes; so what the source was given is what the destination accepted plus what the source still queues. |
| `PipeTheorems.HandsOverWithRoom` | js/streams.js:1297-1314 | Every chunk handed to a destination that accepts writes found desiredSize > 0. |
| `PipeTheorems.OvershootsByOneChunk` | js/streams.js:1297-1314 | After a hand-off the destination's queue exceeds its high-water mark by less than the chunk handed over. |
| `PipeTheorems.ClosesAfterEverything` | js/streams.js:1346-1352 | When the pipe has the sink's close() called, the source is closed and the sink was given every chunk the source ever held, in order. |
| `PipeTheorems.ShutdownActsOnItsCause` | js/streams.js:1324-1358 | A shutdown's action has its cause and is not prevented: the destination is aborted with the error of a source that failed, the source is cancelled if the destination failed or closed, and the destination is closed after a source that ended; the pipe's promise is to be rejected with exactly that error, with an invalid-state error for a destination closed beforehand, or with the signal's reason, and to be fulfilled only after a closed source; once the action has run, that is done; `PipeSteps.SettlesWith` and `PipeSteps.StaysSettled` say that the promise settles so and stays. |
| `PipeSteps.SettlesWith` | js/streams.js:1226-1270 | The step that finalizes a pipe settles its promise with exactly: the error of the failed action, else of the shutdown once its action went well; the reason of a failed last write; or, with no action to run, the error of the shutdown. It frees both streams. |
| `PipeSteps.StaysSettled` | js/streams.js:1226-1232 | A finalized pipe keeps the outcome of its promise. |
| `PipeSteps.LaunchShuts` | js/streams.js:1325-1360 | As a pipe starts, a signal that has fired shuts it down, else the first end there is: a failed source, a failed destination, a closed source, a closing or closed destination; with the action, error and wait of that end. With none it goes on. |
| `PipeSteps.RunningShuts` | js/streams.js:1272-1360 | The first end a running pipe sees, of the source, of the destination or by the signal, starts the one shutdown, with that action and error: after the last write if the destination accepts writes, else at once; anything else leaves it running. |
| `PipeSteps.WaitsForTheWrites` | js/streams.js:1234-1256 | A shutdown waits for the last write, again if another was made meanwhile; it goes on exactly when that has settled, and then every write has, or it keeps the reason of the one that failed. |
| `PipeSteps.ActsAfterTheWrites` | js/streams.js:1240-1256 | Then the action runs as it was chosen: the destination is aborted or closed or the source cancelled, each with its own effect and reply. |
| `PipeSteps.LoopTurns` | js/streams.js:1296-1317 | The loop ends only in a shutdown or with an end of either side; it waits for `ready` before each read, and reads as soon as that is fulfilled. |
| `PipeTheorems.FulfilledMeans` | js/streams.js:1226-1270 | The pipe's promise is fulfilled only once the source is closed and everything it was given was handed over; unless the close is prevented, the destination's close() promise was fulfilled, and a destination that was open is closed and its sink has been called with all of it in order. |
| `PipeTheorems.WaitsForPromises` | js/streams.js:1234-1256 | The write, close or abort promise a shutdown waits for is one the destination has made. |
| `PipeTheorems.ActionDecides` | js/streams.js:1240-1256 | Once its action has ended the pipe is finalized, fulfilled iff the action was the close and that went well; `PipeSteps.SettlesWith` says with which error otherwise. |
| `PipeTheorems.FinalizesOnce` | js/streams.js:1226-1232 | A pipe is finalized at most once and holds both locks until then. |
| `PipeProofs.StepKeepsInv` | js/streams.js:1211-1361 | Every step of the source, the destination, the loop and the shutdown keeps the pipe's invariant. |
| `PipeProofs.RunKeepsInv` | js/streams.js:1211-1361 | The invariant holds after any interleaving. |
| `PipeProofs.LaunchKeepsInv` | js/streams.js:1325-1360 | The synchronous start, with each side errored, closed, closing or aborted beforehand, establishes the invariant. |
| `PipeDest.DestStepSettles` | js/streams.js:1904-1950 | No step the destination takes by itself accepts a chunk or takes room away while it accepts writes. |
| `PipeDest.WriteReceives` | js/streams.js:1966-1980 | A write is accepted and takes exactly its size, or the destination was not accepting, or it errors there and then. |
| `LockedSource.ReadAnswers` | js/streams.js:569-588 | A read of a locked source is answered at once or is the only one that waits. |
| `GraphTheorems.InstantiatesTheLinkedGraph` | js/esm_loader.js:143-177 | After any order of link and callback settlements, cycles included: the host's instantiate ran at most once, and only with every reachable job linked; the list is exactly the reachable jobs, each once; those are marked iff it succeeded. |
| `GraphTheorems.FailedLinkNeverInstantiates` | js/esm_loader.js:148-157 | If a reachable link failed, instantiate was never called. |
| `GraphTheorems.RejectsForAReachableFailure` | js/esm_loader.js:71-81 | Without a call, the promise is rejected only with the reason of a reachable link failure. |
| `GraphTheorems.HostDecides` | js/esm_loader.js:157-177 | With a call, the promise settles as the host's instantiate did, and with its reason. |
| `GraphTheorems.NeverStuck` | js/esm_loader.js:71-81 | While the result is open and every listed job's link has settled, some callback can run: a cycle never blocks. |
| `GraphProofs.AllAdded` | js/esm_loader.js:148-156 | Once the root's call is fulfilled, the call for every listed job is. |
| `GraphProofs.StepKeepsInv` | js/esm_loader.js:56-177 | Every settlement and callback keeps the invariant of the collection. |
| `GraphProofs.RunKeepsInv` | js/esm_loader.js:56-177 | The invariant holds after any order of events. |
| `GraphObject.Instantiation.constructor` | js/esm_loader.js:143-157 | A collection starts with the root's call. New state equals the specification's. |
| `GraphObject.Instantiation.Add` | js/esm_loader.js:148-153 | One call: the set, the list and the calls grow by a job not there yet. New state equals the specification's. |
| `GraphObject.Instantiation.AddAll` | js/esm_loader.js:75-80 | The loop that calls for each dependency in order. New state equals the specification's. |
| `GraphObject.Instantiation.ResumeCall` | js/esm_loader.js:154-156 | What a call does once `linked` settled. New state equals the specification's. |
| `GraphObject.Instantiation.ChildSettled` | js/esm_loader.js:75-81 | The counter: a fulfilled dependency is counted, a rejected one rejects. New state equals the specification's. |
| `GraphObject.Instantiation.RootSettled` | js/esm_loader.js:157-177 | Instantiate, then mark every collected job. New state equals the specification's. |
| `GraphObject.Instantiation.MarkInstantiated` | js/esm_loader.js:174-176 | The loop marks exactly the jobs in the list. New state equals the specification's. |
| `LinkSpec.LinksInRequestOrder` | js/esm_loader.js:109-134 | In whatever order jobs are found and modules arrive, the host's link is called at most once, only with every module there, in request order and each that of its request's job, and never after a failure; the job is then linked to those jobs, unless that call threw. |
| `LinkSpec.LinkDecides` | js/esm_loader.js:131-133 | When all requests have settled the link is called iff none failed, and the linking succeeds iff it was called and did not throw. |
| `LinkSpec.FailsWithItsCause` | js/esm_loader.js:57-134 | A linking fails only with the reason of a request that failed, or, once the host's link was called, with what that threw. |
| `LinkSpec.LinkingSettlesOnce` | js/esm_loader.js:57-70 | What the helper's promise and the linking have settled with no later event changes. |
| `LinkSpec.StepKeepsInv` | js/esm_loader.js:57-70 | Filing a module under its index, counting down, and the first failure keep the invariant of the promise helper. |
| `ModuleLoader.CacheKeyInjective` | js/esm_loader.js:87-87 | Two modules share a cache key only if path and type are the same, types holding no NUL. |
| `ModuleLoader.Loader.Adopt` | js/esm_loader.js:198-209 | One new, unlinked job is cached under its key. |
| `ModuleLoader.Loader.AdoptDependencies` | js/esm_loader.js:212-223 | The jobs of a job's dependencies, one for one: cached ones, or new ones put at the worklist's end. |
| `ModuleLoader.Loader.RunWorklist` | js/esm_loader.js:211-225 | The worklist terminates on any finite, possibly cyclic graph, and links every job on it. |
| `ModuleLoader.Loader.AdoptLoadedJob` | js/esm_loader.js:195-227 | Exactly the modules reachable through modules without a job get a new job, one each; every one is linked to the cached jobs of exactly its dependencies; no job there was changes. |
| `ModuleLoader.Loader.GetJob` | js/esm_loader.js:229-254 | The cached job, else an adopted or a new one; an instantiated module is adopted with everything reachable from it, each job linked to the cached jobs of its dependencies; a refused type or a failed load leaves the cache alone. |
| `StructuredClone.Cloner.StructuredClone` | js/bootstrap.js:1122-1218 | Succeeds iff the transfer list holds distinct readable buffers and nothing reachable refuses cloning; then the memo maps exactly the reachable and listed objects, injectively, to new exact copies with references redirected, and only the listed buffers are detached; on failure no object has changed, and the error is one a reachable object gives. |
| `StructuredClone.Cloner.CloneInner` | js/bootstrap.js:1153-1212 | Terminates on any graph; gives the image of the value with every newly memoized object finished and reachable from it, or an error a reachable object gives. |
| `StructuredClone.Cloner.CloneContainer` | js/bootstrap.js:1192-1211 | Remembers the empty clone, then fills it child by child, so cycles find it. |
| `StructuredClone.Cloner.CloneView` | js/bootstrap.js:1182-1191 | The whole buffer is cloned through the memo, then the view over it. |
| `StructuredClone.Cloner.CloneLeaf` | js/bootstrap.js:1173-1181 | Dates, patterns, blobs and readable buffers are copied as a whole. |
| `StructuredClone.Cloner.CheckTransfers` | js/bootstrap.js:1125-1149 | None iff the list holds distinct, readable buffers; otherwise the error of the first entry that does not do. |
| `StructuredClone.Cloner.Seed` | js/bootstrap.js:1150-1152 | Every listed buffer gets its copy in the memo, and nothing else does. |
| `StructuredClone.Cloner.Detach` | js/bootstrap.js:1213-1217 | Detaches exactly the listed buffers. |
| `CloneSpec.FillCopies` | js/bootstrap.js:1192-1211 | Filling entry by entry with set(), add() and assignment gives the exact copy: no two entries fall together. |
| `CloneProofs.FinishedIsFaithful` | js/bootstrap.js:1153-1212 | When every memoized object is finished, everything reachable has a copy of its own with redirected references. |
| `CloneProofs.ViewsShareTheirBuffer` | js/bootstrap.js:1182-1191 | Two reachable views have clones over one buffer iff they are over one buffer. |
| `MimeProofs.ParsePrint` | js/bootstrap.js:1018-1072 | Parsing the printed form of any well-formed MIME type (lower-case tokens, distinct names, quotable values) gives it back, quoting and escapes included. |
| `MimeProofs.ParseWritten` | js/bootstrap.js:1018-1072 | Parsing any text that writes a type, decorated as the grammar allows (white space, letter case, empty and unacceptable parameters, bare, quoted and unclosed values, trailing text after a quote), gives what it means: lower-case names, and of each name the first acceptable value. |
| `MimeProofs.EveryTypeIsWritten` | js/bootstrap.js:1018-1072 | Every text that parses is written in that way, so the results about written texts cover all of them. |
| `MimeProofs.ParsesExactlyIf` | js/bootstrap.js:1018-1030 | A text parses iff there is a slash behind a non-empty token and what follows, up to a semicolon and without trailing white space, is one too. |
| `MimeProofs.SelectsFirsts` | js/bootstrap.js:1057-1062 | The parameters kept are the first acceptable one of each name, in order of appearance. |
| `MimeProofs.ParsedWellFormed` | js/bootstrap.js:1018-1072 | Whatever parses is well-formed. |
| `MimeProofs.SerializeIdempotent` | js/bootstrap.js:1018-1072 | Serializing is idempotent wherever it is not null, and its result parses to the same type. |
| `MimeProofs.QuotedAt` | js/bootstrap.js:1042-1056 | Reading a quoted value, closed or cut off, with any character escaped or not and a backslash at the end, gives the characters it stands for and where it stops. |
| `MimeSerializer.SerializeMimeType` | js/bootstrap.js:1018-1072 | The cursor loop gives null iff the text writes no type, and otherwise the printed form of the type that any way to read the text as written gives. |
| `MimeSerializer.SerializeParams` | js/bootstrap.js:1031-1071 | The loop over parameters prints the first acceptable one of each name, in order. |
| `MimeSerializer.ReadParam` | js/bootstrap.js:1032-1062 | One parameter: name, value and where it ends; `MimeProofs.ParseWritten` says which those are in any written text. |
| `MimeSerializer.ReadQuoted` | js/bootstrap.js:1042-1056 | The loop through a quoted value, a backslash at the end included. |
| `SseParser.ParseSSEStream` | js/ai.js:12-83 | For every way to cut a text into chunks, the events are those of a one-shot parse of the whole. |
| `SseProofs.ParsePrintedEvents` | js/ai.js:30-79 | Parsing printed events gives them back, data of several lines included. |
| `SseProofs.ParseWrittenEvents` | js/ai.js:30-79 | Parsing any lines (comments, fields with or without the space after the colon, fields without a value, unknown names) gives the events they mean: the last event name and id, the data lines joined, one event per blank line that has data. |
| `SseProofs.EveryLineIsWritten` | js/ai.js:40-66 | Every line that is not empty is a comment, a field or a bare name in that sense, so nothing about reading lines is left open. |
| `SseProofs.OpenLineIsLost` | js/ai.js:26-28 | Text after the last newline never changes the events. |
| `SseProofs.FlushIsCompleteExactlyIf` | js/ai.js:72-79 | For every text: the flush gives what the text with its last line ended would give iff that line is empty, a comment or an ignored field, or sets an event name or id that the open event has or has no use for. |
| `SseProofs.TrailingEventIsLost` | js/ai.js:72-79 | A text whose trailing event the flush loses. |
| `SseParser.ReadChunkLines` | js/ai.js:30-70 | The loop over lines computes the fields and events of the specification. |
| `SseParser.SplitLines` | js/ai.js:26-28 | Splitting gives the complete lines and the rest. |
| `Sse.SplitConcat` | js/ai.js:24-28 | Splitting what was kept plus what came is splitting the whole. |
| `PoolProofs.CleanMeansEveryCaseJudged` | xtask/src/conformance.rs:1766-1904 | After any interleaving of workers with errors and panics: no case is started twice; nothing is reported iff no panic is stray and every case was run once to a verdict, and then the rows are those verdicts in case order. |
| `PoolProofs.NoSlotHeldTwice` | xtask/src/conformance.rs:1782-1798 | No two workers are at one case. |
| `PoolProofs.EmptyMeansNeverPulled` | xtask/src/conformance.rs:1836-1876 | Once every worker is joined a slot is empty iff no worker ever pulled its case. |
| `PoolProofs.PanicsAreAccountedFor` | xtask/src/conformance.rs:1800-1825 | Once every worker is joined: a panic with a case in flight is in that case's slot, with its text, iff the case had filed no verdict; every other panic, and only such, is reported as stray, once. |
| `PoolProofs.APanicIsLost` | xtask/src/conformance.rs:1800-1818 | A run in which a worker unwinds after its case has passed and nothing is reported. |
| `PoolProofs.FiledForGood` | xtask/src/conformance.rs:1766-1798 | A verdict or an error that a case's run ends with is in the case's slot from then on, whatever follows, and a worker that met an error pulls no further case. |
| `PoolProofs.RowsIgnoreInterleaving` | xtask/src/conformance.rs:1844-1880 | A run that reports nothing, and in which each case files its verdict, has the rows of those verdicts, each with its own status and text, whatever the workers and interleaving. |
| `PoolProofs.RowReports` | xtask/src/conformance.rs:1844-1880 | A row carries its case's name and tells its outcome from every other, with its detail; a slot nobody filled is a harness row that says so. |
| `PoolProofs.NoProblems` | xtask/src/conformance.rs:1886-1904 | There is no problem text iff there is no stray panic and no harness row. |
| `PoolProofs.RunKeepsInv` | xtask/src/conformance.rs:1766-1828 | The pool's invariant holds after any interleaving. |
| `PoolMethods.Reassemble` | xtask/src/conformance.rs:1844-1880 | The loop takes every slot, leaving it empty; each row reports its case's outcome, the pass count is the number of rows that passed, and the watchdog names are those of the outcomes, in case order. |
| `PoolMethods.FindProblems` | xtask/src/conformance.rs:1886-1904 | The text is the strays, the real errors, then one count of cases not run; None iff there is neither stray panic nor harness row. |

## Left out

- The network, native operations and transport: `fetch`, sockets, `oam.serve`, dispatchers.
- Error classes, codes and texts beyond the reasons the models name; `util.inspect` hooks, branding and property descriptors.
- Re-entrant user code inside `size()`, and patched promise machinery; exact microtask turns.
- Sizes and high-water marks as IEEE numbers: they are naturals here, so rounding and infinite marks are not captured.
- `TransformStream`, `TextDecoder`, `TextEncoder`, `autoAllocateChunkSize`, async iteration and argument checks of constructors.
- `reader.closed`, the abort signal of the sink's controller, and checks on detached buffers.
- A source that throws out of `pull()` or `cancel()` synchronously: that is a rejected settlement here.
- `respondWithNewView` with a buffer that disagrees on the bytes already filled: the view must continue where they end.
- Progress of byte streams with zero-length chunks: what is stated of byte streams is safety.
- The pipe, both tees and the worker pool are modelled on values, as state machines over three streams, two streams or the threads; update in place of their own few variables is not captured.
- A pipe's byte source: the source of the modelled pipe has a default controller.
- How a cancel of the source or an abort of both sides ends is an event of the pipe; the close and the abort of the destination end as their promises do.
- Reads still pending on a pipe's source after it was finalized with preventCancel: the release does not settle them.
- A tee whose chunk cannot be copied for the second branch. An exception in a callback of a byte tee leaves the rest of that callback undone, so the other branch is not promised to close; whose call it then comes out of is not captured.
- The two machines of the module loader are joined by an event: where graphs are collected a job's `linked` promise settles with the jobs the linking machine gives.
- Module evaluation, namespaces, the generation check of the cache, and the two awaits after a missing export.
- structuredClone: holes in arrays read as undefined, setters and `__proto__` keys met while filling, SharedArrayBuffer, length-tracking views.
- MIME types: lower case of letters outside ASCII other than the Kelvin sign, which cannot make a token.
- Server-sent events: decoding bytes to text, and the chat helpers and tool loop around the parser.
- The conformance pool: running the cases, panic payloads that are not text, and poisoned locks.
