# rsnova: the multiplexing protocol and its byte machines, verified

rsnova carries many streams over one encrypted connection. Each end runs three loops (receive,
event, send) over bounded queues; streams are opened with SYN, flow-controlled with credit, and
closed by an exchange of FINs. This project models that protocol at both ends, over byte links,
and proves what it promises to the streams it carries. Beside it stand the byte machines the
repository is built on: the write buffer and send loop, the relay future, the table of sessions,
the ClientHello parser and the end-of-body detector.

Check everything with `dafny verify dfyconfig.toml` (Dafny 4.11).

## How it is built

| file | what it holds |
|---|---|
| Bytes, Events | words, chunks, the packed header, the constructors |
| Codec, CryptoContext | the frame codec on values; the context with counters updated in place and the reader that copes with any fragmentation |
| Streams, EventQueue, MuxStream | one end of a stream: each poll as a function, and the class whose methods are proved against it |
| Lane, LaneInvariants, LaneTheorems, LaneResults, LaneFates | one stream between its two ends: state machine, invariants, what every step keeps, what holds of every run, what no later step can undo |
| Links | one direction of a connection: frames, buffers and socket bytes as a queue of events |
| Sessions, EventLoop | one end of a session as a value, and the event loop with its mutable table proved against it |
| System, Projection, SystemSteps, SystemRuns | two sessions and two links; every run is, for each stream id, a run of its lane |
| SystemResults, SystemFates | the end-to-end results: what every run promises, and what no continuation recovers from |
| HeadOfLine | how one reader holds up every stream of its end |
| Outbound | what each turn of an event loop sends, what it does to loop, table and streams, and whom a FIN wakes |
| SystemExamples, SystemLosses | concrete runs of two sessions in which a promise is broken, every queue answering as it must |
| SessionTable, StrayReports | the table of all sessions with its lookups by id, and reports that go to the wrong session |
| Shutdown, Backpressure | how the three loops end, and how those of two ends can block each other |
| Buffers, BufCopy, Sni, ChunkTail | the byte machines beside the protocol |

skip32 and the AEAD are function values with the laws `unscramble(k, scramble(k, x)) == x`,
`open(k, n, seal(k, n, p)) == Some(p)`, `|seal(k, n, p)| == |p| + 16`, and `|open(k, n, s)| + 16 ==
|s|` where `open` succeeds; every theorem that needs them takes them as the hypothesis `Lawful`, which
some cipher meets (`Codec.LawfulIsMet`). A run is any finite sequence of steps, each enabled when
its turn comes; the environment's choices (what a queue answers, how many bytes a read or write
moves, when a session retires or a loop fails) are part of the step, so the theorems hold for all of
them. `maxWrite` bounds a single write; it must stay below 2^24 - 131072.

### The hypothesis about ids

A session hands its streams over and reports their credit through lookups by id among the slots of its
channel. In the model of two sessions (System.dfy) such a lookup finds the session itself, as long as it
is `slotted`, and nobody afterwards. That is so for a session whose id no other session of its channel
has (`SessionTables.FoundIffSlotted`), and in general exactly while no earlier slot holds the id
(`SessionTables.OwnQueueFoundIff`). A client numbers its sessions with one counter
(src/channel/routine.rs:13); a server with two listeners repeats ids under one channel. All results about
runs of two sessions are for sessions that meet the hypothesis; `MuxStreams.MuxStream.PollRead` is proved
without it.

## Where the code does not keep the promise

Each of these is a theorem, with the exact condition or a concrete run.

- Flow control can stall for good: a due report that a full event queue refuses is retried only at a
  later read, and no later read comes when the window is used up. `SystemExamples.RefusedReportStalls`
  gives the runs, `SystemFates.StallIsForever` says that no continuation recovers. In a drained open
  stream a write is taken exactly if at most 131072 bytes are unreported
  (`SystemResults.DrainedStreamFlows`).
- Credit is conserved only under the hypothesis about ids: with two listeners the reports of the second
  session of an id are queued at the first (`SessionTables.WrongSessionFound`,
  `StrayReports.ReportGoesAstray`), so its own peer's window shrinks for good (`StrayReports.StrayReport`)
  and that of another client exceeds 131072 (`StrayReports.StrayCreditArrives`).
- Pending streams are adopted only while the session is in its slots, exactly
  (`SystemFates.AdoptedIffSlotted`); a session that retires in between strands them for good
  (`SystemFates.StrandedForever`) and throws their data away (`SystemExamples.RetiredSessionLosesData`).
- A close whose FIN the full event queue refuses leaves the stream in both tables
  (`SystemExamples.RefusedFinLeavesBoth`); otherwise both ends let go (`SystemResults.FinConverges`).
- A FIN closes a stream at once, so bytes that wait for its reader are lost: the reader gets everything
  exactly if nothing waits when the FIN is handled (`SystemFates.ReaderGetsAllIff`), and it never sees
  an end, only an error (`SystemFates.NoOrderlyEnd`). `SystemLosses.FinOvertakesReader` gives runs.
- There is no half-close: `poll_shutdown`, which the relay calls at the end of its local input, also ends
  the reader of the same end (`SystemFates.ClosedForever`, `SystemLosses.HalfCloseLosesData`).
- One reader that does not read holds up every stream of its end, because `offer_data` waits in the event
  loop (`HeadOfLine.OneReaderBlocksAll`, `SystemLosses.UnreadBytesBlock`).
- Two ends can block each other for good, each send loop waiting for the other's receive loop, exactly if
  both make more frames than a socket and a send queue hold (`Backpressure.DeadlockIff`).
- A reader with a buffer less than half a chunk can panic, because `fill_read_buf` compares a length
  with itself: readers with at least `room` bytes are safe in every run exactly if no write is longer
  than 2 * room (`SystemExamples.ReadersSafeIff`). The relay writes up to 64 KiB at once to readers
  with 8192 bytes.
- The round-robin scan misses slots when its 32-bit cursor wraps and the number of slots does not
  divide 2^32 (`SessionSlots.RoundFindsSession`).
- `erase_mux_session` goes by the id alone, which is unique only per listener: the session that ended is
  the one removed exactly if no place searched sooner holds its id (`SessionTables.OwnErasedIff`);
  `SessionTables.WrongSessionErased` shows a live one removed in its stead. In the model a session is
  told from others by its own event queue, and ids may repeat.
- A fixed-length body that arrives together with more bytes turns the count negative, and the reader
  into chunked mode (`ChunkTails.CheckFixed`, `ChunkTails.OvershotBodyEndsLate`).
- A ClientHello whose session id runs past its end makes the parser panic (`Sni.PanicsExactly`). Its
  server name list is read with the byte length as entry count: harmless exactly if the list is empty
  or holds a host_name (`Sni.VerdictFromListIff`, `Sni.SniRoundTrip`); otherwise the scan runs on behind
  it (`Sni.ScanRunsOn`) and may take a name from there (`Sni.NameFromBehindList`).

## Model

| member | source | states |
|---|---|---|
| `SystemResults.EndToEndDelivery` | src/rmux/stream.rs:133-184 | In every run of two connected sessions, with any interleaving of streams, loops and byte-level moves, the bytes returned by the polls of a stream's reader are a prefix of the bytes accepted by the polls of the same stream's writer at the other end |
| `SystemResults.NothingLostWhileOpen` | src/rmux/session.rs:504-600 | While the receiving end holds the stream and its reader, bytes written = bytes returned ++ leftover ++ data queue ++ the DATA of that stream in the hand, event queue and receive loop of the receiver, in the encrypted link, and in the sender's event queue |
| `SystemResults.CreditConserved` | src/rmux/stream.rs:52-72 | Window + data under way or unread + unreported count + credit under way never exceeds 131072, and equals it while both ends hold the stream and the reporting session is slotted; for sessions whose id no earlier slot of their channel holds, see "The hypothesis about ids" |
| `SystemResults.WindowsInRange` | src/rmux/stream.rs:58-71 | With writes of at most M < 2^24 - 131072 bytes the window stays in [-M, 131072], the unreported count in [0, 131072 + M], and every event of a stream fits the 24-bit length field; no credit of another session's streams comes in, see "The hypothesis about ids" |
| `SystemResults.DrainedStreamFlows` | src/rmux/stream.rs:57-71 | When nothing is under way and nothing waits for the reader of an open stream, the window is 131072 minus the unreported count: it is at least 98305 if and only if no report is due, and a write is taken if and only if at most 131072 bytes are unreported; under the hypothesis about ids |
| `SystemResults.OfferedDataIsNotEmpty` | src/rmux/stream.rs:260-269 | The assertion in `offer_data` holds: the event loop never offers an empty chunk |
| `SystemResults.CountersStayInStep` | src/rmux/crypto.rs:284-331 | The receiver of a link never meets a frame whose body does not open; when no byte is under way its header and AEAD counters are the sender's |
| `SystemResults.OpenedIdIsFresh` | src/rmux/session.rs:236-281 | The id an end will give to its next stream is unknown to both ends, and the two ends' ids have different parity |
| `SystemResults.PendingHandOff` | src/rmux/session.rs:138-155 | A stream is never both pending and in the table; before any FIN is queued it is in one of them; once its SYN has left the event queue of a session in its slots it is in the table |
| `SystemResults.HeldUntilFin` | src/rmux/session.rs:451-464 | Only a turn of the event loop that handles a FIN of a stream takes it out of pending list and table |
| `SystemResults.FinExchangeEnds` | src/rmux/session.rs:493-501 | In every run the two event loops together handle at most four FINs of a stream and two more for every close that queued one, although each removal queues another FIN |
| `SystemResults.FinConverges` | src/rmux/session.rs:543-547 | Once all FINs of a stream are handled and both event loops live, the stream is held by neither end if and only if a FIN was ever queued for it |
| `SystemResults.RunRecorded` | src/rmux/stream.rs:133-184 | The accepted and delivered histories of a stream are exactly the bytes its polls took and returned over the run |
| `SystemFates.StallIsForever` | src/rmux/stream.rs:146-149 | A direction whose window is negative, with no byte under way or unread and no credit coming back, stays so in every continuation of every run, and its writer takes not one byte more |
| `SystemFates.AdoptedIffSlotted` | src/rmux/session.rs:138-155 | The turn that takes a local SYN of a pending stream puts it in the table if and only if the session is still in its channel's slots |
| `SystemFates.StrandedForever` | src/rmux/session.rs:138-155 | Once a session has left its slots, or its event loop has ended, with a stream pending, in every continuation the stream stays pending, is never in the table, and its reader gets nothing |
| `SystemFates.ClosedForever` | src/rmux/stream.rs:187-194 | There is no half-close: once the flag of an end is up, be it by `poll_shutdown` of its writer, in every continuation the reader of the same end gets nothing and its writer takes nothing |
| `HeadOfLine.OneReaderBlocksAll` | src/rmux/session.rs:548-550 | While the event loop offers a chunk to a full data queue, in every continuation in which that stream's reader does not poll and is not dropped, the loop takes no event, its table stays, and no stream of that end gets data or credit |
| `SystemFates.FinFindsAll` | src/rmux/stream.rs:306-323 | When an event loop takes a FIN from its peer, in any run, the peer's stream is closed, and all its writer has taken = bytes returned ++ bytes that wait for the reader ++ bytes thrown away |
| `SystemFates.ReaderGetsAllIff` | src/rmux/session.rs:451-464 | The reader of a stream that such a FIN removes gets all its peer ever writes if and only if at that moment nothing waits for it and nothing was thrown away; in every continuation it gets nothing more, and nothing more is written |
| `SystemFates.NoOrderlyEnd` | src/rmux/stream.rs:75-124 | In no run does a poll of a reader with room for a byte report the end of the stream: the flag is always up before the end marker can be read, so what the reader sees is an error |
| `SystemFates.RoomForHalfIsSafe` | src/rmux/stream.rs:90-94 | With readers that always have room for half a longest write, no poll of any run panics |
| `SystemExamples.ReadersSafeIff` | src/rmux/stream.rs:90-94 | No poll panics in any run whose readers always offer at least `room` bytes, if and only if no write is longer than 2 * room |
| `SystemExamples.RefusedReportStalls` | src/rmux/session.rs:297-302 | For every cipher, key and bound on the writes there is a run, with room for 8192 bytes at every read and event queues that refuse only when they hold 16 events, after which everything written has been read, both ends are open in their slots, and the writer is parked in a stalled direction |
| `SystemExamples.RetiredSessionLosesData` | src/rmux/session.rs:138-155 | For every cipher, key and data there is a run in which a session retires between opening a stream and taking its SYN, the peer accepts the stream and writes the data, and all of it is thrown away though no FIN was queued |
| `SystemExamples.RefusedFinLeavesBoth` | src/rmux/stream.rs:306-323 | There is a run with a close whose FIN the full event queue refuses, after which no FIN is under way and both ends hold the stream |
| `SystemExamples.TooLongPanics` | src/rmux/stream.rs:90-94 | For every room and every larger bound than twice the room there is a run whose readers offer that room and in which a poll panics |
| `SystemLosses.FinOvertakesReader` | src/rmux/session.rs:451-464 | For every cipher, key and buffer there is a run in which the peer writes the buffer and closes, all of it waits for a reader that is in its table when the FIN is about to be taken, and in no continuation does the reader get it |
| `SystemLosses.HalfCloseLosesData` | src/tunnel/relay.rs:84-88 | There is a run in which the holder of a stream shuts its writer down while the peer's bytes wait, and in no continuation does its reader get them, though no FIN was queued |
| `SystemLosses.UnreadBytesBlock` | src/rmux/stream.rs:260-269 | There is a run with seventeen single bytes that nobody reads, after which the reader's event loop waits for its full data queue |
| `SystemRuns.RunProjects` | src/rmux/session.rs:630-875 | Every run of the two-session system over byte links is, for each stream id, a legal run of that stream's own lane ending in the same state: no stream changes what another sends, receives or owes (that one can hold up all others is `HeadOfLine.OneReaderBlocksAll`) |
| `SystemRuns.StepProjects` | src/rmux/session.rs:504-600 | Every step of either end keeps the system invariant and is one legal move of each lane or invisible to it |
| `SystemRuns.TakeKeepsSide` | src/rmux/session.rs:478-502 | A turn of the event loop keeps its table and pending list among the known streams, its local events well formed and its own ids below the seed |
| `SystemActs.ActSeen` | src/rmux/session.rs:504-600 | Each act of an end is, for every stream, one enabled act of the stream's lane or nothing, and leaves both links in step |
| `SystemSteps.ArrivalsFit` | src/rmux/session.rs:543-582 | A SYN arrives only for an unknown id of the other parity; DATA and WIN_UPDATE only for a known stream |
| `SystemSteps.ReportFits` | src/rmux/stream.rs:58-71 | A credit report that a read produces fits the 24-bit field of its message |
| `SystemSteps.GiveSeen` | src/rmux/stream.rs:260-269 | Offering a chunk to the data queue is the arrival of the stream's oldest message |
| `SystemSteps.DecryptUnseen` | src/rmux/session.rs:690-712 | Decrypting an event into the receive loop changes nothing that any stream has under way |
| `Projection.TurnProjects` | src/rmux/session.rs:504-600 | A turn of the event loop is, for each stream, one departure, arrival, drain or halt of its lane, or nothing |
| `Projection.LocalFin` | src/rmux/session.rs:493-501 | A local FIN removes its stream, then goes to the wire, unless the retired session ends with it |
| `Projection.RemoteData` | src/rmux/session.rs:548-557 | Data for a stream of the table is held first of all that is on its way there; data for another stream is thrown away |
| `Links.EncryptAppends` | src/rmux/crypto.rs:126-159 | Encrypting a well-formed event adds it at the back of the events a link carries and keeps the link in step |
| `Links.DecryptTakesOldest` | src/rmux/crypto.rs:160-281 | Whatever the receiver decrypts is the oldest event of the link |
| `Links.FlushKeeps` | src/rmux/session.rs:830-849 | A partial write of the vectored buffer keeps the bytes under way |
| `Links.FetchKeeps` | src/rmux/crypto.rs:296-318 | A read of any size keeps the bytes under way |
| `LaneTheorems.StepKeepsInv` | src/rmux/stream.rs:52-72 | Every act of either end of a stream keeps order and content of the bytes, the credit sum, the window ranges, the place of the SYN and the duties of queued FINs |
| `LaneTheorems.RunKeepsInv` | src/rmux/stream.rs:52-72 | The lane invariant holds after every run |
| `LaneTheorems.LifecycleStep` | src/rmux/session.rs:451-464 | Every act keeps the life cycle: the SYN goes first and alone, and while an end can still hold a stream after a FIN was queued, a FIN is waiting there or on its way there |
| `LaneTheorems.DirectionsStep` | src/rmux/stream.rs:133-184 | Every act keeps both directions' byte order and credit sum |
| `LaneTheorems.LossesStep` | src/rmux/session.rs:290-309 | Reports are lost only by a session outside its slots, incoming credit only by an end that has left the table for good |
| `LaneInvariants.PollReadEffect` | src/rmux/stream.rs:75-124 | A read moves bytes from the buffer to the reader and keeps the sum of unreported, lost and reported credit |
| `LaneInvariants.SumBounds` | src/rmux/stream.rs:58-71 | The credit sum bounds the windows, counts and reports of a direction |
| `LaneResults.DeliveredIsPrefix` | src/rmux/stream.rs:75-124 | Per stream, what was returned is a prefix of what was accepted, in both directions and every run |
| `LaneResults.NothingLostWhileOpen` | src/rmux/stream.rs:75-124 | The byte equation of one stream while its receiving end is open |
| `LaneResults.CreditConserved` | src/rmux/stream.rs:250-259 | The credit equation of one stream; refused reports keep it, and only reports of a session outside its slots are lost |
| `LaneResults.WindowsInRange` | src/rmux/event.rs:164-173 | Ranges of windows, counts and credit amounts of one stream |
| `LaneResults.DrainedWindow` | src/rmux/stream.rs:146-149 | The same of one stream over every run of its lane, in both directions |
| `LaneResults.AcceptedReportClearsCount` | src/rmux/stream.rs:57-71 | A read that returns bytes while the event queue has room leaves less than 32 KiB unreported |
| `LaneResults.CreditWakesWriter` | src/rmux/stream.rs:250-259 | Credit wakes a parked writer if and only if the window rises above zero; at exactly zero a write would be taken but nobody is woken |
| `LaneFates.StuckStep` | src/rmux/stream.rs:146-149 | No act of either end gets a stalled direction going or lets its writer take a byte |
| `LaneFates.FinDecides` | src/rmux/session.rs:451-464 | Per stream, over every continuation after a FIN: delivered = accepted if and only if nothing waited and nothing was thrown away |
| `LaneFates.ReadIsSafe` | src/rmux/stream.rs:90-94 | Where no leftover is longer than `least`, a read with that room does not panic, and no read with room ends without a byte |
| `LaneResults.FinWorkStep` | src/rmux/session.rs:451-464 | Handling a FIN strictly lowers the weighted count of table entries and FINs; only a close that queues a FIN raises it, by two |
| `LaneResults.FinExchangeEnds` | src/rmux/stream.rs:306-323 | Per stream, at most four FIN moves and two more per close in any run |
| `LaneResults.FinConverges` | src/rmux/stream.rs:306-323 | Per stream, the settled state is empty if and only if a FIN was queued; a close whose FIN the full event queue refused leaves the stream in both tables |
| `Codec.StreamRoundTrip` | src/rmux/crypto.rs:126-281 | For every list of well-formed events, decoding the concatenated frames gives the same headers and bodies, ends with the writer's counters and leaves no byte |
| `Codec.RoundTrip` | src/rmux/crypto.rs:160-281 | One frame decodes to its event, leaves what follows and moves the reader's counters as the writer's, if and only if the event is well formed |
| `Codec.Encode` | src/rmux/crypto.rs:126-159 | Every frame has at least eight bytes, so an empty vector in the send queue is an unambiguous end marker |
| `Codec.DecodeIgnoresWhatFollows` | src/rmux/crypto.rs:160-281 | A verdict once reached does not change when more bytes follow |
| `Codec.PrefixIsShort` | src/rmux/crypto.rs:162-188 | A strict prefix of a frame is neither accepted nor rejected; the missing count is exactly what the header lacks, or the frame once the header is there |
| `Codec.ForgeryRefused` | src/rmux/crypto.rs:255-275 | A frame whose body does not open is refused: header gone, AEAD counter moved, header nonce not |
| `Codec.DecodeAllResumes` | src/rmux/crypto.rs:284-331 | Decoding can stop anywhere and resume with the bytes left over |
| `Codec.FrameAppends` | src/rmux/crypto.rs:126-159 | A frame appended to a decoded stream adds its event in lock-step |
| `Codec.LawfulIsMet` | src/rmux/crypto.rs:107-281 | The four laws asked of a cipher are met by one: clear text with a tag of zeros |
| `Codec.FrameLayout` | src/rmux/crypto.rs:126-159 | What a frame consists of: the packed header scrambled with the key of the nonce before the frame, and a body in the clear, or sealed with the number after the counter |
| `Codec.HeaderKeyBits` | src/rmux/crypto.rs:107-125 | Of the ten bytes of the header key, eight hold the bits of a key byte and of a nonce byte, and two are key bytes |
| `Codec.CountersMove` | src/rmux/crypto.rs:126-159 | Over any list of events the header nonce goes up by their number and the AEAD counter by the number of bodies, modulo 2^64 |
| `Codec.FrameOf` | src/rmux/crypto.rs:126-159 | Each frame of a stream is encoded under the counters that the frames before it left |
| `Codec.NumbersAreFresh` | src/rmux/crypto.rs:126-159 | Over fewer than 2^64 frames no two headers are scrambled with one nonce and no two bodies are sealed with one number |
| `CryptoContexts.CryptoContext.constructor` | src/rmux/crypto.rs:56-91 | Short keys are padded with F to 32 bytes and both counters start at the nonce |
| `CryptoContexts.CryptoContext.Skip32Key` | src/rmux/crypto.rs:107-125 | The loop computes the header key: ten key bytes, eight of them or-ed with the nonce |
| `CryptoContexts.CryptoContext.Encrypt` | src/rmux/crypto.rs:126-159 | Appends the frame to the buffer; with a cipher other than Plain the header nonce goes up by one and the AEAD counter by one exactly for an event with a body, both modulo 2^64 |
| `CryptoContexts.CryptoContext.Decrypt` | src/rmux/crypto.rs:160-281 | Takes one frame off the buffer and moves header nonce and AEAD counter as the writer did; reports what is missing and changes nothing; or drops a forged frame, which moves the AEAD counter only |
| `CryptoContexts.ReadEncryptEvent` | src/rmux/crypto.rs:284-331 | The outcome of reading one event depends only on the bytes still to come, never on how the network cuts them: without a failing read it is the event, the end of the stream or the forgery that the whole input says, and an I/O error is returned exactly if a read failed; the loop ends |
| `CryptoContexts.ReceiveAll` | src/rmux/crypto.rs:284-331 | Successive calls return exactly the events of the whole byte stream, with leftover bytes carried over, and end as that does; only if a read fails are they a prefix |
| `Events.FlagLenRoundTrip` | src/rmux/event.rs:36-49 | Flags and length come back from the packed word, the length modulo 2^24 |
| `Events.SettersKeepTheOtherHalf` | src/rmux/event.rs:51-58 | Setting length or flag keeps the other half and the stream id |
| `Events.ToEventFaithful` | src/rmux/event.rs:86-173 | A constructor's event is well formed and means its message if and only if length or credit fit 24 bits |
| `EventQueues.EventQueue.TrySend` | src/rmux/stream.rs:171-182 | A bounded queue: accepted exactly when open and below 16 |
| `MuxStreams.MuxStream.constructor` | src/rmux/stream.rs:206-237 | A new stream has a window of 131072, nothing unreported and empty queues |
| `MuxStreams.MuxStream.PollWrite` | src/rmux/stream.rs:133-184 | The writer's poll with its fields updated in place is the specification `Streams.PollWrite`, and queues exactly one DATA event when it takes the bytes |
| `MuxStreams.MuxStream.ReportUpdateWindow` | src/rmux/session.rs:283-310 | The lookup over the slots of the channel: the first slot with the session's id decides, whosever it is. True when none has the id or its queue took the report, false when the report must be retried; no other queue changes |
| `MuxStreams.MuxStream.IncRecvBufWindow` | src/rmux/stream.rs:52-72 | Counts returned bytes and reports from 32 KiB on, to the queue that the lookup finds |
| `MuxStreams.MuxStream.PollRead` | src/rmux/stream.rs:75-124 | The reader's poll is `Streams.PollRead` wherever its report goes: to the own session, to another session of the same id (then it is lost to this stream, and that queue gets it), or nowhere; the destination holds the returned bytes and is otherwise unchanged |
| `MuxStreams.MuxStream.UpdateSendWindow` | src/rmux/stream.rs:250-259 | Adds credit and wakes the writer above zero |
| `MuxStreams.MuxStream.OfferData` | src/rmux/stream.rs:260-269 | Queues data, waits while the data queue is full, drops it when the reader is gone |
| `MuxStreams.MuxStream.CloseHandle` | src/rmux/stream.rs:306-323 | Sets the flag, wakes the parked writer, queues an empty end marker and a FIN exactly where there is room |
| `Streams.PollReadCases` | src/rmux/stream.rs:75-124 | When a poll of the reader fails, waits, panics or returns bytes, and that only an end marker gives none to a reader with room |
| `Streams.PollReadMoves` | src/rmux/stream.rs:75-124 | Bytes leave the buffer in order and none is lost; an end marker puts the flag up; with the flag up the reader closes its data queue |
| `EventLoops.EventLoop.Turn` | src/rmux/session.rs:504-600 | One turn of `process_event` on a mutable table, pending list and queues is the step `Sessions.TakeEvent`; a removed stream's FIN and end marker are queued exactly where there is room, and a ROUTINE is judged by the clock's verdict |
| `Outbound.TurnSends` | src/rmux/session.rs:478-588 | In every run a turn of the event loop adds to the encrypted events under way to the peer, at their end, exactly: a bare PONG of the same id for a PING from the peer, nothing for its other events; a local event itself, but for SHUTDOWN, ROUTINE and the FIN that ends a retired session |
| `Outbound.TurnEnds` | src/rmux/session.rs:426-449 | A turn ends the loop if and only if it takes the loop's own SHUTDOWN, a ROUTINE that finds the session idle, or retired without streams, or a FIN that removes a retired session's last stream |
| `Outbound.TurnTable` | src/rmux/session.rs:451-502 | The table after a turn: without its stream after a FIN; with it after the peer's SYN; with all pending streams after a local SYN of a session in its slots; otherwise as before |
| `Outbound.TurnStream` | src/rmux/session.rs:541-600 | Every stream after a turn: closed with its writer woken, if the loop ends with it in the table or a FIN takes it out; with the credit of a WIN_UPDATE, or new after a SYN, if it is the event's; otherwise unchanged |
| `Outbound.TurnOffers` | src/rmux/session.rs:548-557 | A turn takes the body of a DATA event for a stream of the table into the loop's hand, and nothing else |
| `Outbound.FinWakesForever` | src/rmux/stream.rs:306-323 | In every run, after a turn that handles a FIN of a stream in the table the stream is out of it and closed, its parked writer is woken, and in no continuation does a writer of it sleep |
| `EventLoops.EventLoop.HandlePendingStreams` | src/rmux/session.rs:138-155 | The popping loop moves every pending stream into the table if the session is in its slots |
| `EventLoops.EventLoop.HandleFin` | src/rmux/session.rs:451-464 | Removes the stream from the table, closes it, wakes its writer and queues its FIN and end marker exactly where there is room, touches no other stream, and says whether the retired session is finished |
| `EventLoops.EventLoop.HandleLocal` | src/rmux/session.rs:478-502 | Local events: shutdown and routine never reach the wire, SYN drains the pending list first, FIN removes first |
| `EventLoops.EventLoop.HandleRoutine` | src/rmux/session.rs:426-449 | Ends a session that is retired without streams, or idle |
| `EventLoops.EventLoop.HandleRemote` | src/rmux/session.rs:541-588 | Remote events by flag: the method on the mutable table is the step on values |
| `EventLoops.EventLoop.HandleSyn` | src/rmux/session.rs:541-544 | `or_insert`: an entry of the table stays, otherwise a new stream enters |
| `EventLoops.EventLoop.HandleWindowUpdate` | src/rmux/session.rs:578-582 | Credit reaches a stream of the table only |
| `EventLoops.EventLoop.Give` | src/rmux/stream.rs:260-269 | One poll of the data queue that is offered a chunk |
| `EventLoops.EventLoop.SendFrame` | src/rmux/session.rs:466-476 | The held frame enters the send queue exactly if that is open and has room, else the loop keeps it; either way the bytes under way on the link stay the same, in order |
| `EventLoops.EventLoop.Finish` | src/rmux/session.rs:594-600 | At the loop's end every stream of the table is closed with its writer woken, none other is touched, and the event queue is closed |
| `EventLoops.MarkersOnly` | src/rmux/stream.rs:306-323 | End markers queued by that last round of closes change neither what a reader sees nor any byte |
| `Buffers.FillReadBuf` | src/utils/buf.rs:6-20 | Copies all of the source to the front of the destination and empties it; needs room for all of it |
| `Buffers.VBuf.Push` | src/utils/buf.rs:39-45 | Appends to the byte queue, or refuses an empty chunk or a 65th one |
| `Buffers.VBuf.Remaining` | src/utils/buf.rs:49-52 | The length of the byte queue |
| `Buffers.VBuf.Front` | src/utils/buf.rs:54-59 | A prefix of the byte queue, empty only if the queue is |
| `Buffers.VBuf.Advance` | src/utils/buf.rs:61-72 | Removes exactly min(cnt, remaining) bytes across any number of chunks |
| `Buffers.VBuf.BytesVectored` | src/utils/buf.rs:74-86 | The slices are a prefix of the byte queue, all of it when there are slices enough, never empty while bytes remain |
| `SendLoops.Gather` | src/rmux/session.rs:822-842 | Takes frames without waiting until 60 chunks are held or none is visible; keeps buffer ++ queue, no push is refused, and it ends the loop exactly if it meets the end marker or a closed queue |
| `SendLoops.SendTurn` | src/rmux/session.rs:806-853 | One turn keeps written ++ buffer ++ queue; it ends the loop exactly if it meets the end marker or a closed queue, or a write fails or takes nothing |
| `SendLoops.SendLoop` | src/rmux/session.rs:788-860 | Whatever the socket accepts and whenever the loop stops, bytes written ++ buffer left = concatenation of the frames taken; it stops only at the end marker, a closed queue, a write that fails or takes nothing, or the closed flag |
| `Shutdown.ShutdownPropagates` | src/rmux/session.rs:690-774 | Once any loop has ended the closed flag stays up, the loops take at most 73 more steps together whatever the peer and the streams do, and no loop can step exactly when all have ended |
| `Shutdown.NoDeadlock` | src/rmux/session.rs:788-872 | With the flag up, some loop can take a step of its own until all have ended |
| `Shutdown.WaitsOnlyWhenIdle` | src/rmux/session.rs:690-872 | In every reachable state, no loop can step and not all are over if and only if the receive loop waits for the peer, the event and send loops wait for their queues, and both queues are empty |
| `Shutdown.FewStepsRemain` | src/rmux/session.rs:690-872 | A ranking function bounds the remaining steps |
| `Shutdown.ActKeepsInv` | src/rmux/session.rs:762-774 | A loop that has ended has left a SHUTDOWN event for the event loop or an end marker for the send loop |
| `Backpressure.AllWaitIff` | src/rmux/session.rs:690-849 | Over sockets that hold a bounded number of frames, and where no reader is waited for, the loops of both ends all wait if and only if there is nothing to do or each end is jammed by the other: event queue, send queue and socket full, a frame in the event loop, in the write and in the receive loop |
| `Backpressure.DeadlockIsForever` | src/rmux/session.rs:466-476 | In that jam no step is possible, not even of a stream or the routine task |
| `Backpressure.DeadlockIff` | src/rmux/session.rs:690-849 | Some run in which each end makes at most n frames ends in the jam if and only if n is at least what a socket and a send queue hold and three more |
| `SessionTables.SessionTable.Store` | src/rmux/session.rs:96-115 | The session takes the channel's first free slot, or a new one behind a full channel; nothing else moves, no cursor changes; the channel grows by one; each live session stays in exactly one place |
| `SessionTables.SessionTable.Erase` | src/rmux/session.rs:117-136 | Empties the first slot of the channel with the id, else removes the first retired session with it, whatever its channel; does nothing if neither exists; each other live session stays in exactly one place |
| `SessionTables.TargetIs` | src/rmux/session.rs:117-136 | The place that is emptied: the first slot of the channel with the id, or, if no slot of the channel has it, the first such place of the retired list |
| `SessionTables.SlotErased` | src/rmux/session.rs:119-127 | Erasing a slot empties it and changes nothing else |
| `SessionTables.RetiredErased` | src/rmux/session.rs:129-135 | Erasing from the retired list moves what follows by one and changes nothing else |
| `SessionTables.OwnErasedIff` | src/rmux/session.rs:117-136 | A session that ends and is erased by its id is itself the one removed if and only if no place searched sooner (slots of its channel, then the retired list) holds the id; otherwise another live session goes and it stays |
| `SessionTables.WrongSessionErased` | src/tunnel/local.rs:110 | Two sessions with one id, numbered by two listeners and stored under the server's channel: the end of the second erases the first |
| `SessionTables.OwnQueueFoundIff` | src/rmux/session.rs:290-309 | The lookup by id from a session in a slot finds that session's own event queue if and only if no earlier slot of its channel holds the id; otherwise it finds another live session |
| `SessionTables.FoundIffSlotted` | src/rmux/session.rs:138-155 | A session whose id no other session of its channel has is found exactly while it is in one of the channel's slots |
| `SessionTables.WrongSessionFound` | src/tunnel/local.rs:110 | Of two listeners' sessions with one id the lookup of the second finds the first |
| `StrayReports.ReportGoesAstray` | src/rmux/session.rs:290-309 | The report of a reader of the second of those sessions is queued at the first, and the second gets nothing |
| `StrayReports.StrayReport` | src/rmux/stream.rs:57-71 | A report that another session gets is missing from the ledger of its own direction by exactly its amount |
| `StrayReports.StrayCreditArrives` | src/rmux/session.rs:578-582 | The first session sends the stray report on, and its peer's stream of the same id gets the credit: a full window exceeds 131072 |
| `SessionTables.SessionTable.Size` | src/rmux/session.rs:157-168 | Counts the occupied slots |
| `SessionTables.SessionTable.RoutineChannel` | src/rmux/session.rs:190-222 | Exactly the due sessions of a channel leave their slots for the retired list, in order and flagged; the notices are those of its sessions |
| `SessionTables.SessionTable.RoutineAll` | src/rmux/session.rs:184-234 | Every channel is swept; each live session's queue is sent exactly what it should be (SHUTDOWN for one timed out, PING and ROUTINE for one of a named channel, ROUTINE else), and no other queue anything; exactly the due sessions join the retired list, flagged and otherwise as they were |
| `SessionTables.SessionTable.CreateStream` | src/rmux/session.rs:236-281 | The first live session in cursor order gives its seed as the id, and its seed is then two further, modulo 2^32; the cursor moves by the slots looked at; nothing else changes |
| `SessionSlots.IdsDiffer` | src/rmux/session.rs:254-262 | Over any sequence of such calls, two streams that one session numbers have different ids of the parity of its seed, as long as that does not wrap |
| `SessionTables.PlaceTold` | src/rmux/session.rs:184-234 | The notices of a round over all channels and the retired list, in whatever order the channels are visited, are for each live session exactly its own |
| `Sweeps.KeptIs` | src/rmux/session.rs:190-222 | A sweep empties a slot if and only if its session has timed out, or is of a named channel and over age; every other slot stays as it is |
| `Sweeps.DueInOrder` | src/rmux/session.rs:190-222 | The sessions of a channel that retire do so in the order of their slots, flagged and otherwise as they were |
| `SessionSlots.OccupiedCounts` | src/rmux/session.rs:157-168 | The size of a channel is the number of its occupied slots |
| `Sweeps.KeptSize` | src/rmux/session.rs:184-234 | A sweep shrinks a channel by the number of sessions that retire |
| `SessionSlots.RoundFindsSession` | src/rmux/session.rs:248-272 | A round finds a session whenever there is one, for every occupancy, if and only if the 32-bit cursor does not wrap in it or the number of slots divides 2^32 |
| `SessionSlots.ScanCovers` | src/rmux/session.rs:248-272 | A round looks at every slot under exactly that condition |
| `BufCopies.BufCopy.constructor` | src/utils/io.rs:29-45 | Nothing read, nothing written |
| `BufCopies.BufCopy.Poll` | src/utils/io.rs:52-90 | Across polls that stop anywhere, read = written ++ buf[pos..cap] and the amount counts the written bytes; ready means end of input seen, everything written in order and flushed; pending exactly if the reader or writer last answered so, failed exactly if one failed or a write took nothing; no empty write is issued |
| `Sni.PeekSni` | src/tunnel/tls.rs:32-118 | The parser on a connection is the specification `Sni.Peek`; the bytes to replay are exactly those consumed |
| `Sni.FindName` | src/tunnel/tls.rs:93-111 | The inner loop is `Sni.ScanNames` |
| `Sni.FindExtension` | src/tunnel/tls.rs:77-117 | The loop over the extensions ends, with a name or an error |
| `Sni.ReadHello` | src/tunnel/tls.rs:43-76 | The fields before the extensions, on the specification `Sni.ScanHello`; its errors are those of the lemmas below |
| `Sni.SniRoundTrip` | src/tunnel/tls.rs:32-118 | For every serialised ClientHello with a server name the parser returns the first host_name and the record itself |
| `Sni.RecordPeeked` | src/tunnel/tls.rs:32-76 | On a serialised ClientHello the verdict depends on the extensions only, and not on what the client sends next |
| `Sni.NoServerName` | src/tunnel/tls.rs:77-81 | Without a server_name extension the parser fails at the end of the extensions |
| `Sni.ScanRunsOn` | src/tunnel/tls.rs:93-111 | A list without a host_name is scanned past its end: the verdict is that of the bytes behind it, for as many entries as the list has bytes beyond its entries |
| `Sni.VerdictFromListIff` | src/tunnel/tls.rs:93-111 | The verdict comes from the list alone, whatever follows it, if and only if the list is empty or holds a host_name |
| `Sni.NameFromBehindList` | src/tunnel/tls.rs:93-111 | Records with a list that holds no host_name and an extension of 256 bytes behind it: the parser returns bytes of that extension as the server name |
| `Sni.PanicsExactly` | src/tunnel/tls.rs:46-47 | The parser panics if and only if a complete ClientHello record carries a session id that runs past its end |
| `Sni.RecordRefused` | src/tunnel/tls.rs:35-48 | For every input: an I/O error if and only if the record is not there as a whole, too short if and only if its length is below 42, no ClientHello if and only if a whole record carries a message of another type |
| `Sni.CutHelloRefused` | src/tunnel/tls.rs:45-76 | A record whose ClientHello ends after any k bytes before its own end gets the error of the field that is cut, whatever follows |
| `Sni.OddCiphersRefused` | src/tunnel/tls.rs:54-58 | An odd length of the cipher list is an error |
| `Sni.NoExtensionsRefused` | src/tunnel/tls.rs:68-76 | So is an extension list of length zero |
| `Sni.ExtensionsRefused` | src/tunnel/tls.rs:77-92 | Behind any extensions of other kinds: the error for a list that ends in the head of an extension or in its data, and for a server_name extension too short for its list's length |
| `Sni.NamesRefused` | src/tunnel/tls.rs:93-105 | Behind any entries of other types: the error for a list that ends in the head of an entry or in its name |
| `ChunkTails.BodyReader.PushTail` | src/tunnel/http.rs:152-163 | The tail after a call is the last five bytes of old tail ++ new bytes |
| `ChunkTails.BodyReader.Check` | src/tunnel/http.rs:144-183 | Verdict, count, tail and buffers after one call, in all three modes |
| `ChunkTails.CheckAll` | src/tunnel/http.rs:144-183 | In chunked mode each verdict is positive exactly if all bytes so far end in 0 CR LF CR LF, however they were cut into calls |
| `ChunkTails.CheckFixed` | src/tunnel/http.rs:144-183 | With a length, as long as fewer bytes have come than the length, a call reports the end if and only if its bytes make it up exactly, and then no later call does; after a call that overshoots the length, a call reports the end if and only if the bytes since then end in 0 CR LF CR LF |
| `ChunkTails.OvershotBodyEndsLate` | src/tunnel/http.rs:171-181 | A body of three bytes that comes with a fourth is reported complete only when five later bytes happen to be a last chunk |
| `ChunkTails.LastOfMore` | src/tunnel/http.rs:152-163 | A window of five bytes over a window is the window over the whole |

## Left out

- Sockets, TLS, WebSocket and SOCKS adapters, URL handling, configuration, logging, statistics counters and the command line: plumbing over libraries.
- The insides of skip32, of the AEAD and of bincode: function values with laws, or an arbitrary request body. A remote SYN whose body does not deserialise, which the code ignores, is not represented; no peer of the model sends one.
- The AUTH exchange that sets up a session and `write_encrypt_event`: straight-line uses of the codec.
- The nonces are 64-bit and wrap, as in a release build; a debug build would stop instead.
- Clocks: idle time, ping and pong times and the random age limit are choices of the environment. `handle_ping_event` and the PONG branch only store times.
- Threads inside one poll: every stretch of code between two awaits is one step, so the gap between the window check and the storing of the waker in `poll_write` does not exist in the model.
- `Header` setters are functions that return the new word, not updates in place.
- Reader, writer and handle of a stream are one class, because they share one state. The reader's branch for a data queue whose senders are all gone is not modelled: senders are dropped only after a `close` has put the flag up, and the reader tests the flag first.
- `SystemResults.CreditConserved`, like all results about runs of two sessions, does not model reports that come from or go to a third session (see the hypothesis about ids).
- `create_stream` returns its stream even if the event queue closed before it took the SYN; here such a stream stays `opening` for ever. The event loop has ended then: every write fails, and nothing arrives.
- `CryptoContexts.ReadEncryptEvent`: after a failed read the code leaves the buffer longer than what was read; nobody uses it afterwards, and the model keeps the bytes.
- `EventLoops.EventLoop.HandleSyn` (with `HandleRemote` and `Turn`): a remote SYN for a stream that this end has pending is not represented, because the model keeps one object for an id; no run reaches it (`SystemSteps.ArrivalsFit`, `SystemResults.OpenedIdIsFresh`). Spawning the task that serves the stream is left out.
- FINs that the closing round of an ended event loop puts into its own queue, and frames in the hand of a loop that ended, are never taken; the lanes leave out the first and count the second as still under way.
- Stream ids stop before the 32-bit seed wraps, and the relays' writes are not empty (`BufCopies.BufCopy.Poll` shows the latter for the relay future).
- Cancellation of `create_stream` or of a `select!` arm in the middle of an await.
- Reads after the end of the byte stream: bytes left in the receive buffer then are dropped by the code with the session.
- Shutdown keeps of the queues' contents only what decides whether a loop goes on; it assumes that socket writes and `offer_data` return (Backpressure.dfy and HeadOfLine.dfy say when they do not). Links between two sessions are unbounded; Backpressure.dfy bounds them, counts whole frames and leaves out what they carry.
- `SessionTables.SessionTable.CreateStream` asks for fewer than 2^32 slots and models id, cursor and seed; the pending list and the SYN are in System.dfy.
- `valid_tls_version`, `handle_tls`, `parse_request` and `HttpReader::poll_read`: library results or straight-line reads. The server name is a byte string; its lossy UTF-8 decoding is not modelled.
- `BufCopies.BufCopy.Poll`: an empty buffer counts as end of input, as in the code; the claim that everything was copied is for a non-empty one.
