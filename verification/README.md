# Flow control, parsing and event handling of pywebtransport, verified

pywebtransport is a WebTransport stack over HTTP/3 and QUIC: a Rust engine without I/O of its own, a transport around
it, and a Python front end. This project models the engine's core in Dafny and proves what it promises: that flow
control accuses no peer wrongly and gets stuck only after losses, that no request and no byte is lost or doubled, when
parsing depends on how the network cuts the input, and that a connection ends cleanly.

`dafny verify dfyconfig.toml` checks everything.

## How it is built

Each component has a value model, pure functions from a state and an event to the new state and its effects, and the
properties are lemmas about runs of these functions. The source updates objects in place, so each component also has
a class whose methods, loops included, are proved to compute these functions.

| files | content |
|---|---|
| Types, Varint, ErrorCodes, Utf8 | identifiers, effects, constants, variable-length integers, error codes |
| Streams, StreamFacts, StreamClass | one stream: buffers, halves, closing |
| Sessions, Traces, SessionInvariant, SessionClass | one session: credit, quotas, capsules, datagrams, teardown |
| Ledger, Grammar, Release | requests answered once; well-formed stream events; what was parked while connecting |
| Outflow, Pair, Starvation, Crowding | two sessions facing each other |
| WritePath, ReadPath, TransportClass | bytes between user, session, transport and QUIC |
| Frames, ControlStream, StreamHeader, H3Class | HTTP/3 frames, capsules, settings and stream headers |
| ProtocolList, ListCursor | structured-field lists of protocol names |
| Waker | the wake-up protocol between reactor and Python loop |
| Connections, StreamIndex, EarlyEvents, EarlyDelivery, ConnInvariant, Termination, SessionRequests, ConnectionClass | one connection: sessions, stream index, early events, termination, requests for sessions |
| Engines, EngineClass | the event loop and the requests that wait |

## What is taken for granted

- Request ids and stream ids are fresh, and a stream id belongs to one session (`SessionInvariant.Allowed`,
  `StreamIndex.Permitted`, `ConnInvariant.AllowedConn`, `SessionRequests.Orderly`).
- Each stream creation handed to the transport comes back as one bind or one deferral. Streams reported as opened are
  initiated by the peer, bound ones are local.
- A read returns no more than the size asked for, and nothing only at the end of the stream. QUIC takes at least one
  byte of a write or refuses it, and acknowledges a FIN only after it was handed over.
- Capsules arrive in order. Bytes and openings of different streams arrive in any order, or not at all.
- In a pair of sessions the stream limits stay at most 2^60, and the initial data limits within the varint range
  (`Pair.Roomy`, and the preconditions of `Pair.NeverAccused`).
- Machine words are 64 bits wide. Counters that the source decrements unchecked are integers here: the size of a
  write buffer and the count of early events never go below zero in any run, and the count of streams issued does not
  in any run of a pair. Sums that the source saturates saturate here.
- The transport hands over every event of QUIC before it takes one of the user (`WritePath.Prompt`).
- The clock, the parsed form of headers and the HTTP/3 events made of a transport event are parameters.

## What turned out to need a condition

- Behind an empty frame the frame loop stops although bytes remain. Parsing does not depend on how the input is
  cut if and only if no complete frame head is left behind the first empty frame (`Frames.ChunkingExact`).
- Bytes lost with a stream that is reset are never credited back. A sender can be left out of credit once half a
  window has been lost, and not before (`Pair.NoDeadlock`, `Starvation.LossStarves`).
- What was parked while a session was connecting is released on confirmation if and only if no parked capsule asks to
  drain; otherwise the parked streams are never shown (`Release.ConfirmReleases`, `Release.ParkedForever`).
- A stream creation can be left waiting although nearly half of the streams the peer allows are free, and not with more
  of them free (`Pair.NoStreamDeadlock`, `Crowding.WaitsThough`).
- A request for a session whose stream the peer resets before it responds is not answered by that. It waits until a
  response, a failure, GOAWAY while it is blocked, or the end of the connection (`SessionRequests.ResetUnanswered`).
- The event queue drops what is pushed while it holds 65536 events: nothing is lost if and only if the pushes never get
  further ahead of the pops than that (`Waker.LostExactly`, `Waker.BurstLoses`).

## Model

| member | source | states |
|---|---|---|
| Pair.NeverAccused | crates/src/protocol/session.rs:848-1618 | Two sessions with matching settings, joined by an ordered capsule channel and by byte and opening channels that may be delayed, cut or lost: in no run does either end with the flow-control error, whatever the applications do |
| Pair.NoDeadlock | crates/src/protocol/session.rs:1980-2216 | In every run, when both sessions are connected or draining and everything has arrived, a stream is out of credit only if at least half a receive window was lost on the way, so with a window of at least 1 and no losses never (short of the varint range) |
| Starvation.LossStarves | crates/src/protocol/session.rs:2178-2216 | The bound is exact: for every window of at least two bytes a run from the start in which a stream is written, completed and reset, its bytes, just the larger half of the window, are lost, the receiver takes the reset and everything else, no write is in flight, and another stream is out of credit |
| Pair.NoStreamDeadlock | crates/src/protocol/session.rs:2009-2276 | In every run, when both sessions are connected or draining and everything has arrived, a stream creation waits only if of the streams the peer allows at a time all, or more than half, are alive at the peer or their openings were lost on the way (short of the varint range) |
| Crowding.WaitsThough | crates/src/protocol/session.rs:2218-2276 | The bound is exact: for every allowance of at least two streams a run from the start without losses in which everything has arrived, just one stream more than the larger half of the allowance is alive at the peer, and a creation waits |
| Outflow.FlushServes | crates/src/protocol/session.rs:803-836 | After a pass over the waiting creations those left over have no stream left to use, and the peer has been told so at this limit |
| Pair.BlockedSlot | crates/src/protocol/session.rs:1419-1469 | A session told that its peer is out of streams has afterwards no larger limit left to announce, or is no longer in use |
| Pair.StuckMeansLost | crates/src/protocol/session.rs:1980-2007 | The bound on bytes for every state the invariant of the pair allows |
| Pair.WaitMeansUse | crates/src/protocol/session.rs:2218-2276 | The bound on streams for every state the invariant of the pair allows |
| Pair.PerformKeeps | crates/src/protocol/session.rs:175-2291 | Every action at one end keeps the invariant of the pair: limits announced, limits known, bytes and openings in flight, and what each end may still do |
| Outflow.ProcessShips | crates/src/protocol/session.rs:1104-1469 | A capsule whose limit rises never makes the receiving session end with the flow-control error, and its meters move only with what it sends |
| Outflow.PeerDataShips | crates/src/protocol/session.rs:1582-1618 | Bytes within the limit are counted and delivered, and the new limit, if any, is announced |
| SessionInvariant.HandleInv | crates/src/protocol/session.rs:175-2291 | Every event of a session keeps the invariant of its streams, its credit, its quotas, and its shutdown |
| SessionInvariant.NoLostWakeup | crates/src/protocol/session.rs:2055-2103 | In every run a stream with buffered data and nothing in flight is in the blocked queue; this happens only under flow control with every credit spent; bytes sent never exceed the limit |
| SessionInvariant.FlushQueueKeeps | crates/src/protocol/session.rs:2055-2103 | A pass over the blocked queue leaves it empty or leaves no credit |
| SessionInvariant.PeerStreamBound | crates/src/protocol/session.rs:2218-2276 | In every run peer streams opened minus closed are the live ones, and under flow control no more than the initial limit are live, however far the advertised limit has risen |
| SessionInvariant.ShutdownInv | crates/src/protocol/session.rs:1910-1945 | Leaving the open phases empties every stream table and queue |
| Ledger.HandleBalance | crates/src/protocol/session.rs:175-2176 | In every step each request given is held in one place, answered once, or lent to the transport |
| Ledger.RunBalance | crates/src/protocol/session.rs:175-2176 | The same over whole runs: held + answered + lent == held before + given |
| Ledger.ExactlyOnce | crates/src/protocol/session.rs:175-2176 | A request submitted once is, after any run, held once, out with the transport, or answered once, never two of these |
| Ledger.ClosedHoldsNothing | crates/src/protocol/session.rs:1910-1945 | A session that left its open phases holds no request: each was answered or is out with the transport |
| Grammar.GrammarMeaning | crates/src/protocol/session.rs:2105-2139 | The stage machine accepts exactly the event lists: none, or opened, then at most one reset and one stop in any order, then at most one closed |
| Grammar.EventGrammar | crates/src/protocol/session.rs:2105-2291 | In every run in which the transport does not reuse a stream id, the events shown for each stream are well formed, also for streams that die while the session is connecting |
| Release.ConfirmReleases | crates/src/protocol/session.rs:2141-2176 | A connecting session that is confirmed and stays open releases everything parked if and only if no parked capsule asks to drain; if one does, it drains with every stream still parked and the capsules behind DRAIN unread |
| Release.AcceptReleases | crates/src/protocol/session.rs:230-361 | The same when the user of a server accepts |
| Release.ReleasedIsShown | crates/src/protocol/session.rs:2158-2173 | Without DRAIN every parked stream that is still alive is shown as opened, before anything else is shown of it |
| Release.ParkedForever | crates/src/protocol/session.rs:2278-2291 | A draining session with a parked stream: no later run shows anything of that stream |
| Release.DrainStrands | crates/src/protocol/session.rs:2141-2149 | A concrete run from a new session that ends open and draining with a live stream that no continuation ever shows |
| StreamFacts.FlushInv | crates/src/protocol/stream.rs:118-161 | A flush keeps the stream invariant and leaves the stream blocked only when there was no credit |
| StreamFacts.WriteInv | crates/src/protocol/stream.rs:424-502 | A write keeps the invariant: exact buffer size within its maximum |
| StreamFacts.AbortKeeps | crates/src/protocol/stream.rs:76-82 | Aborting closes both halves from every state |
| StreamFacts.ClosedHoldsNothing | crates/src/protocol/stream.rs:173-188 | A closed stream holds no request, so dropping it loses none |
| WritePath.BytesInOrder | crates/src/transport/connection.rs:162-192 | In every run: bytes taken by QUIC, then the send buffer, then the write buffer, are the header and the accepted writes in order; the buffer size is exact and bounded |
| WritePath.FinLast | crates/src/protocol/stream.rs:118-161 | In every run the FIN goes to QUIC at most once, only when asked for, and then QUIC has taken every byte and no write is taken any more, also if the stream is reset later |
| WritePath.DoneMeansTaken | crates/src/protocol/stream.rs:84-107 | In every run a completion reports a write done only when QUIC has taken all of its bytes; it has then taken the stream up to the end of the write if and only if it has not given the stream up, and if it has, the write had no bytes |
| WritePath.DoneAlwaysTaken | crates/src/transport/connection.rs:472-571 | In every run in which the user does not write between the refusal of a stream and its reset, which the transport ensures by draining all QUIC events first, a write reported done has been taken to its end without exception |
| ReadPath.OneReceive | crates/src/protocol/stream.rs:190-242 | In every run, with resets by the peer and stops by the user or the session at any point, at most one receive is outstanding, exactly when a read waits, with the size of the first read; a stream cut off has no read waiting and no receive pending |
| ReadPath.BytesInOrder | crates/src/protocol/stream.rs:190-319 | In every such run, also on a stream cut off, the results in the order of the reads are a prefix of the bytes of the stream, each within its size, and an empty result means the stream has ended and was read to its end; on a stream not cut off nothing is missing |
| Frames.CapsulesSurviveChunking | crates/src/protocol/h3.rs:829-1190 | Capsules within the size limit, encoded, concatenated and cut into any pieces, come out of a CONNECT stream as they went in, in order, and leave both buffers empty |
| Frames.ChunkingIrrelevant | crates/src/protocol/h3.rs:895-1038 | Input that parses without error and has no complete frame head behind its first empty frame gives the same capsules and the same state however it is cut |
| Frames.ChunkingExact | crates/src/protocol/h3.rs:895-1038 | For error-free input that condition on the bytes holds if and only if every way of cutting gives the same; where it fails and the stream had nothing buffered, a cut into two non-empty pieces differs |
| Frames.LeftBehind | crates/src/protocol/h3.rs:1032-1034 | Where the condition fails the loop is left in front of a complete frame head |
| Frames.CapsulesSplit | crates/src/protocol/h3.rs:829-893 | Two capsule parses, the leftover of the first before the new bytes, do the work of one |
| Frames.FramesSplit | crates/src/protocol/h3.rs:895-1038 | The same for frames, under the condition of ChunkingIrrelevant |
| Frames.EmptyFrameStops | crates/src/protocol/h3.rs:1032-1034 | An instance of the failing inputs: any capsules behind an empty DATA frame stay unread in one piece and are read in two |
| ControlStream.SettingsRoundTrip | crates/src/protocol/h3.rs:1701-1777 | Reading inverts writing for distinct, non-reserved setting identifiers within the entry limit |
| ControlStream.ControlChunking | crates/src/protocol/h3.rs:1321-1383 | Error-free control-stream input gives the same events and the same state however it is cut |
| ControlStream.ControlSplit | crates/src/protocol/h3.rs:1321-1383 | One parse equals a parse of a first part followed by a parse of the leftover and the rest |
| ControlStream.LocalStreamsRead | crates/src/protocol/h3.rs:126-176 | The bytes written on the local control stream are read by the peer, in whatever pieces, as exactly one SETTINGS event equal to the settings encoded |
| ControlStream.ControlBytesFit | crates/src/protocol/h3.rs:1623-1680 | Settings within the entry limit make a frame within the frame limit |
| StreamHeader.HeaderExact | crates/src/protocol/h3.rs:1040-1078 | Fed as its own receive requests demand, the receiver takes exactly the header, in any varint form, opens the stream for the session named, and takes no payload byte |
| StreamHeader.EncodedHeaderExact | crates/src/protocol/h3.rs:339-367 | In particular for the header this code writes |
| Varint.RoundTrip | crates/src/protocol/utils.rs:278-292 | Section 16 of RFC 9000: every value up to 2^62-1 can be written, and reading it back, whatever follows, gives the value and takes exactly the bytes written |
| Varint.ReadPrefix | crates/src/protocol/utils.rs:219-242 | A complete reading does not depend on the bytes behind it |
| Varint.ReadOwn | crates/src/protocol/utils.rs:219-242 | A complete reading depends on its own bytes alone |
| ErrorCodes.ToHttpInverse | crates/src/protocol/utils.rs:267-276 | Every 32-bit code survives the mapping into the HTTP/3 range and back and avoids reserved codepoints |
| ErrorCodes.FromHttpInverse | crates/src/protocol/utils.rs:68-82 | The image of the mapping is exactly the non-reserved part of the range |
| ProtocolList.ListRoundTrip | crates/src/protocol/utils.rs:156-196 | Parsing inverts printing for every non-empty list of printable names, quotes and backslashes included; printing fails exactly on an unprintable byte |
| ProtocolList.ListConcat | crates/src/protocol/utils.rs:156-196 | Two values that parse alone, joined by a comma and a blank, parse to the concatenation |
| ProtocolList.CombinedParses | crates/src/protocol/utils.rs:20-31 | If every occurrence of a field parses alone, parameters included, the combined value parses to the concatenation of the lists |
| Waker.NoLostWakeup | crates/src/ffi/waker.rs:92-105 | Under every interleaving: with events queued and the loop waiting, a byte is in the pipe, or the reactor is between swap and write, or still has to wake; the pipe never holds more than one byte; what was delivered and what is queued are, in order, the events pushed in the run without exactly those that found the queue full |
| Waker.LostExactly | crates/src/runtime/reactor.rs:193-201 | In every run nothing pushed is lost if and only if at no point of the run the pushes are more than 65536 ahead of the pops |
| Waker.BurstLoses | crates/src/runtime/channel.rs:19-19 | A run that loses an event: a burst of 65537 pushes |
| Waker.QuietMeansDelivered | src/pywebtransport/_controller/controller.py:299-318 | When the reactor rests and the loop waits on an empty pipe, everything the queue took was delivered |
| StreamIndex.HandleConnKeeps | crates/src/protocol/connection.rs:128-1563 | Every step of a connection keeps every live stream of every session in the index, under that session, and session ids out of it |
| StreamIndex.IndexFaithful | crates/src/protocol/connection.rs:915-940 | Every operation on a stream, of the user, the transport or the peer, resets and stops included, has through the index the effects and the result of searching all sessions, also when entries are stale |
| StreamIndex.AlwaysFaithful | crates/src/protocol/connection.rs:1531-1563 | The same after every run |
| EarlyEvents.StoreKeeps | crates/src/protocol/connection.rs:1565-1594 | Buffering keeps the count equal to the contents and both limits |
| EarlyEvents.StoreBalance | crates/src/protocol/connection.rs:674-705 | A stream that arrives early is in the buffer once more, or was turned away |
| EarlyEvents.PruneKeeps | crates/src/protocol/connection.rs:815-869 | Pruning refuses each stream it drops exactly once, with a reset exactly if bidirectional, and keeps the books |
| EarlyEvents.TakeKeeps | crates/src/protocol/connection.rs:1652-1660 | Taking the events of a session out loses none |
| EarlyEvents.RefuseAllBalance | crates/src/protocol/connection.rs:1671-1695 | Refusing a list of events refuses each of its streams once |
| EarlyDelivery.ReplayRuns | crates/src/protocol/connection.rs:1652-1700 | A replay is a run of the session on the buffered events in order; no other session is touched |
| EarlyDelivery.StepBooks | crates/src/protocol/connection.rs:660-1700 | Every step keeps count and limits, and each buffered stream stays, is handed to its session, or is refused once; the session has run on what was handed to it, in order, no other session has changed by that, and the output ends with what the run puts out or with the refusals |
| EarlyDelivery.NothingLost | crates/src/protocol/connection.rs:660-1700 | Over every run: buffered + handed over + refused == buffered before + came early, for each stream, with the above at each step |
| EarlyDelivery.EarlyIsLate | crates/src/protocol/connection.rs:1170-1312 | For a server, streams and datagrams before the request of their session lead to the same state and the same output as behind it |
| EarlyDelivery.EarlyIsLateGranted | crates/src/protocol/connection.rs:1101-1136 | The same for a client and the response that grants the session |
| ConnInvariant.HandleConnOk | crates/src/protocol/connection.rs:128-1563 | Every step of a connection keeps the invariant of each of its sessions |
| ConnInvariant.SessionsAlwaysOk | crates/src/protocol/connection.rs:128-1563 | The same over every run |
| Termination.NewConnOk | crates/src/protocol/connection.rs:83-125 | A new connection meets what the theorems about runs of a connection start from |
| Termination.TerminateKills | crates/src/protocol/connection.rs:708-780 | Termination leaves no request for a session and closes every session |
| Termination.TerminateSettles | crates/src/protocol/connection.rs:745-780 | Termination answers each request as often as sessions held it, and each request waiting for a session or the connection once |
| Termination.DeadStays | crates/src/protocol/connection.rs:128-1563 | No event whatever brings a terminated connection back |
| Termination.DeadAnswers | crates/src/protocol/connection.rs:128-1563 | In a terminated connection a user event is answered in its own call: by one answer and nothing else |
| Termination.TerminationIsFinal | crates/src/protocol/connection.rs:708-780 | Both over runs: any allowed run, termination, any further events, one user event |
| Termination.DeadHoldsNothing | crates/src/protocol/session.rs:1471-1529 | The sessions of a terminated connection hold no request |
| SessionRequests.TakesUp | crates/src/protocol/connection.rs:370-480 | The call that brings a request for a session takes it up, with its books in order, or answers it at once |
| SessionRequests.StepWaits | crates/src/protocol/connection.rs:83-1700 | A request for a session that waits goes on waiting, unanswered, in every step but five: it is bound and optimistic, its creation fails, its response comes, GOAWAY comes while it is blocked, or the connection ends |
| SessionRequests.StepEnds | crates/src/protocol/connection.rs:83-1700 | Each of these five settles it exactly once and forgets it |
| SessionRequests.SettledOnlyBy | crates/src/protocol/connection.rs:83-1700 | In every run it is settled if and only if one of the five comes while it waits |
| SessionRequests.ResetUnanswered | crates/src/protocol/connection.rs:1402-1422 | The peer resets the stream of a request that is not optimistic before the response: nothing comes out, and in every continuation without one of the five the request stays unanswered and counts against the session limit |
| Engines.NewEngineOk | crates/src/protocol/engine.rs:42-90 | A new engine meets what the theorems about its calls start from |
| Engines.TurnShrinks | crates/src/protocol/engine.rs:166-173 | The event loop ends: each turn leaves less to do, or as much with fewer entries |
| Engines.EngineRuns | crates/src/protocol/engine.rs:166-613 | The engine does to its connection exactly the events it processed, in order |
| Engines.EngineEmits | crates/src/protocol/engine.rs:603-613 | Its output is the output of these events and of the failures, in order |
| Engines.InOrder | crates/src/protocol/engine.rs:433-506 | Requests run or failed, then those still waiting, are those that waited, then those that came: each once, in the order of submission |
| Engines.OnceInOrder | crates/src/protocol/engine.rs:605-641 | The same over any number of calls |
| Engines.ConnectedRunsAll | crates/src/protocol/engine.rs:307-313 | The call that completes the connection gives it every waiting request, in order, and leaves none |
| Engines.AnsweredAtOnce | crates/src/protocol/engine.rs:296-306 | After termination nothing waits in the engine, and a user event is answered in its own call, once and with nothing else |
| StreamClass.Stream.constructor | crates/src/protocol/stream.rs:48-74 | A new stream: open halves as its direction allows, empty buffers; new state and effects as in the value model |
| StreamClass.Stream.FlushWrites | crates/src/protocol/stream.rs:118-161 | Sends the front chunk, or the part of it the credit allows, unless a send is in flight; says how many bytes; new state and effects as in the value model |
| StreamClass.Stream.Write | crates/src/protocol/stream.rs:424-502 | Queues a write within the buffer limit and flushes, or refuses it; new state and effects as in the value model |
| StreamClass.Stream.CompleteWrite | crates/src/protocol/stream.rs:84-107 | Ends the send in flight, answers its write if that was its last part, and flushes; new state and effects as in the value model |
| StreamClass.Stream.Acknowledge | crates/src/protocol/stream.rs:163-167 | A sent FIN becomes acknowledged; new state and effects as in the value model |
| StreamClass.Stream.Read | crates/src/protocol/stream.rs:190-242 | Answers at once what needs no data, else queues the read and asks the transport if it is the first; new state and effects as in the value model |
| StreamClass.Stream.RecvData | crates/src/protocol/stream.rs:244-284 | Answers the first read, asks again for the next, and at the end answers all; new state and effects as in the value model |
| StreamClass.Stream.EndReads | crates/src/protocol/stream.rs:269-276 | The loop that answers every waiting read with the end; new state and effects as in the value model |
| StreamClass.Stream.FailReads | crates/src/protocol/stream.rs:309-317 | The loop that fails every waiting read; new state and effects as in the value model |
| StreamClass.Stream.RecvReset | crates/src/protocol/stream.rs:286-319 | Ends the receiving half once, shows it, and fails the reads; new state and effects as in the value model |
| StreamClass.Stream.FailWrites | crates/src/protocol/stream.rs:553-562 | The loop that fails every buffered write; new state and effects as in the value model |
| StreamClass.Stream.SendReset | crates/src/protocol/stream.rs:518-563 | Ends the sending half and fails its writes, the one in flight once; new state and effects as in the value model |
| StreamClass.Stream.SendStop | crates/src/protocol/stream.rs:565-596 | Ends the receiving half and fails its reads; new state and effects as in the value model |
| StreamClass.Stream.RecvStop | crates/src/protocol/stream.rs:321-344 | Shows the stop once and resets the sending half; new state and effects as in the value model |
| StreamClass.Stream.Reset | crates/src/protocol/stream.rs:346-383 | The user resets, and is answered; new state and effects as in the value model |
| StreamClass.Stream.Stop | crates/src/protocol/stream.rs:385-422 | The user stops, and is answered; new state and effects as in the value model |
| StreamClass.Stream.Abort | crates/src/protocol/stream.rs:76-82 | Both halves end; new state and effects as in the value model |
| SessionClass.Session.constructor | crates/src/protocol/session.rs:115-173 | A new connecting session with the limits announced by both sides; new state and effects as in the value model |
| SessionClass.Session.EmitDataBlocked | crates/src/protocol/session.rs:1980-2007 | Tells the peer once per limit that data is blocked; new state and effects as in the value model |
| SessionClass.Session.EmitStreamsBlocked | crates/src/protocol/session.rs:2009-2053 | Tells the peer once per limit that stream creation is blocked; new state and effects as in the value model |
| SessionClass.Session.ReplenishDataCredit | crates/src/protocol/session.rs:2178-2216 | Raises the data limit when more than half a window is used, or when forced; new state and effects as in the value model |
| SessionClass.Session.ReplenishStreamsCredit | crates/src/protocol/session.rs:2218-2276 | Raises a stream limit when half the allowance has closed, or when forced; new state and effects as in the value model |
| SessionClass.Session.WriteStream | crates/src/protocol/session.rs:1858-1904 | Writes with the credit at hand, meters it, queues a blocked stream; new state and effects as in the value model |
| SessionClass.Session.CompleteWrite | crates/src/protocol/session.rs:521-546 | Completes a send, meters what follows, queues a blocked stream; new state and effects as in the value model |
| SessionClass.Session.FlushBlockedWrites | crates/src/protocol/session.rs:2055-2103 | The loop over the blocked queue: each stream at most once, until credit runs out; new state and effects as in the value model |
| SessionClass.Session.ServeNext | crates/src/protocol/session.rs:2064-2096 | One turn of that loop; new state and effects as in the value model |
| SessionClass.Session.CreateStream | crates/src/protocol/session.rs:585-650 | Asks the transport, or queues the request at the limit; new state and effects as in the value model |
| SessionClass.Session.DeferStream | crates/src/protocol/session.rs:652-682 | Takes back a creation the transport could not do; new state and effects as in the value model |
| SessionClass.Session.ReissueWaiting | crates/src/protocol/session.rs:820-829 | The loop that reissues waiting creations in order while the limit allows; new state and effects as in the value model |
| SessionClass.Session.FlushBlockedStreamRequests | crates/src/protocol/session.rs:803-836 | That loop, and the blocked notice if it stops early; new state and effects as in the value model |
| SessionClass.Session.BindStream | crates/src/protocol/session.rs:363-430 | A created stream is stored, shown and answered, or ended if the session is gone; new state and effects as in the value model |
| SessionClass.Session.HandleClosed | crates/src/protocol/session.rs:2105-2139 | A closed stream leaves the table, is shown, and returns its credit; new state and effects as in the value model |
| SessionClass.Session.AcknowledgeWrite | crates/src/protocol/session.rs:838-846 | A FIN acknowledged may close the stream; new state and effects as in the value model |
| SessionClass.Session.ReadStream | crates/src/protocol/session.rs:1036-1062 | A read may close the stream; new state and effects as in the value model |
| SessionClass.Session.ResetStream | crates/src/protocol/session.rs:1756-1777 | A reset may close the stream; new state and effects as in the value model |
| SessionClass.Session.StopStream | crates/src/protocol/session.rs:1835-1856 | A stop may close the stream; new state and effects as in the value model |
| SessionClass.Session.RecvStreamReset | crates/src/protocol/session.rs:1620-1634 | The peer resets; hidden for streams not shown yet; new state and effects as in the value model |
| SessionClass.Session.RecvStopSending | crates/src/protocol/session.rs:1566-1580 | The peer stops; hidden for streams not shown yet; new state and effects as in the value model |
| SessionClass.Session.AbortInOrder | crates/src/protocol/session.rs:1913-1922 | The loop that aborts the streams in the order of their ids; new state and effects as in the value model |
| SessionClass.Session.FailQueue | crates/src/protocol/session.rs:1927-1934 | The loop that fails a queue of requests in order; new state and effects as in the value model |
| SessionClass.Session.AbortStreams | crates/src/protocol/session.rs:1910-1945 | All streams abort, all queues empty, waiting creations fail; new state and effects as in the value model |
| SessionClass.Session.Abort | crates/src/protocol/session.rs:175-228 | Ends with a code: everything is shut down, the CONNECT stream reset; new state and effects as in the value model |
| SessionClass.Session.Close | crates/src/protocol/session.rs:432-519 | Ends by the user: everything is shut down, the peer told; new state and effects as in the value model |
| SessionClass.Session.RecvConnectClose | crates/src/protocol/session.rs:1471-1529 | Ends by the peer closing the CONNECT stream; new state and effects as in the value model |
| SessionClass.Session.Reject | crates/src/protocol/session.rs:1636-1754 | Ends by refusal, for a server that has not answered yet; new state and effects as in the value model |
| SessionClass.Session.Drain | crates/src/protocol/session.rs:714-749 | Connected becomes draining, and the peer is told; new state and effects as in the value model |
| SessionClass.Session.HandleStreamOpened | crates/src/protocol/session.rs:848-995 | A peer stream is refused, ends the session, or is admitted; new state and effects as in the value model |
| SessionClass.Session.Admit | crates/src/protocol/session.rs:933-994 | A peer stream within the limits is refused, parked or shown; new state and effects as in the value model |
| SessionClass.Session.RecvStreamData | crates/src/protocol/session.rs:1582-1618 | Bytes beyond the limit end the session; others are delivered and credited; new state and effects as in the value model |
| SessionClass.Session.ReadDatagram | crates/src/protocol/session.rs:1005-1034 | Answered from the buffer, queued, or refused; new state and effects as in the value model |
| SessionClass.Session.RecvDatagram | crates/src/protocol/session.rs:1531-1564 | Answers a waiting read, is buffered, or dropped at the limit; new state and effects as in the value model |
| SessionClass.Session.SendDatagramOut | crates/src/protocol/session.rs:1779-1833 | Sent if it fits the frame size; new state and effects as in the value model |
| SessionClass.Session.RecvClose | crates/src/protocol/session.rs:1128-1215 | A well-formed CLOSE ends the session, a malformed one aborts it; new state and effects as in the value model |
| SessionClass.Session.RecvLimit | crates/src/protocol/session.rs:1261-1464 | A rising limit is taken and what waited for it is flushed; one that does not rise ends the session; new state and effects as in the value model |
| SessionClass.Session.Process | crates/src/protocol/session.rs:1104-1469 | One capsule in an open session; new state and effects as in the value model |
| SessionClass.Session.RecvCapsule | crates/src/protocol/session.rs:1064-1103 | Buffered while connecting, ignored or answered when closed, else processed; new state and effects as in the value model |
| SessionClass.Session.ReplayPendingQueues | crates/src/protocol/session.rs:2141-2176 | The loops that replay capsules, datagrams and parked streams; new state and effects as in the value model |
| SessionClass.Session.ReplayRest | crates/src/protocol/session.rs:2151-2176 | The last two of these loops; new state and effects as in the value model |
| SessionClass.Session.Confirm | crates/src/protocol/session.rs:548-583 | A connecting session becomes connected and replays; new state and effects as in the value model |
| SessionClass.Session.Accept | crates/src/protocol/session.rs:230-361 | The same by the user of a server, who is answered; new state and effects as in the value model |
| SessionClass.Session.Handle | crates/src/protocol/session.rs:115-2291 | Any event: what the state machine does to the value, the object does to itself; new state and effects as in the value model |
| H3Class.ConnectStream.ParseCapsules | crates/src/protocol/h3.rs:829-893 | The loop that takes complete capsules off the capsule buffer; buffers, capsules and error as in the value model |
| H3Class.ConnectStream.HandleFrame | crates/src/protocol/h3.rs:654-760 | DATA goes to the capsule buffer, other frames are checked; buffers, capsules and error as in the value model |
| H3Class.ConnectStream.OneTurn | crates/src/protocol/h3.rs:913-1035 | One turn of the frame loop; buffers, capsules and error as in the value model |
| H3Class.ConnectStream.TakePiece | crates/src/protocol/h3.rs:994-1035 | What has arrived of a frame is taken; buffers, capsules and error as in the value model |
| H3Class.ConnectStream.ParseStreamData | crates/src/protocol/h3.rs:895-1038 | The frame loop; buffers, capsules and error as in the value model |
| H3Class.ConnectStream.RecvRequestData | crates/src/protocol/h3.rs:1110-1190 | New bytes are appended and parsed, and unless that fails all that comes next is asked for; buffers, capsules and error as in the value model |
| H3Class.KnownEntries | crates/src/protocol/h3.rs:1623-1666 | The loop over the known settings in their fixed order |
| H3Class.EncodeSettings | crates/src/protocol/h3.rs:1623-1680 | The encoder loop computes the settings payload, or nothing when a value does not fit a varint |
| H3Class.ParseSettings | crates/src/protocol/h3.rs:1701-1777 | The parser loop computes the settings or the first error |
| H3Class.ParseControl | crates/src/protocol/h3.rs:1321-1383 | The control-stream loop computes the events, the leftover and the first error |
| ListCursor.Encode | crates/src/protocol/utils.rs:34-56 | The printing loop computes the list, or nothing at the first unprintable byte |
| ListCursor.EscapeName | crates/src/protocol/utils.rs:40-52 | The inner loop: quotes and backslashes escaped |
| ListCursor.Cursor.ParseString | crates/src/protocol/utils.rs:454-475 | A quoted string with its escapes; value, failure and final position as in the value model |
| ListCursor.Cursor.DiscardNumber | crates/src/protocol/utils.rs:294-322 | An integer or decimal; value, failure and final position as in the value model |
| ListCursor.Cursor.DiscardValue | crates/src/protocol/utils.rs:355-448 | A bare item of any type; value, failure and final position as in the value model |
| ListCursor.Cursor.DiscardDisplay | crates/src/protocol/utils.rs:410-446 | A display string, its octets valid UTF-8; value, failure and final position as in the value model |
| ListCursor.Cursor.DiscardBinary | crates/src/protocol/utils.rs:372-395 | A byte sequence, its base64 well formed; value, failure and final position as in the value model |
| ListCursor.Cursor.DiscardParameters | crates/src/protocol/utils.rs:324-452 | The loop over parameters; value, failure and final position as in the value model |
| ListCursor.Cursor.ParseItems | crates/src/protocol/utils.rs:167-193 | The loop over list members; value, failure and final position as in the value model |
| ListCursor.Cursor.ParseItem | crates/src/protocol/utils.rs:168-169 | One member with its parameters; value, failure and final position as in the value model |
| ListCursor.ParseList | crates/src/protocol/utils.rs:156-196 | The parser loop computes the list or the failure |
| TransportClass.SendBuffer.HandOver | crates/src/transport/connection.rs:166-183 | The write loop: whatever prefixes QUIC takes, it ends with everything taken, or with exactly the room taken and the rest kept, or with the bytes lost to a stream that is gone |
| TransportClass.SendBuffer.Flush | crates/src/transport/connection.rs:162-192 | The new buffer, the bytes in QUIC, the FIN and the report are those of the write path |
| TransportClass.SendBuffer.Send | crates/src/transport/connection.rs:419-442 | The same for the effect that sends data |
| TransportClass.Receiver.Poll | crates/src/transport/connection.rs:590-657 | The read loop: whatever chunks QUIC gives, the delivery, the end of the stream and what is left are those of the read path; a reset is reported instead |
| TransportClass.Assemble | crates/src/transport/connection.rs:640-650 | The chunks in order, as one piece |
| ConnectionClass.EarlyBuffer.constructor | crates/src/protocol/connection.rs:83-126 | An empty buffer; contents and count as in the value model |
| ConnectionClass.EarlyBuffer.Store | crates/src/protocol/connection.rs:1565-1594 | Buffers an event within both limits; contents and count as in the value model |
| ConnectionClass.EarlyBuffer.Take | crates/src/protocol/connection.rs:1652-1660 | Removes the events of a session; contents and count as in the value model |
| ConnectionClass.EarlyBuffer.PruneOne | crates/src/protocol/connection.rs:822-862 | Drops the old events of one session; contents and count as in the value model |
| ConnectionClass.EarlyBuffer.Prune | crates/src/protocol/connection.rs:815-869 | The loop over the sessions in order; contents and count as in the value model |
| ConnectionClass.Sift | crates/src/protocol/connection.rs:826-856 | The inner loop of pruning: the young events in order, and refusals for the old streams in order |
| ConnectionClass.RefuseEach | crates/src/protocol/connection.rs:1671-1695 | The refusals of a session that never came, in order |
| ConnectionClass.Connection.constructor | crates/src/protocol/connection.rs:83-126 | An idle connection without sessions; tables and output as in the value model |
| ConnectionClass.Connection.OpenOn | crates/src/protocol/connection.rs:215-240 | A stream that comes to life is indexed; tables and output as in the value model |
| ConnectionClass.Connection.DeliverTo | crates/src/protocol/connection.rs:128-136 | Borrows the session from the table, lets it handle the event, and stores it back; tables and output as in the value model |
| ConnectionClass.Connection.Route | crates/src/protocol/connection.rs:128-150 | To a session, or the answer for an unknown one; tables and output as in the value model |
| ConnectionClass.Connection.RouteStream | crates/src/protocol/connection.rs:1402-1421 | To a stream through the index, which forgets streams that are gone; tables and output as in the value model |
| ConnectionClass.Connection.DeliverToAll | crates/src/protocol/connection.rs:1330-1337 | The loop over all sessions in order; tables and output as in the value model |
| ConnectionClass.Connection.StreamOpened | crates/src/protocol/connection.rs:660-706 | To its session, or buffered, or refused; tables and output as in the value model |
| ConnectionClass.Connection.DatagramReceived | crates/src/protocol/connection.rs:962-977 | To its session, or buffered, or dropped; tables and output as in the value model |
| ConnectionClass.Connection.Replay | crates/src/protocol/connection.rs:1652-1700 | The loop that hands buffered events over, or refuses them; tables and output as in the value model |
| ConnectionClass.Connection.Turn | crates/src/protocol/connection.rs:1064-1100 | A session that is refused aborts, or its request fails; tables and output as in the value model |
| ConnectionClass.Connection.Confirm | crates/src/protocol/connection.rs:1101-1134 | A session that is granted is confirmed, or made and confirmed; tables and output as in the value model |
| ConnectionClass.Connection.ReceiveResponse | crates/src/protocol/connection.rs:1018-1169 | The response on a CONNECT stream, and the replay; tables and output as in the value model |
| ConnectionClass.Connection.ReceiveRequest | crates/src/protocol/connection.rs:1170-1312 | The request for a session at a server, and the replay; tables and output as in the value model |
| ConnectionClass.Connection.RaiseStreams | crates/src/protocol/connection.rs:1314-1340 | Waiting requests go out again in order, then every session may create; tables and output as in the value model |
| ConnectionClass.Connection.ReceiveGoaway | crates/src/protocol/connection.rs:979-1008 | Waiting requests fail, every session drains; tables and output as in the value model |
| ConnectionClass.Connection.CloseInPeace | crates/src/protocol/connection.rs:285-334 | GOAWAY once, every session drains; tables and output as in the value model |
| ConnectionClass.Connection.End | crates/src/protocol/connection.rs:708-780 | Sessions close in order, then waiting requests fail in order; tables and output as in the value model |
| ConnectionClass.Connection.Handle | crates/src/protocol/connection.rs:128-1563 | Any event: what the state machine does to the value, the object does to itself; tables and output as in the value model |
| EngineClass.Engine.PutBack | crates/src/protocol/engine.rs:605-609 | The loop from the back: waiting requests are in front of the work list, in order |
| EngineClass.Engine.FailAll | crates/src/protocol/engine.rs:615-641 | The loop from the front: waiting requests fail, in order |
| EngineClass.Engine.Step | crates/src/protocol/engine.rs:171-610 | One turn of the event loop; state, output and work list as in the value model |
| EngineClass.Engine.HandleEvent | crates/src/protocol/engine.rs:166-613 | The event loop ends, with state and output as in the value model |
| EngineClass.Front | crates/src/protocol/engine.rs:368-381 | The parsed events come in front of the work list, in order |

## Left out

- Header compression and header validation (`qpack.rs`, most of `h3.rs:480-536` and `1779-1929`): calls into a C library and single-pass checks; their verdicts are parameters (`acceptable`, `valid`, `Verdict`).
- The phase of a request stream before its headers, GOAWAY and push frames beyond their effect on the connection, and the `stream_ended` branches of the frame parser.
- Effects of the HTTP/3 layer of its own: opening its streams, stopping and cleaning up request streams after a session event.
- QUIC, TLS, sockets, timers and the tokio runtime.
- The Python front end except for the wake-up loop; conversions in `crates/src/ffi`.
- Diagnostics, log output, reason strings, timestamps and keying-material export. Failure effects carry the error code only.
- The cut of a close reason to its size limit at a character boundary: it arrives cut.
- Choice of the GOAWAY identifier, and the status code of a refused request (429 or 400).
- The number of sessions allowed at once is a parameter of the two operations that check it; that it is the configured maximum with flow control and 1 without is not modelled.
- Frames.ChunkingIrrelevant: for error-free input only, because an error discards what the same call had gathered.
- ControlStream.ControlChunking: for error-free input only, for the same reason.
- Ledger.ExactlyOnce: for requests held by sessions and streams; a request for an optimistic session is answered when its stream is bound and stays known until the response.
- ConnectionClass.Connection.Handle: the table holds sessions as values; a session is borrowed as an object for one event and stored back.
- Waker.NoLostWakeup: atomics and the pipe are steps of a state machine under sequential consistency.
