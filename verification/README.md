# Verified model of the pipe connection library

A Dafny 4.11 model of the parts of `pipe` that carry its guarantees: the replay
protocol of the SSE signaling server and client, duplicate suppression,
multiplexed streams on both sides, the byte stream over WebRTC data channels, and
the session and backlog machinery that connects them. `dafny verify
dfyconfig.toml` checks everything.

Critical sections and channel operations are atomic steps; a run is any sequence
of steps, so every theorem over a run covers every interleaving. A `select` with
several ready cases is a choice of the step. A timer is an event that may happen
while the timer is set. Objects that the source updates in place are classes
whose methods are proved to do what a function of the model does; the whole-run
theorems are about those functions. Beside what never happens, the model states what
each step achieves in every run, in its own terms, and that runs can go on to their
end: a client catches up, a Write arrives, a join attaches, everything queued is taken.

| file | what it models |
|---|---|
| `Common` | options, results, small sequence helpers |
| `PeerLog`, `Peer`, `Ends` | the server's record of one peer: representation invariant, memory bound, what each operation achieves, the object itself, and the life of an attachment |
| `Client` | the client: one event, one stream, and the reconnect loop with its cursor |
| `Replay`, `Delivery`, `Progress` | record, wire and client together: at-least-once delivery over whole runs, and that a client which comes back catches up |
| `Dedupe`, `ReplayDedupe`, `ReplayTight` | the duplicate filter, and the exact condition under which replay never shows a signal twice |
| `Wakeup`, `Deliveries`, `Mailbox` | no lost wakeup, and nothing left lying, for delivery loops and for the session's event queue |
| `MuxServer`, `MuxRequests` | members of a multiplexed stream on the server, with joins, leaves, take-overs and the close interleaved; and what each of them achieves |
| `MuxWorker`, `MuxJoins` | the goroutine behind a multiplexed stream on the client, and that it brings every open peer onto a stream |
| `Utf8`, `Frame` | the frame codec, and close reasons cut at character boundaries |
| `StreamRun`, `Writes`, `Answers`, `Transfer`, `SendSide`, `ReceiveSide` | the byte stream end to end, in bytes and in terms of the Writes; what a reader is told; that what is written can be read; one Write over a reused buffer; and Read with its pool of receive buffers |
| `Recovery`, `SessionLaws` | the session's event loop: connectivity, ICE restarts, timers, and what each event does in every phase |
| `Candidates` | ICE candidates that arrive before the remote description |
| `Backlog` | backlog slots shared by endpoint, session and listener |

## Results that differ from what the code or its guides suggest

- `guides/11-protocol.md:124` says an endpoint drops repeats of its last 4096
  signal IDs. The code guarantees half of that: an ID is certain to be recalled
  exactly when at most 2048 newer ones were recorded (`RecallWindow`,
  `GuideWindowIsTooLarge`).
- Over all resume cursors a client may send, replay never shows a session the same
  signal twice exactly when `2 * (ReplayDepth - 1) <= max / 2`. The queue size plays
  no part (`NeverTwiceExactly`), and `ReplayDepth + QueueSize <= max / 2` is not
  sufficient (`SumIsNotTheBound`). The defaults satisfy the exact condition. The
  client of this repository resumes at its own cursor; it reads nothing twice, with
  any cache (`OwnCursorReadsOnce`).
- A close frame is the sender's last word, in every continuation, exactly when the
  stream was sealed before it was sent: closed locally, or its own read loop over, as
  in the shutdown that answers the peer's close (`CloseIsLastWordExactly`,
  `LastWordWithoutLocalClose`). Otherwise a writer that gets the lock behind the close
  frame commits bytes that a reader who is told EOF never sees
  (`DataAfterCloseFrame`); for a reader who has kept up, EOF means completeness under
  exactly the same condition (`EOFIsCompleteExactly`).
- A take-over of a peer on an open multiplexed stream is reported as detached
  exactly when no request for that peer is in flight, or a join with only its last
  look to take. In the middle of a join or a leave it is lost
  (`TakeOverReportedExactly`), for instance after the first section of a rejoin
  (`RejoinHidesTakeOver`).
- A close reason of at most 256 bytes that is not valid UTF-8 is sent as it is,
  and the peer then rejects the close frame (`CloseRoundTrip`).
- Within a single outage the number of restart offers has no bound that depends
  on `MaxAttempts` alone, because an answer refills the budget; the bound of
  `RestartBudget` is reached (`BudgetIsTight`).

## Model

| member | source | states |
|---|---|---|
| PeerLog.NewConfig | signaling/sse/server.go:104-116 | queue size and replay depth of every running server are positive: a queue size that is not, and a zero depth, become 256, and a negative depth is refused |
| PeerLog.AttachKeepsInv | signaling/sse/server.go:488-509 | attaching never moves the cursor below the oldest entry held and never forward, and keeps the record consistent |
| PeerLog.TakeSpec | signaling/sse/server.go:528-556 | a take hands out exactly the entries numbered cursor+1 to the last, leaves nothing unsent, and trims only entries that were handed out, to the newest ReplayDepth |
| PeerLog.ScanFindsUnsent | signaling/sse/server.go:539-546 | the scan for the first entry above the cursor finds all unsent entries and nothing else |
| PeerLog.AnyRunKeepsInv | signaling/sse/server.go:439-584 | after any operations with any arguments the log is the contiguous suffix of 1..seq, the cursor lies between its floor and seq, and it holds at most ReplayDepth+QueueSize entries |
| PeerLog.EnqueueExactly | signaling/sse/server.go:466-486 | a signal is numbered next and queued if and only if the record lives and fewer than QueueSize entries wait to be taken; otherwise nothing changes |
| PeerLog.ResumesExactly | signaling/sse/server.go:488-512 | an attached stream is the current one, and its first take yields exactly the held entries after the requested number, or, if that is ahead of all that was handed out, those never handed out |
| PeerLog.TakeExactly | signaling/sse/server.go:528-556 | a take yields the entries above the cursor, in order, and leaves the newest ReplayDepth entries |
| PeerLog.DetachExactly | signaling/sse/server.go:514-526 | a handler that has been replaced changes nothing of the record when it detaches; the current one clears the stream and starts the grace timer, and nothing else |
| PeerLog.EndsExactly | signaling/sse/server.go:558-584 | the grace timer ends exactly a detached live record, a shutdown any |
| PeerRecord.Peer.Enqueue | signaling/sse/server.go:466-486 | the object refuses a signal exactly when it is down or QueueSize signals wait; otherwise it numbers it next, appends it, and pokes the attached stream; a refusal changes nothing |
| PeerRecord.Peer.Attach | signaling/sse/server.go:488-512 | the object ends the replaced stream with the replaced event, makes the new one current, stops the grace timer, rewinds to the later of the requested number and the floor and never forward, and pokes the new stream |
| PeerRecord.Peer.Detach | signaling/sse/server.go:514-526 | detaching a stream that is no longer current leaves stream and timer as they are; detaching the current one clears it and starts the grace timer unless the record is down |
| PeerRecord.Peer.TakeUnsent | signaling/sse/server.go:528-556 | the object's loop and reslicing return the unsent entries of the attached stream and nothing to a replaced one |
| PeerRecord.Peer.Expire | signaling/sse/server.go:558-569 | the grace timer discards and forgets the record exactly when it is detached and not down, and otherwise changes nothing |
| PeerRecord.Peer.Shutdown | signaling/sse/server.go:571-584 | shutdown discards the queue and ends the attached stream once, with the shutdown event |
| Ends.EndsOnce | signaling/sse/server.go:287-296 | over any run with an own attachment per stream, no attachment's end callback runs twice and an ended attachment is never the current one |
| Ends.NeverAbandoned | signaling/sse/server.go:494-512 | every attachment is the current one, or has been ended, or was detached by its own handler |
| Ends.EndedTakesNothing | signaling/sse/server.go:532-537 | an ended attachment obtains no entry in any continuation of the run |
| Replay.RunKeepsBase | signaling/sse/server.go:309-332 | for any resume cursors, every entry on the wire or read carries the data of its number, and what is in flight ascends |
| Delivery.AtLeastOnce | signaling/sse/client.go:365-480 | a client resuming at its own cursor reads strictly ascending genuine entries, and misses number k only if a take ran while k was unseen and ReplayDepth behind |
| Delivery.ExactlyOnceWithinDepth | signaling/sse/server.go:449-456 | a client never more than ReplayDepth behind at a take has read exactly 1..lastID, each with its own data |
| Delivery.NothingOutstanding | signaling/sse/server.go:309-332 | when its live stream has nothing left to take or read, the client's cursor is the last accepted signal |
| Delivery.LossIsFinal | signaling/sse/server.go:551-554 | an entry trimmed unread is never read later, whatever cursor is used |
| Progress.LateDetachHarmless | signaling/sse/server.go:297-297 | in every run, the deferred detach of a handler other than the live stream's changes nothing at all, so a reconnecting client stays attached |
| Progress.DetachStartsGrace | signaling/sse/server.go:514-526 | in every run, the detach of the current handler clears the stream and sets the grace timer, and keeps queue, numbering and cursor |
| Progress.CatchUp | signaling/sse/server.go:287-332 | from every reachable state with the record alive, a client that reconnects at its own cursor and reads on gets, in order, exactly the entries still held above it, and is then at the last accepted signal |
| Progress.SendExactly | signaling/sse/server.go:466-486 | in every run a posted signal is accepted and queued under the next number exactly while fewer than QueueSize entries wait |
| Progress.PushFailsExactly | signaling/sse/server.go:309-317 | a failed push ends the delivery loop: what was pushed can still be read, the rest of the batch is dropped |
| Progress.CutExactly | signaling/sse/client.go:329-359 | a lost connection loses what is on its way and nothing that has been read or is held |
| Progress.RecordEndsExactly | signaling/sse/server.go:558-584 | in every run the grace timer discards exactly a detached live record, and a shutdown any |
| Client.ReadingAccounted | signaling/sse/client.go:448-494 | reading events leaves the cursor at the last numbered signal that decodes, and queues every decodable signal once, in order |
| Client.ResumesWhereItStopped | signaling/sse/client.go:329-381 | each connection attempt resumes after the last numbered signal read in all attempts before it |
| Client.CursorIsReplayCursor | signaling/sse/client.go:468-474 | the client's cursor after reading entries is the cursor of the protocol model |
| Client.Conn.HandleEvent | signaling/sse/client.go:448-494 | a hello for another peer or one that does not decode, and the replaced event, end the client for good; the shutdown event makes it reconnect, a close of the client stops it, and everything else reads on; ready, cursor and inbox change exactly as the event says |
| Client.StreamEnds | signaling/sse/client.go:405-420 | the first event after which the client does not read on is the last one handled, and decides whether it gives up, stops or reconnects |
| Client.ReplacedIsFinal | signaling/sse/client.go:482-485 | a stream on which the replaced event is reached ends the client for good, whatever follows on it |
| Client.EndsExactly | signaling/sse/client.go:329-446 | an attempt ends the client for good if and only if it is refused with 401, 403, 404 or 405, has a wrong content type, or delivers a replaced event or a hello for another peer first; it stops it if and only if the client was closed; every other attempt is repeated |
| Client.KeepsTrying | signaling/sse/client.go:329-359 | while every attempt is one to be repeated the client makes all of them |
| Client.GivesUpExactly | signaling/sse/client.go:329-359 | after the first attempt that is not to be repeated, no further attempt ever makes it connect again, and it ends permanently or closed as that attempt says |
| Client.Conn.Read | signaling/sse/client.go:405-420 | the loop handles exactly the events up to the first that ends the stream |
| Client.Conn.Run | signaling/sse/client.go:329-359 | the reconnect loop stops for good at the first permanent failure, which it records, or at a close of the client, which it does not, and resumes every other attempt at its cursor |
| Dedupe.RefinesSeenSet | dedupe.go:23-48 | the cache holds the most recently accepted distinct IDs, at most max; a fresh ID is never reported, and what is filtered is what the cache recalls |
| Dedupe.Recalls | dedupe.go:41-48 | an ID is still recalled while at most max/2 newer ones have been recorded |
| Dedupe.AcceptedTwice | dedupe.go:31-33 | repeating one of the oldest of more than max distinct IDs gets it through a second time |
| Dedupe.RecallWindow | dedupe.go:23-48 | an ID with m newer ones is recalled in every history if and only if m <= max/2 |
| Dedupe.GuideWindowIsTooLarge | guides/11-protocol.md:124 | with the shipped size the documented window of 4096 is not met |
| Dedupe.DedupeCache.SeenBefore | dedupe.go:23-37 | the map and counter answer and change as the list of remembered IDs does |
| Dedupe.DedupeCache.EvictOldestHalf | dedupe.go:39-48 | the loop over the map keeps exactly the newest half, and its cutoff never underflows |
| ReplayDedupe.RedeliveryWindow | signaling/sse/server.go:491-509 | whatever cursors are used, an entry read again is less than ReplayDepth behind the newest read |
| ReplayDedupe.TakenIsRecent | signaling/sse/server.go:528-556 | every entry taken is among the newest ReplayDepth+QueueSize |
| ReplayDedupe.NamesFilterAlike | endpoint.go:297-300 | filtering by distinct signal IDs accepts exactly what filtering by sequence number accepts |
| ReplayDedupe.NoSignalTwice | endpoint.go:297-300 | with 2*(ReplayDepth-1) <= max/2 no signal passes the filter twice in any run |
| ReplayDedupe.OwnCursorReadsOnce | signaling/sse/client.go:365-381 | a client resuming at its own cursor reads no entry twice, and a filter of any size lets all of it through |
| ReplayTight.NeverTwiceExactly | endpoint.go:297-300 | no run shows a signal twice if and only if 2*(ReplayDepth-1) <= max/2 |
| ReplayTight.DefaultsNeverTwice | config.go:43-45 | the shipped defaults never show a signal twice |
| ReplayTight.SumIsNotTheBound | config.go:43-45 | a cache of twice ReplayDepth+QueueSize can let a signal through twice |
| Wakeup.RunKeepsCovered | signaling/sse/server.go:309-332 | unsent entries on the current attachment of a stream whose handler has not returned imply a token, a producer about to poke, a loop on its way to that peer, or a join of that peer still to attach or leave still to detach, even when the stream was replaced before the poke |
| Wakeup.SleepersAreIdle | signaling/sse/server.go:432-437 | a sleeping loop with no token and no poke under way has handed out everything of every peer attached to it that has no request in between |
| Deliveries.UnsentIsReached | signaling/sse/server.go:309-332 | from every reachable state in which a peer is attached and no request of it is in between, the loop behind its stream and the producers that have still to poke are enough for everything queued for it to be taken |
| Deliveries.JoinLists | signaling/sse/mux_server.go:219-228 | a join lists its attachment before it attaches |
| Deliveries.JoinAttaches | signaling/sse/server.go:488-512 | it then attaches, is listed, stops the grace timer, and is about to wake the loop |
| Deliveries.LeaveDetaches | signaling/sse/mux_server.go:248-258 | a leave unlists the peer and clears its stream, with the grace timer pending unless the record is down |
| Deliveries.SendPokes | signaling/sse/server.go:466-486 | a signal accepted for an attached peer waits to be taken, with a poke of that stream on its way |
| Deliveries.TickWakes | signaling/sse/server.go:319-324 | the keepalive ticker makes a waiting loop look again |
| Mailbox.QueueRuns | mailbox.go:26-73 | events come out once and in order, an open queue loses none, every overflow is reported, and pending events have a wakeup on its way |
| Mailbox.SleeperHasAll | session.go:181-192 | a session asleep with nothing about to wake it has received every accepted event |
| Mailbox.AcceptsExactly | mailbox.go:26-44 | in every run an open queue accepts an event exactly while fewer than 512 are pending, and otherwise records the refusal |
| Mailbox.AcceptedIsHanded | mailbox.go:26-65 | from every reachable state of an open queue, the signals under way are enough for everything accepted to be handed out |
| Mailbox.RefusalIsReported | session.go:183-187 | after any refusal, the next drain leaves the overflow reported |
| Mailbox.Mailbox.Post | mailbox.go:26-44 | an event is accepted exactly by an open queue with fewer than 512 pending, goes last, and wakes the consumer; a full one records the overflow and wakes it too |
| Mailbox.Mailbox.Drain | mailbox.go:56-65 | a drain takes every event and the overflow mark, once |
| Mailbox.Mailbox.Close | mailbox.go:67-73 | a close discards what is queued and refuses what follows |
| MuxServer.NoOrphan | signaling/sse/mux_server.go:194-246 | once the close has returned, a record points at the stream only while a request for its ID is in flight |
| MuxServer.OverlappingJoinUndone | signaling/sse/mux_server.go:236-245 | after the close, the sections an overlapping request has left, at most four, leave no record of that ID on the stream |
| MuxServer.OverlappingJoinReportsFalse | signaling/sse/mux_server.go:214-246 | a join in flight when the close begins reports false with its last section, and nothing before |
| MuxServer.IndexAgreement | signaling/sse/mux_server.go:214-281 | on an open stream with no request for the ID in flight, the index lists an attachment if and only if it is the record's stream; that joins do attach is `MuxRequests.JoinAttaches` and `MuxRequests.JoinSucceeds` |
| MuxServer.OneRecordHere | signaling/sse/mux_server.go:230-233 | two records of one ID are never both on the stream once its requests are done |
| MuxServer.DetachedExactly | signaling/sse/mux_server.go:260-281 | a report is added exactly by a take-over of a listed record, never by a rejoin, a displaced older record or a shutdown |
| MuxServer.ListedExactly | signaling/sse/mux_server.go:219-281 | on an open stream a record that is on it is listed if and only if no request for its ID is in flight or a join has only its last look to take |
| MuxServer.TakeOverReportedExactly | signaling/sse/mux_server.go:260-281 | a take-over moves the record away and is reported exactly when no request for its ID is between two sections in which index and stream differ |
| MuxServer.RejoinHidesTakeOver | signaling/sse/mux_server.go:219-234 | the first section of a rejoin hides the take-over that follows |
| MuxRequests.JoinLists | signaling/sse/mux_server.go:214-228 | the first section of a join on an open stream lists a new attachment, touches no record, and remembers an older record of the ID if one was listed |
| MuxRequests.JoinDisplaces | signaling/sse/mux_server.go:230-233 | the next takes that older record off the stream, and no other |
| MuxRequests.JoinAttaches | signaling/sse/mux_server.go:234-234 | the attaching section puts the record on the stream with the join's attachment, leaves every other record alone, and leaves it listed while the stream is open |
| MuxRequests.JoinLooks | signaling/sse/mux_server.go:236-245 | the last look changes no record: on an open stream the join is over, otherwise it is undone |
| MuxRequests.LetsGo | signaling/sse/mux_server.go:241-258 | an undone join and a leave end with their attachment off its record, and no other record touched |
| MuxRequests.JoinReportsTruly | signaling/sse/mux_server.go:214-246 | a join that has attached on an open stream reports true, with its record on the stream and listed, whatever else happens meanwhile, unless another stream or a shutdown takes that very record or the stream closes |
| MuxRequests.TrueIsListedIfAttached | signaling/sse/mux_server.go:214-281 | whatever happened to it, a join about to report true has its record listed if and only if it is attached |
| MuxRequests.JoinSucceeds | signaling/sse/mux_server.go:214-246 | a join left alone on an open stream ends with its record on the stream, listed, and the only one of its ID there |
| MuxRequests.LeaveSucceeds | signaling/sse/mux_server.go:248-258 | a leave left alone ends with no record of the ID on the stream and the ID unlisted |
| MuxRequests.Registers | signaling/sse/server.go:460-464 | a new record has no stream, and registering one touches no other |
| MuxRequests.TakenElsewhere | signaling/sse/server.go:488-512 | a take-over puts exactly that record on another stream |
| MuxRequests.LetGoElsewhere | signaling/sse/server.go:514-526 | a detach by another stream clears only a record that is not on this one |
| MuxRequests.ShutDown | signaling/sse/server.go:571-584 | a shutdown of a record clears its stream and touches no other record |
| MuxRequests.CloseLetsGo | signaling/sse/mux_server.go:209-211 | each section of the close takes one member off its record and touches no other |
| MuxRequests.CloseCompletes | signaling/sse/mux_server.go:194-212 | the close of an open stream returns after one section for the index and one per member |
| MuxServer.MuxStream.List | signaling/sse/mux_server.go:221-233 | the first section of a join lists the new attachment and names an older record to displace, unless the stream has closed |
| MuxServer.MuxStream.Unlist | signaling/sse/mux_server.go:248-254 | the first section of a leave unlists the peer and names what to detach |
| MuxServer.MuxStream.Ended | signaling/sse/mux_server.go:260-281 | the end callback unlists only its own attachment, reports only a take-over, and wakes the loop exactly when it unlisted something |
| MuxServer.MuxStream.StartClose | signaling/sse/mux_server.go:203-207 | the first section of the close marks it and takes every member |
| MuxServer.MuxStream.TakeReports | signaling/sse/mux_server.go:293-299 | the loop takes every report once |
| MuxWorker.OneWorkerNeverStranded | signaling/sse/mux.go:154-170 | the running flag is set exactly while one goroutine lives, and always while a client that is not closed has an open peer |
| MuxWorker.NoJoinForgotten | signaling/sse/mux.go:346-389 | a goroutine asleep while some peer is not on its stream has a kick, a kick on its way, or a retry timer |
| MuxWorker.ClosedStaysStopped | signaling/sse/mux.go:154-203 | in every continuation of a run after the close there are at most the goroutines there were |
| MuxJoins.OpenPeersJoin | signaling/sse/mux.go:254-389 | from every reachable state of an open client with an open peer, the goroutine can go on by itself, with no further open or removal, until every open peer is on one stream, if the server agrees |
| MuxJoins.DialingFails | signaling/sse/mux.go:307-323 | a refused credential costs its own peer only, a permanent failure every peer, and any other failure none |
| MuxJoins.JoiningFails | signaling/sse/mux.go:474-503 | a peer that may not join is forgotten; one that cannot join now is kept and the retry timer is due; a vanished stream costs no peer |
| MuxJoins.StopsExactly | signaling/sse/mux.go:242-265 | the goroutine ends exactly when no peer is open or the client was closed |
| MuxJoins.OpenExactly | signaling/sse/mux.go:154-170 | an open registers the peer, not yet joined, with a goroutine running and a kick on its way; a duplicate or an open of a closed client changes nothing |
| MuxJoins.RemoveExactly | signaling/sse/mux.go:224-238 | a removal forgets that opening of the peer and kicks; a later opening is left alone |
| MuxJoins.CloseExactly | signaling/sse/mux.go:180-199 | the close forgets every peer, and only after it is the context cancelled |
| MuxWorker.Mux.Open | signaling/sse/mux.go:154-169 | an open starts a goroutine exactly when none is running, and refuses a duplicate peer or a closed client |
| MuxWorker.Mux.Remove | signaling/sse/mux.go:224-238 | a removal forgets only the connection it was given, kicks, and names the attached stream if the connection was joined to it |
| MuxWorker.Mux.KeepRunning | signaling/sse/mux.go:242-250 | the goroutine goes on or counts as stopped in one section |
| MuxWorker.Mux.ListPending | signaling/sse/mux.go:465-472 | one section lists exactly the peers not yet on the stream |
| MuxWorker.Mux.CloseAll | signaling/sse/mux.go:188-199 | the close takes every connection and forgets them |
| Frame.Encode | internal/frame/frame.go:104-121 | encoding in place succeeds exactly within limit and room, writes the frame and nothing beyond it, and writes nothing on failure |
| Frame.AppendIsBytes | internal/frame/frame.go:123-135 | Append produces the same frame as Encode |
| Frame.ParseOfBytes | internal/frame/frame.go:142-185 | an encoded frame is accepted if and only if its type, size and shape are valid, and comes back whole |
| Frame.BytesOfParse | internal/frame/frame.go:142-185 | every accepted message is byte for byte the encoding of what was parsed |
| Frame.BytesLayout | internal/frame/frame.go:5-33 | byte by byte: version 1, type, two zero bytes, the length in four bytes most significant first, the payload |
| Frame.AcceptedExactly | internal/frame/frame.go:142-185 | a message is accepted if and only if it has at least eight bytes, version 1, a type from 1 to 4, zero flags, a length field equal to what follows and within the limit, eight bytes in a ping or pong and at least two in a close; type and payload are then those bytes |
| Frame.CloseReadExactly | internal/frame/frame.go:217-230 | a close payload is readable if and only if it has 2 to 258 bytes and its reason is valid UTF-8; its first two bytes are the code, most significant first |
| Frame.EncodeClose | internal/frame/frame.go:203-214 | the trimming loop ends at the longest valid prefix of at most 256 bytes of a long reason |
| Frame.CloseRoundTrip | internal/frame/frame.go:203-230 | the peer can read a close frame if and only if the reason was valid or too long, and gets the code and the longest valid prefix that fits, at most three bytes short of the limit for valid text |
| Frame.CloseFrameParses | internal/frame/stream.go:667-672 | a close frame passes the parser of any peer whose limit admits 258 bytes |
| Utf8.CutLosesLittle | internal/frame/frame.go:204-208 | cutting valid text at a length loses at most three bytes more |
| Utf8.ValidExactly | internal/frame/frame.go:204-228 | the byte patterns taken for valid UTF-8 are exactly the encodings of sequences of Unicode scalar values (section 3 of RFC 3629) |
| StreamRun.ByteStream | internal/frame/stream.go:259-367 | returned, started, queued, held and in-transit bytes together are exactly the committed ones, in order, in every interleaving |
| StreamRun.CompleteBeforeEOF | internal/frame/stream.go:730-741 | after the peer's close frame a drained reader gets EOF having read exactly what was committed before that frame, and everything if the sender was sealed by then |
| Answers.EndIsTold | internal/frame/stream.go:257-312 | after the peer's close frame a drained Read answers EOF, with exactly what was committed before that frame read |
| Answers.ErrorIsTold | internal/frame/stream.go:764-779 | once the read loop has ended with an error, every later Read answers data that had arrived, or that error, or after a local close the error of that, unless an end of file is forced |
| Answers.BreakIsTold | internal/frame/stream.go:745-779 | the drained reader of a stream whose channel broke is told that it broke, never that it ended |
| Answers.BreakIsRecorded | internal/frame/stream.go:745-770 | a failed channel read is recorded as our own close when terminating, as an end of file when it was one, and as a broken stream otherwise |
| Answers.EOFHasACause | internal/frame/stream.go:764-779 | a Read answers EOF only after a shutdown, an end of file of the channel, or the peer's close frame |
| Answers.ReceivesExactly | internal/frame/stream.go:684-743 | frame by frame: data is held, an empty frame skipped, a ping whose answer fails ends the loop with that error, a pong changes nothing, a readable close frame ends the stream, an unreadable one or a frame over the limit breaks it |
| Answers.MalformedBreaks | internal/frame/stream.go:691-699 | a message that is no frame or over the limit breaks the stream |
| Transfer.AdmittedExactly | internal/frame/stream.go:369-384 | a Write that has the lock is refused exactly if the stream is closed, terminal or past its own read loop |
| Transfer.WriteCommits | internal/frame/stream.go:326-367 | a Write that is let in, and whose frames are sent, commits its whole argument after everything committed before |
| Transfer.AllArrives | internal/frame/stream.go:257-312 | from every reachable state in which nothing has ended the stream, a reader who keeps asking gets every byte committed, in order |
| Transfer.WriteArrives | internal/frame/stream.go:257-367 | so a Write that is let in can be read in full, after everything committed before it |
| Transfer.ControlExactly | internal/frame/stream.go:443-470 | a ping or pong is sent whole if the lock is free and not at all while a Write holds it, and commits nothing |
| Transfer.CloseSentExactly | internal/frame/stream.go:656-674 | the one try at a close frame sends code and cut reason exactly if it is the first and the lock is free |
| Transfer.TerminalExactly | internal/frame/stream.go:600-606 | the stream is terminal only after the try at a close frame |
| StreamRun.CloseIsLastWordExactly | internal/frame/stream.go:369-384 | a close frame is the last thing the sender commits, in every continuation, if and only if the stream was closed locally or its own read loop was over before it |
| StreamRun.LastWordWithoutLocalClose | session.go:832-834 | a shutdown after the own read loop has ended is a last word without a local close |
| StreamRun.EOFIsCompleteExactly | internal/frame/stream.go:548-612 | for a reader who has kept up and a readable close frame, EOF means everything ever committed if and only if the sender was closed locally or its own read loop was over before it |
| StreamRun.DataAfterCloseFrame | internal/frame/stream.go:600-612 | every readable close frame that a stream neither closed locally nor past its own read loop sends to a reader who has kept up can be followed by a byte that is committed and never read before EOF |
| Writes.WritesDoNotInterleave | internal/frame/stream.go:320-367 | between two frames sent under one holding of the write lock lie only data frames of the same Write, and the frames in transit are the end of that log |
| Writes.StreamOfWrites | internal/frame/stream.go:259-367 | what is read and on its way is what the Writes sent, one whole Write after another in lock order, each a prefix of its argument and all of it if it finished |
| SendSide.PiecesCarry | internal/frame/stream.go:349-365 | the chunks of a Write make it up, are not empty, respect the frame limit and are as few as it allows |
| SendSide.FramesAccepted | internal/frame/stream.go:351-361 | a peer with the same limit accepts each message of a Write as the data it carries |
| SendSide.Sender.Write | internal/frame/stream.go:349-366 | what Write reports as written, and nothing else, went out as frames; it stops short only on a channel failure |
| ReceiveSide.Sizing | internal/frame/stream.go:158-173 | frame limit and read buffer default to 16384 and 1 MiB, the limit is capped at 262144, and the queue holds as many whole frames as fit the read buffer, and at least one |
| ReceiveSide.Receiver.GetBuf | internal/frame/stream.go:196-204 | the loop makes a buffer only when the free list is empty, and at most depth+2 in its life |
| ReceiveSide.Receiver.PutBuf | internal/frame/stream.go:206-216 | a buffer joins the free list unless it is too short or the list is full |
| ReceiveSide.Receiver.GiveBack | internal/frame/stream.go:305-310 | a drained buffer always finds room in the free list, so none is ever discarded |
| ReceiveSide.Receiver.Receive | internal/frame/stream.go:684-741 | a turn of the read loop reacts as the step relation says and touches no buffer that is queued or being read |
| ReceiveSide.Receiver.Deliver | internal/frame/stream.go:705-707 | a held message enters the queue together with its buffer |
| ReceiveSide.Receiver.ChannelError | internal/frame/stream.go:745-762 | a failed channel read ends the loop and is recorded as a close while terminating, as an end of file if it was one, as a failure otherwise, and never over an earlier error |
| ReceiveSide.Receiver.DropHeld | internal/frame/stream.go:708-710 | a held message is dropped only by a terminating stream |
| ReceiveSide.Receiver.Close | internal/frame/stream.go:591-598 | a local close sets the closed flag and records its error unless an earlier one is recorded |
| ReceiveSide.Receiver.ForceEOF | internal/frame/stream.go:578-583 | a forced shutdown records EOF over any earlier error |
| ReceiveSide.Receiver.Shutdown | internal/frame/stream.go:600-605 | a shutdown records EOF unless an error is recorded, and keeps received data |
| ReceiveSide.Receiver.Read | internal/frame/stream.go:257-312 | with the lock, Read returns the next bytes in order, prefers queued data to the terminal error and to a passed deadline, discards after a local close, and recycles each drained buffer; it fails with the close error after a local close, and otherwise only once the loop is over and all is drained, with the recorded error; it times out or waits only if neither is so. Before it has the lock, a close or a passed deadline may end the call |
| Recovery.AlwaysATimer | session.go:181-230 | at every loop boundary a recovering session has its recovery timer, a negotiating one its negotiation timer, a connected one a probe or its timer, and an outstanding restart means recovering |
| Recovery.RestartBudget | session.go:620-654 | restarts sent are at most MaxAttempts times one plus answered restarts plus restorations, and answers applied at most one more than restarts sent |
| Recovery.RunLawfulBudget | session.go:291-315 | with the WebRTC library's own ordering the first answer refills nothing |
| Recovery.RecoveryEnds | session.go:612-629 | when only timers fire, each deadline uses up an attempt and the session closes after the last |
| Recovery.BudgetIsTight | session.go:309-309 | the restart bound is reached within one outage by a peer that answers every last attempt |
| Recovery.GenerationsIncrease | session.go:394-416 | restart offers of the peer are answered in strictly increasing order of generation |
| SessionLaws.EveryEvent | session.go:181-232 | in every run, each event changes the session as its law says: what an answer, a restart offer, an open channel, restored, lost or failed connectivity, a close signal, each timer, a probe result and a quit do in every phase |
| SessionLaws.Lingers | session.go:370-389 | a close signal leaves a connected session connected with the linger timer set; the timer stays set whatever happens, and ends the session when it fires |
| SessionLaws.OffererConnects | session.go:293-315 | an offerer is connected once it has the answer and the channel |
| SessionLaws.AnswererConnects | session.go:487-526 | an answerer is connected once it has the channel |
| SessionLaws.ClosedIsOver | session.go:805-815 | a session that has ended has no timer set |
| SessionLaws.ClosedStays | session.go:181-232 | no event changes a session that has ended |
| Recovery.Session.OnAnswer | session.go:293-315 | an answer is applied exactly when it is the first or a restart is outstanding |
| Recovery.Session.OnConnectivityUp | session.go:555-581 | restored connectivity stops the recovery timer, refills the budget and resumes probing |
| Recovery.Session.AttemptRestart | session.go:620-654 | a restart is sent by an enabled offerer within budget and arms the timer; otherwise the session ends |
| Recovery.Session.OnKeepAlive | session.go:716-736 | a failed probe of a connected session starts recovery with a restart |
| Recovery.Session.OnRestartSignal | session.go:394-416 | a restart offer is applied only with a newer generation, which it records whether or not the library accepts it |
| Recovery.Session.OnChannelOpen | session.go:487-526 | the first open connects, stops the negotiation timer and starts probing; later ones change nothing |
| Recovery.Session.OnConnectivityLost | session.go:583-599 | only a connected session starts recovering, with its timer armed |
| Recovery.Session.OnConnectivityFailed | session.go:601-610 | a failed connection sends a restart at once when established, enabled, offering and within budget, and otherwise ends the session |
| Recovery.Session.OnRecoveryDeadline | session.go:612-618 | a recovery deadline is a restart attempt |
| Recovery.Session.OnNegotiationDeadline | session.go:194-204 | the negotiation deadline ends exactly a session that never connected |
| Recovery.Session.OnCloseSignal | session.go:370-389 | a close signal keeps a connected session as it is and sets the linger timer, and asks to end any other |
| Recovery.Session.StartProbe | session.go:691-714 | a probe starts only when connected with none outstanding |
| Recovery.Session.Teardown | session.go:805-815 | teardown leaves no timer set |
| Candidates.BufferingIsInvisible | session.go:324-357 | for every arrival order the library sees the early candidates in order, one end for any number of early ends, and then each arrival; more than 256 early candidates fail the session |
| Candidates.EachCandidateOnce | session.go:766-787 | every candidate is handed on exactly once in arrival order or still buffered |
| Candidates.NothingBeforeDescription | session.go:335-353 | nothing reaches the library before a description is applied |
| Candidates.Buffer.Flush | session.go:766-787 | the flush hands on the buffered candidates and then the remembered end, and empties both |
| Candidates.Buffer.OnCandidate | session.go:335-348 | a candidate is buffered before the description, handed on after it, and the 257th early one fails the session |
| Candidates.Buffer.OnComplete | session.go:350-357 | an early end is remembered, a later one handed on |
| Candidates.Buffer.OnDescription | session.go:306-315 | applying a description flushes the buffer |
| Backlog.SlotsConserved | endpoint.go:358-388 | tokens are exactly the sessions whose release has not been called, and accept queue <= tokens <= AcceptBacklog |
| Backlog.DefaultsUnreachable | listener.go:82-99 | the accept queue is never found full, the semaphore never empty, and no release function is called twice |
| Backlog.SlotsComeBack | session.go:851-855 | when every session has ended and every entry has been taken, all slots are back |
| Backlog.WhoHasTheSlot | session.go:542-552 | a slot is out exactly while a session, a queue entry or an accepting caller owns its release |
| Backlog.AdmittedExactly | endpoint.go:358-388 | an offer for a new session is admitted exactly while fewer than AcceptBacklog sessions have not given their slot back |
| Backlog.RegisteredExactly | endpoint.go:376-381 | a session that cannot be registered gives its slot back at once |
| Backlog.EstablishedExactly | session.go:528-553 | an established session goes on to the queue exactly if there is a listener that is not closed |
| Backlog.PushedExactly | listener.go:84-99 | it is queued last, unless the listener has closed and that case is taken; there is always room |
| Backlog.LetsGoExactly | session.go:542-552 | after queueing, the session no longer has the release function |
| Backlog.EndedExactly | session.go:851-855 | a session that ends returns its slot unless its queue entry has it by now |
| Backlog.TakenExactly | listener.go:43-53 | the oldest entry is taken first and its slot comes back |
| Backlog.ClosedExactly | listener.go:70-76 | closing the listener is remembered and leaves sessions, slots and queue as they are |
| Backlog.OfferReachesQueue | endpoint.go:336-389 | while the listener is open and a slot is free, a new session that gets through negotiation ends up last in the accept queue |
| Backlog.Listener.Push | listener.go:84-99 | a push succeeds unless the listener is seen closed, and appends the connection |
| Backlog.Listener.Accept | listener.go:48-53 | taking the oldest connection returns its slot |
| Backlog.Listener.AcceptConn | listener.go:43-66 | an accept returns the oldest connection, or on a closed listener or endpoint drains the queue and fails, and waits only for an empty queue that is open |
| Backlog.Listener.Drain | listener.go:110-123 | a drain empties the queue in order and returns every slot |

## Left out

- Pion, ICE, DTLS, SCTP and SDP: the library is a source of events and a data channel that is reliable, ordered and message-atomic. A channel write that fails is taken to have sent nothing.
- HTTP handlers, JSON, authentication and the external event-stream library: a wire that can be cut is what remains. A signal that does not decode is dropped by `Client` and does not occur in `Replay`, where the server encodes what it stores.
- Sequence numbers, restart generations and dedupe counters are unbounded: wrap-around after 2^32 or 2^64 steps is not modelled. That the subtractions of the source never go below zero is proved.
- The theorems about replay are per peer record; numbering starts again in a new record. The registry (`admit`, `forget`, the peer limit) is not modelled, and an attach may follow expire or shutdown, as in the source.
- Delivery.AtLeastOnce: one sequential client whose connection attempts do not overlap; a request of an abandoned attempt that reaches the server late is not modelled.
- The client cursor of a multiplexed stream (`Mux.read`): on its stop branch it advances before the signal is queued, so the delivery theorem is about the single-peer client.
- Client.Conn.Run: how long the client waits between attempts is not modelled.
- Wakeup.RunKeepsCovered: requests of one peer on one stream are serialized, as for `MuxServer`. Of a handler that has returned nothing is said; its detach starts the grace period.
- MuxServer.NoOrphan: requests for one peer ID on one stream are serialized, as the client serializes them. A leave can otherwise delete a member whose attach has not happened. A leave that is in flight when the close returns still has its detach to do.
- MuxWorker.NoJoinForgotten: that a kicked goroutine joins the peer depends on the server; its answers are choices of the step.
- StreamRun.CompleteBeforeEOF: says nothing after a forced shutdown, where the read loop may drop a held message.
- ReceiveSide.Receiver.GetBuf: the buffer that the close path borrows while waiting for acknowledgements, after the loop has ended, is not counted.
- ReceiveSide.Receiver.Read: a deadline is a flag of the call and the case a select takes is a choice; a call that would wait says so and is one step, so two readers take turns.
- Write deadlines, short writes, the error a failed write reports, ping nonces and reply matching, statistics and the drain of a closed channel.
- Recovery.Session.OnAnswer: session descriptions are opaque; whether the library accepts one is a flag of the event. Keepalive round trips, backoff lengths and jitter are not modelled.
- Progress.CatchUp: the progress theorems (also `Deliveries.UnsentIsReached`, `Mailbox.AcceptedIsHanded`, `MuxJoins.OpenPeersJoin`, `MuxRequests.JoinSucceeds`, `MuxRequests.CloseCompletes`, `Transfer.WriteArrives`) give the steps that lead to the end from every reachable state; that a scheduler takes them is not stated.
- Recovery.AlwaysATimer: timers are set or not; that a set timer fires is not stated.
- Backlog.Listener.Push: a session that saw the listener open can still enqueue after its close; such an entry keeps its slot until another accept drains it, which `WhoHasTheSlot` accounts for.
- The relay, its quotas and rate limiter, configuration validation, metrics, logging, the fake clock and the in-memory hub: they would add only easy members.
