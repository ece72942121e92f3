# AnyTLS session layer: models and proofs

This project models the AnyTLS session layer of anytls-rs in Dafny and proves what it promises: how
frames get onto the wire and off it, how one-stream sessions are opened, half-closed, pooled and
reused, how traffic is reported exactly once, and how settings, authentication headers and client
URIs survive their round trips. `dafny verify dfyconfig.toml` checks all of it.

Code that works in place is modelled in place: the transport writer, the fragmented reader, the idle
pool, the traffic audit, the panel reporter, the id counter and the server's header buffer are
classes or arrays whose methods are proved against specification functions. What runs concurrently
is a step relation: one lock section, one queue operation or one poll is one step, and a theorem
about runs holds for every interleaving. Randomness, time, network and application are choices of
the environment in those steps; digests are function parameters.

| part | files |
|---|---|
| bytes, text and settings maps | `Bytes`, `Text`, `StringMap`, `Wrappers` |
| frames, their decoding and fragmentation | `Frame`, `Reader` |
| padding schemes, records, the writer and its task | `Padding`, `SchemeText`, `Records`, `WasteScan`, `Transparency`, `Writer`, `PaddedWrite`, `WriterTask`, `WireOrder`, `SynOrder` |
| one stream's receiving side | `Inbound` |
| the session machine and its invariants | `Session`, `SessionInvariant`, `StreamInvariant`, `HalfClose`, `Release`, `StreamOrigin` |
| theorems over session runs, runs that show their limits, ids | `SessionTheorems`, `SessionExamples`, `StreamIds` |
| a session with its writer and application; two of them joined by pipes | `EndToEnd`, `Node`, `NodeInvariant`, `Link`, `Outgoing`, `Delivery` |
| what becomes of each SYN, of each frame and of a stream's end | `Admission`, `Handling`, `Finish`, `Reply`, `Shutdown` |
| the client's idle pool and who owns a session | `Pool`, `SessionView`, `PoolOwnership` |
| traffic counters, reports, exactly-once accounting | `TrafficAudit`, `Panel`, `PanelAccounting` |
| scheme negotiation | `Negotiation` |
| authentication header and client ids | `Uuid`, `Auth` |
| client URIs with an IPv6 zone | `Percent`, `ZoneUri`, `ZoneRoundTrip` |
| protocol detection | `Detection` |

Six promises turn out not to hold as stated; each has a concrete case and the condition under
which it does hold:

- A padding size whose Waste exceeds 65535 bytes breaks the framing (`OversizedPaddingBreaksFraming`); `TransparentIff` is the exact condition for any list of sizes, `SingleSizeBound` the limit 65550 for a size that stands alone, and the runs of `WireOrder` are transparent as long as each write is, which holds for all sizes up to 65535 (`FittingSizesStayAligned`).
- A finish check can be owed by nobody when the FIN mark is queued for a pump that has just left (`LostTriggerExists`); `KeptStreamIsOwed` excludes it while the application keeps its end, and `NoLostTrigger` shows that the retirement of the stream is owed in the remaining case.
- A server that is admitting a SYN can fill its slot after a shutdown emptied it (`ServerSlotRefilled`); `ClosedForGood` holds for client sessions, and `EmptyOnceLoopEnded` for both once the receive loop has ended.
- A closed session can leave a gap in a stream (`GapAfterClose`); `GapFreeUntilClosed` holds for every other.
- A client removed while a pending report lists it is under-reported when it is listed again (`RelistedIsUnderReported`); `RemovalWhilePending` is the exact condition, over any syncs in between.
- A client URI without a query reads part of a fragment with a question mark as one (`FragmentBreaksRoundTrip`); `UriRoundTripIff` is the exact condition.

Where the documentation and the code disagree the model follows the code: docs/protocol.md says that
a client reuses the idle session with the largest sequence number, `take_idle` takes the smallest.

## Model

| member | source | states |
|---|---|---|
| `Frames.CommandCodes` | src/core/frame.rs:9-42 | the eleven command numbers; numbering and the conversion back from a byte are inverse to each other, and no other byte is a command |
| `Frames.Encode` | src/core/frame.rs:77-88 | succeeds exactly for payloads that fit 16 bits and then gives the encoding of the frame |
| `Frames.WireLayout` | src/core/frame.rs:77-88 | the encoding byte by byte: command, stream id and length most significant byte first, payload |
| `Frames.ReadsWire` | src/core/frame.rs:99-120 | reading an encoded frame followed by any bytes gives that frame and leaves exactly those bytes |
| `Frames.WireIsUnique` | src/core/frame.rs:99-120 | a frame is read only from its own encoding: the input is the encoding plus the rest |
| `Frames.PartialWire` | src/core/frame.rs:99-120 | every proper non-empty prefix of a frame reads as an unexpected end, never as another frame |
| `Frames.DecodeAfterFrames` | src/core/frame.rs:99-120 | any sequence of encoded frames followed by any bytes decodes to those frames and then what the bytes decode to |
| `Frames.BoundaryIsFrames` | src/core/frame.rs:99-120 | input that ends between two frames is the encoding of what it decodes to |
| `Frames.DecodeOfPrefix` | src/core/frame.rs:99-120 | every byte prefix of a frame sequence decodes to a prefix of the frames and ends between two frames or inside one |
| `Readers.Source.Read` | src/core/frame.rs:99-120 | one read returns a non-empty piece of the input of any size, unless the input has ended |
| `Readers.Source.ReadExact` | src/core/frame.rs:99-120 | fills the buffer with exactly the next bytes, however they are fragmented, or fails when fewer are left |
| `Readers.Source.ReadFromOrEof` | src/core/frame.rs:99-120 | for every fragmentation the frame reader gives what reading the whole input at once gives: a frame, a clean end, a cut frame or an unknown command |
| `StringMaps.ReadMap` | src/core/string_map.rs:5-14 | a key is in the map if and only if some line has it before its first equals sign, and its value is the rest of the last such line |
| `StringMaps.LastLineWins` | src/core/string_map.rs:5-14 | the same of any list of lines |
| `StringMaps.RoundTrip` | src/core/string_map.rs:5-22 | for every iteration order, printing and reading back gives the same map if and only if no key has an equals sign or newline and no value a newline |
| `Paddings.NewFactory` | src/core/padding.rs:18-29 | a factory exists exactly when the scheme has a "stop" that is a 32-bit number, and holds that number, the parsed entries, the raw scheme and its digest |
| `Paddings.ParseRange` | src/core/padding.rs:43-60 | the drawn value is one that the piece allows, after the swap of reversed bounds and the cast to 32 bits; other pieces give none |
| `Paddings.GenerateRecordPayloadSizes` | src/core/padding.rs:35-41 | one size per valid piece of the packet's entry, in order, each allowed by its piece |
| `Paddings.BoundedSchemeSizes` | src/core/padding.rs:35-60 | a scheme whose bounds are at most 65535 draws only check marks and sizes from 1 to 65535 |
| `SchemeTexts.SchemeRoundTrip` | src/core/padding.rs:18-60 | a text that lists a stop and, packet by packet, check marks and bounds in any order is read back as exactly these, bounds in order, ranges from zero dropped; other packets have none |
| `Records.PayloadThenWaste` | src/runtime/session.rs:1251-1285 | cutting into records neither loses nor reorders payload, and all padding comes after its last byte |
| `Transparency.WasteRecordEnds` | src/runtime/session.rs:1264-1278 | a Waste record of n bytes ends between two frames for the peer if and only if n/65536 is divisible by seven, because the length field keeps 16 bits |
| `Transparency.WriteIsFrames` | src/runtime/session.rs:1235-1288 | one write of whole frames is on the transport those frames followed by Waste frames only |
| `Transparency.TransparentIff` | src/runtime/session.rs:1235-1288 | for any whole frames and any list of sizes, one write decodes to exactly those frames and then valid Waste frames, ending between two frames, if and only if its Waste records, of the lengths the sizes ask for, keep a peer in step |
| `WasteScans.ScanDecodes` | src/core/frame.rs:99-120 | a byte-by-byte automaton accepts exactly the inputs that decode to whole, valid Waste frames |
| `WasteScans.ScanRecord` | src/runtime/session.rs:1264-1278 | what a Waste record with its cut length field does to that automaton, by arithmetic on its length alone |
| `Transparency.SpillsCanCancel` | src/runtime/session.rs:1264-1278 | the sizes 70000 and 393216 spill out of step one by one and are in step together |
| `Records.CutsIsSplit` | src/runtime/session.rs:1251-1285 | sizes that did not turn negative in the cast to 32 bits never make a write fail |
| `Records.ImpossibleSizeFails` | src/runtime/session.rs:1251-1285 | a size that the cast to 32 bits made negative, reached with payload left, fails the write after exactly the payload that the sizes before it cover |
| `Transparency.FrameSizesAlign` | src/runtime/session.rs:1235-1288 | sizes that are check marks or fit a length field never spill, whatever the payload length |
| `Transparency.SingleSizeTransparency` | src/runtime/session.rs:1260-1279 | a write under one size is transparent if and only if its padding does not spill out of step |
| `Transparency.SingleSizeBound` | src/runtime/session.rs:1260-1279 | every write under one size is transparent if and only if the size is below 65550 |
| `Transparency.OversizedPaddingBreaksFraming` | src/runtime/session.rs:1264-1268 | the size 70000, which the scheme parser accepts, makes the peer end inside a frame after a lone SYN |
| `Records.RecordProfile` | src/runtime/session.rs:1251-1285 | the length of every record: the size while payload exceeds it or can be padded to it, size-7 to size when no Waste fits, size+7 without payload; a check mark stops only without payload; a remainder is one last record |
| `Writers.WriterState.AfterWrite` | src/runtime/session.rs:1235-1287 | padding is off before the 32-bit packet counter could overflow |
| `Writers.Writer.WriteConn` | src/runtime/session.rs:1235-1288 | for every scheme: reaches the specified state, or fails having written a prefix of the specified bytes; an unbuffered write that the scheme covers draws its sizes for its own packet number; a size that the cast to 32 bits made impossible always fails |
| `PaddedWrites.WhichWritesArePadded` | src/runtime/session.rs:1245-1285 | from the initial writer, after any buffered writes: write k is cut by the sizes drawn for it if and only if every write up to it has a number below the stop of its scheme; from the first that has not, every payload goes out as it is |
| `Writers.Writer.WriteRecords` | src/runtime/session.rs:1251-1285 | the loop writes exactly the records of the specification, or a prefix of them, for any sizes |
| `WriterTasks.Perform` | src/runtime/session.rs:288-311 | one request: the write and, when buffering ends, the flush; a failure leaves a prefix of those bytes |
| `WireOrder.WireCarriesRequests` | src/runtime/session.rs:281-331 | in every run whose padding stays in step, decoding the transport log and dropping Waste gives exactly the written requests in order, less those buffered before the first SYN |
| `WireOrder.BufferingEnds` | src/runtime/session.rs:297-311 | while the task runs, a server, and a client once a request that ends buffering is written, holds nothing back |
| `WireOrder.WireAloneCarries` | src/runtime/session.rs:281-331 | from then on the wire alone, Waste aside, is exactly the written requests |
| `WireOrder.WireIsCleanPrefix` | src/runtime/session.rs:288-331 | after any error, timeout or cancellation, every prefix of such a wire decodes to a prefix of the requests and then a clean end or one cut frame, never a misframed one |
| `WireOrder.FittingSizesStayAligned` | src/runtime/session.rs:1251-1285 | padding stays in step in every run whose sizes are check marks or at most 65535, whatever scheme is in force at each write |
| `Links.StoppedForGood` | src/runtime/session.rs:403-411 | once a writer has stopped its wire is final, whatever the two sessions and applications go on doing |
| `WireOrder.TakenIsMerge` | src/runtime/session.rs:281-293 | the written order is an order-preserving merge of the two queues, and data is taken only when every control request sent before was taken |
| `WireOrder.NothingBeforeSyn` | src/runtime/session.rs:638-652 | a byte on a client's transport means that a SYN was taken |
| `Links.SettingsLead` | src/client.rs:116-171 | over every run of two joined sessions, the first frame the server decodes from a client, padding aside, is its Settings |
| `Links.SynPrecedesPush` | src/runtime/session.rs:638-671 | over every such run, on a client's wire each payload comes after the SYN of its stream, although they use different queues |
| `SynOrder.SynBeforePush` | src/runtime/session.rs:281-293 | control priority: a payload sent after its SYN is taken after it |
| `Inbound.PushKeeps` | src/runtime/session.rs:878-905 | accepting a push keeps byte permits, message bound, order and the place of the FIN mark |
| `Inbound.QueueFinKeeps` | src/runtime/session.rs:1001-1042 | queueing the FIN mark keeps them |
| `Inbound.RecvKeeps` | src/runtime/session.rs:111-150 | the pump taking a message keeps them; taking the mark means that exactly what was accepted before it was delivered |
| `Inbound.DeliverKeeps` | src/runtime/session.rs:111-150 | handing over part of a payload keeps them |
| `Inbound.DropKeeps` | src/runtime/session.rs:150-174 | the end of the pump returns every permit |
| `StreamInvariants.InboundConservation` | src/runtime/session.rs:86-165 | for every stream of every run: permits and held bytes total 1 MiB, at most 65 messages wait, delivered ++ in flight ++ queued is what was accepted while the pump runs |
| `StreamInvariants.EofIsComplete` | src/runtime/session.rs:1001-1042 | an end of stream caused by the peer's FIN comes after every byte received before it |
| `StreamOrigins.GapFreeUntilClosed` | src/runtime/session.rs:878-905 | until the session is closed, what was accepted is a gap-free prefix of the handled pushes of that stream |
| `SessionExamples.GapAfterClose` | src/runtime/session.rs:886-894 | a run of a closed session in which a refused push leaves a gap |
| `SessionTheorems.NoLostTrigger` | src/runtime/session.rs:1001-1063 | a finished stream in the slot of a running session is owed a finish check, except when the FIN mark reached a pump that had left; the stream is then dropped and its retirement is owed |
| `SessionTheorems.KeptStreamIsOwed` | src/runtime/session.rs:1001-1063 | without exception while the application keeps its end of the stream |
| `SessionExamples.LostTriggerExists` | src/runtime/session.rs:1001-1063 | a run with all three flags set and no finish check owed |
| `SessionTheorems.GracefulRemovalIsFinished` | src/runtime/session.rs:1053-1063 | although check and removal are separate, what is removed as finished is finished |
| `SessionTheorems.OtherIdChangesNothing` | src/runtime/session.rs:845-1158 | whatever happens for another id, a task's step, a frame, a pump or a call, leaves the slot and the stream in it unchanged |
| `SessionTheorems.ClosedForGood` | src/runtime/session.rs:609-636 | for client sessions: once closed no stream enters the slot, and once a shutdown has emptied the slot it stays empty |
| `SessionTheorems.EmptyOnceLoopEnded` | src/runtime/session.rs:714-722 | for client and server sessions: once the receive loop has ended the slot is empty for good |
| `Shutdowns.ShutdownHasCause` | src/runtime/session.rs:714-722 | whatever step of whatever task, frame or event starts a shutdown, it is one of a list of causes, among them for a retiring client: no FIN sent, a session too old, or the stream still there when the timer fires |
| `Shutdowns.AskedShutdownCloses` | src/runtime/session.rs:714-722 | over every run: a shutdown that was asked for has closed the session, and then emptied its slot, before its task is done |
| `Shutdowns.HopelessRetirementCloses` | src/runtime/session.rs:1065-1095 | over every run: a client's retirement without a FIN sent, or in a session that is too old, has closed the session and emptied its slot when it is done |
| `SessionExamples.ServerSlotRefilled` | src/runtime/session.rs:1174-1190 | a server run that fills the slot after a shutdown emptied it |
| `SessionTheorems.RemovalsAndNotices` | src/runtime/session.rs:1125-1158 | each removal frees an occupied slot once and leads to one notice or one shutdown of an expired session, never two notices |
| `SessionTheorems.OpensOnlyWhenAllowed` | src/runtime/session.rs:1160-1190 | a stream enters only an empty slot of an unexpired session, on a server only for a SYN after Settings, on a client only while it is open |
| `SessionTheorems.AdmissionOverRuns` | src/runtime/session.rs:870-908 | no stream exists on a server before Settings |
| `Handlings.SetUpBySettings` | src/runtime/session.rs:967-999 | a server counts as set up exactly once it has handled a Settings frame |
| `Admissions.EverySynHasItsOutcome` | src/runtime/session.rs:1160-1213 | each SYN has one outcome, and it is true: accepted means a stream opened by that very frame; duplicate means none, and that its id was in the slot at that frame; rejected means none because the session had expired or another stream was in the slot at that frame, or one withdrawn; any other end stops the loop |
| `Handlings.DenialEndsClient` | src/runtime/session.rs:910-924 | a client that handled a SynAck with a text is closed or about to be closed by its loop |
| `Handlings.DenialRemovesStream` | src/runtime/session.rs:910-924 | a server back at its next frame holds a refused id only if a later SYN opened it |
| `Handlings.AlertEndsLoop` | src/runtime/session.rs:957-962 | after an alert the loop handles no further frame |
| `Handlings.OneResponsePerHeartbeat` | src/runtime/session.rs:925-932 | one response for each heartbeat request, except for the last one of a loop that is leaving |
| `Handlings.RemoteFinIsNoted` | src/runtime/session.rs:1001-1042 | the stream in the slot has its remote FIN if and only if a FIN for its id was handled since it was opened |
| `Handlings.PushQueuedIfRoom` | src/runtime/session.rs:878-905 | a push is queued whole if and only if the bytes held with it stay within 1 MiB, at most 64 messages wait and the pump is there |
| `Handlings.RefusedStreamIsEnded` | src/runtime/session.rs:884-902 | a stream that lost a push, other than one skipped after the session had closed, has a FIN in the control queue, or its loop is about to put it there or leaving |
| `Handlings.EarlySynIsAlerted` | src/runtime/session.rs:1160-1172 | a SYN before the Settings opens nothing and ends the loop, with an alert if there is room for it |
| `Finishes.EndSetsLocalFin` | src/runtime/session.rs:673-694 | once the application has half-closed, closed or dropped the stream in the slot of an open session, its local FIN is set or a task is there to set it |
| `Finishes.FinReachesPump` | src/runtime/session.rs:1001-1042 | a handled FIN has its mark in the queue of the running pump, or a task is there to queue it |
| `Finishes.CompleteStreamIsReleased` | src/runtime/session.rs:1001-1063 | a stream ended by both sides whose pump is done has some task at work for its release as long as it is in the slot of a running session |
| `Replies.NextKeepsNamed` | src/runtime/session.rs:870-932 | every step keeps: no stream has the id zero, and every reply is a frame a receive loop accepts |
| `Admissions.OneSynAckPerRejection` | src/runtime/session.rs:1180-1213 | the SynAck frames with a text are exactly the rejections, one for each and in order |
| `Admissions.DuplicateIsHeld` | src/runtime/session.rs:1174-1179 | a SYN found a duplicate has the id that is in the slot, and changes nothing |
| `SessionTheorems.OutcomesStay` | src/runtime/session.rs:845-908 | outcomes and handled frames are never revised |
| `StreamIds.Counter.Allocate` | src/runtime/session.rs:29-36 | the loop gives the next id of a sequence that wraps at 2^32 and skips zero |
| `StreamIds.AllocateMany` | src/runtime/session.rs:29-36 | successive allocations follow that sequence |
| `StreamIds.SameIdIff` | src/runtime/session.rs:29-36 | two allocations give the same id if and only if they are a multiple of 2^32-1 apart |
| `StreamIds.ClientIdsAreDistinct` | src/runtime/session.rs:609-636 | while fewer than 2^32-1 ids were allocated, no client session places an id in its slot twice |
| `EndToEnd.HandledPayloadIsSent` | src/runtime/session.rs:878-905 | what a receive loop handled for an id is a prefix of what the other end sent for it |
| `NodeInvariants.NextKeepsNodeInv` | src/runtime/session.rs:638-712 | every step of a session with its writer and application keeps: one SYN per stream, payload only for streams that exist, a SYN before the stream is handed over, nothing on a stream after the application's FIN, and on a client nothing before Settings |
| `Links.NeverBeforeOpened` | src/runtime/session.rs:609-671 | in both directions, no payload of a stream is handled before the stream is opened |
| `Links.AdmittedIsNew` | src/runtime/session.rs:1160-1190 | the SYN a server has in hand is for an id it never used |
| `Links.ReadIsPrefixOfWritten` | src/runtime/session.rs:654-671 | over every run of two sessions joined by byte pipes, in both directions: what the receiving application has read, also after an abort, is a prefix of what the sending side queued for that stream |
| `Links.EofAfterEverything` | src/runtime/session.rs:1001-1042 | when the end comes from a FIN, everything that preceded that FIN on the wire was read, and exactly that if nothing follows |
| `Links.EofMeansAllWritten` | src/runtime/session.rs:673-694 | unless the sending session sent an overload FIN, an end of stream means that all that was ever queued for the stream was read |
| `Links.FittingRunsDeliver` | src/runtime/session.rs:654-694 | the three statements above for every scheme whose sizes are check marks or at most 65535, with nothing assumed of the padding |
| `Links.OpenNeverSkips` | src/runtime/session.rs:886-894 | only a stream of a closed session can have skipped a push |
| `Links.FinsAreLast` | src/runtime/session.rs:673-694 | a sequential application sends nothing on a stream after its FIN |
| `Outgoings.NextKeepsOut` | src/runtime/session.rs:638-712 | every step of a session with its writer and application keeps what the next seven rows read off |
| `Deliveries.FinWasSent` | src/runtime/session.rs:673-698 | a task that ends the sending of a FIN well, for a half-close, close or drop, has that FIN in the data queue |
| `Deliveries.EndedSideSendsFin` | src/runtime/session.rs:673-712 | from the moment the application ends its side, until the session or writer ends, its FIN is in the data queue or a task is still to put it there |
| `Deliveries.SentIsWritten` | src/runtime/session.rs:654-671 | what was queued for a stream is what the application wrote to it, write by write |
| `Deliveries.ReadIsWhatWasWritten` | src/runtime/session.rs:654-694 | for every scheme whose sizes are check marks or at most 65535: what one application read is a prefix of what the other wrote, and all of it at an end of stream that no overload caused |
| `Deliveries.WireIsAccepted` | src/runtime/session.rs:870-876 | no frame a session sends, Waste aside, makes the receive loop of its peer end as invalid |
| `Deliveries.OpenWireHoldsNothingBack` | src/runtime/session.rs:297-311 | a server's wire, and a client's once a SYN is written, decodes to exactly the requests written so far |
| `Deliveries.StreamIsHandedOrUndone` | src/runtime/session.rs:638-652 | a stream in the slot was handed to the application, or is being handed over or taken back |
| `Pools.IdlePool.MinIndex` | src/client.rs:173-176 | an index of a smallest id, none for an empty pool |
| `Pools.IdlePool.TakeIdle` | src/client.rs:173-183 | returns a live session of smallest id, and exactly it and the dead sessions with smaller ids leave the pool, in spite of `swap_remove` |
| `Pools.IdlePool.Add` | src/client.rs:154-166 | appends the session if its id is not there and fewer than four are, and otherwise changes nothing; tells when it is in excess |
| `Pools.IdlePool.Cleanup` | src/client.rs:202-217 | keeps, in order, the sessions that are neither stale nor expired and drops the others |
| `Pools.CleanupPartitions` | src/client.rs:202-217 | nothing is lost or kept twice, and what is kept is what is neither stale nor expired |
| `Pools.SiftedInOrder` | src/client.rs:202-217 | what is kept and what is dropped stay in the order of the pool |
| `SessionViews.SessionRefinesView` | src/runtime/session.rs:1125-1158 | every step of a client session is a step of the view the pool has of it |
| `SessionViews.ReservationRefinesView` | src/runtime/session.rs:609-636 | a reservation in the session is the one its pool sees: it opens a stream exactly when the session is open and young and its slot free |
| `PoolOwnership.SingleOwnership` | src/client.rs:66-183 | in every interleaving a session is in at most one of: held, busy, about to notify, in transit, being added, in the pool |
| `PoolOwnership.PooledIsIdle` | src/client.rs:136-183 | a pooled session has an empty slot and no owner, pool ids are distinct, and there are at most four |
| `PoolOwnership.ReserveNeverBlocked` | src/client.rs:103-114 | reserving a held session never fails for an occupied slot, and succeeds unless it is closed or expired |
| `PoolOwnership.WorkerChecksNeverHit` | src/client.rs:136-168 | the worker never meets a busy slot or a duplicate |
| `PoolOwnership.NoSessionLost` | src/client.rs:66-217 | a session that is open and young, that no caller gave up and the client does not shut down, is in exactly one place |
| `PoolOwnership.LookLeadsToAdding` | src/client.rs:136-153 | a running client's worker that looks at an open, young session goes on to add it |
| `PoolOwnership.AddedOrShutDown` | src/client.rs:154-166 | with fewer than four in the pool the session is appended; with four it is shut down |
| `PoolOwnership.TakenIsHeld` | src/client.rs:173-183 | a session taken from the pool has the smallest id of those alive, and its caller is its only owner |
| `TrafficAudits.TrafficAudit.SyncClient` | src/panel_sync/traffic_audit.rs:27-29 | lists a client with its old counters or zero |
| `TrafficAudits.TrafficAudit.RemoveMissingClients` | src/panel_sync/traffic_audit.rs:31-37 | removes exactly the clients not seen and keeps the others |
| `TrafficAudits.TrafficAudit.AddUpstream` | src/panel_sync/traffic_audit.rs:43-47 | adds to a listed client's counter, saturating, and to no other |
| `TrafficAudits.TrafficAudit.AddDownstream` | src/panel_sync/traffic_audit.rs:49-53 | the same downstream |
| `TrafficAudits.CountedRaises` | src/panel_sync/traffic_audit.rs:43-53 | counting adds exactly the bytes to one client's counters, up to the largest 64-bit value, and touches nothing else |
| `Panels.PanelSyncClient.SyncOnce` | src/panel_sync/core.rs:131-151 | lists the users in order, removes the others and forgets their baselines |
| `Panels.SyncKeepsListed` | src/panel_sync/core.rs:131-151 | after a sync exactly the users seen are listed, with their counters kept, and enabled as their last entry says |
| `Panels.PanelSyncClient.Prepare` | src/panel_sync/core.rs:153-192 | a pending report is kept; with none, a report is made if and only if some listed client has a counter above its baseline, with exactly those clients, their differences, their counters and the next sequence number; exhaustion changes nothing |
| `Panels.DueIsReported` | src/panel_sync/core.rs:153-192 | the same of the specification, for every reporter and audit |
| `Panels.PanelSyncClient.Collect` | src/panel_sync/core.rs:155-178 | the loop over the counters gives the increases and the counters they were taken from |
| `Panels.PanelSyncClient.ReportTrafficOnce` | src/panel_sync/core.rs:153-212 | sends the pending report; only a success answer moves the baselines and clears it |
| `PanelAccounting.ExactlyOnce` | src/panel_sync/core.rs:153-212 | over every run of losses, repeats and retries, and for every client, the panel has credited what belongs to earlier listings plus exactly the last acknowledged or applied snapshot; baselines stay within counters unless the last removal met a pending report of the client |
| `PanelAccounting.RetriesAreIdentical` | src/panel_sync/core.rs:153-206 | requests with one sequence number are identical, and a later number means that the earlier report was applied |
| `PanelAccounting.ContinuouslyListed` | src/panel_sync/core.rs:153-212 | for a client that is never removed the credit is exactly that snapshot, with none pending exactly its baseline |
| `PanelAccounting.AllCredited` | src/panel_sync/core.rs:153-212 | with none pending and nothing left to report, a client that is never removed is credited exactly its counter |
| `PanelAccounting.RemovalWhilePending` | src/panel_sync/core.rs:131-212 | while a report is pending, whatever traffic, syncs, retries and arrivals come: its answer leaves the baseline of a client within the counter if and only if the report does not list the client or its snapshot is within the counter at that time; so it is for a client listed all the while, and never for one the report lists that is unlisted at the answer |
| `PanelAccounting.RelistedIsUnderReported` | src/panel_sync/core.rs:209-212 | a run of removal and relisting while pending that this condition finds, in which the client's new bytes are not reported |
| `Negotiations.SettingsSurvive` | src/runtime/session.rs:443-455 | for every iteration order the server reads the settings the client wrote |
| `Negotiations.PeerSessionLearned` | src/runtime/session.rs:971-975 | the server learns the client's session number |
| `Negotiations.UpdateIff` | src/runtime/session.rs:980-988 | the server sends its scheme if and only if the announced digest differs |
| `Negotiations.EveryMismatchIsAnswered` | src/runtime/session.rs:967-999 | over every run: a session whose settings were read was sent an update if and only if the digests differed and the scheme fits a frame, was ended if and only if it does not fit, and once the update is read the client holds the server's scheme |
| `Negotiations.OneExchangeConverges` | src/runtime/session.rs:950-956 | a client that reads an update holds the server's raw scheme and digest |
| `Negotiations.ConvergedForGood` | src/runtime/session.rs:967-999 | once converged, for good: no session announced later is sent an update |
| `Negotiations.OversizedNeverSent` | src/runtime/session.rs:984-988 | a scheme over 65535 bytes is never sent; a mismatching session ends and the client keeps its scheme |
| `Uuids.ParsePrint` | src/core/auth.rs:40-42 | parsing a printed id gives the id |
| `Uuids.ParsedIsPrinted` | src/core/auth.rs:67-70 | a hyphenated text that is parsed as an id is that id's text, up to the case of its digits |
| `Uuids.PrintedBytes` | src/core/auth.rs:40-42 | a printed id has hyphens at four places and each byte as two lower-case digits at its place |
| `Auths.PaddingLength` | src/core/auth.rs:29-35 | the larger of the first drawn size and the 36 bytes a client id needs |
| `Auths.AuthLayout` | src/core/auth.rs:22-47 | the header byte by byte: digest, length most significant byte first, the id if any, zeros |
| `Auths.WriteAuth` | src/core/auth.rs:22-47 | writes digest, length and padding with the id in front, or a prefix on failure; a length over 16 bits is refused before anything is written |
| `Auths.AuthRoundTrip` | src/core/auth.rs:22-65 | for every digest, padding length, optional id and following bytes, the reader recovers the id and stops exactly at the first following byte |
| `Auths.AuthAccepts` | src/core/auth.rs:55-65 | the reader accepts exactly the inputs that begin with the digest and have all of the padding they announce; any other digest is refused as such |
| `Auths.ReadAuthWithClientId` | src/core/auth.rs:55-65 | does so for every fragmentation; a wrong digest or short input is told apart |
| `Auths.ExtractsPrinted` | src/core/auth.rs:67-70 | padding that begins with a printed id gives that id |
| `Auths.ZerosHoldNoId` | src/core/auth.rs:67-70 | padding of zeros gives none |
| `Auths.Accumulate` | bin/server.rs:256-267 | fills the header in place; what was read plus what is unread is the input |
| `Auths.Authenticate` | bin/server.rs:256-301 | agrees with the other reader, and on a mismatch or early end the retained prefix plus the unread bytes are the whole input |
| `Percents.DecodeEncode` | src/cli/client.rs:206-225 | decoding undoes encoding for every set with the percent sign |
| `Percents.DecodePlain` | src/cli/client.rs:206-225 | text without a percent sign, and a percent sign without two digits after it, stand for themselves |
| `Percents.EncodedDelimiters` | src/cli/client.rs:206-225 | an encoded delimiter is gone, one not encoded stays |
| `Percents.EncodedByte` | src/cli/client.rs:206-225 | an encoded byte is a percent sign and its two upper-case digits |
| `ZoneUris.FormatUrl` | src/cli/client.rs:137-180 | builds the specified text part by part |
| `ZoneRoundTrips.ZoneIsPrintedEncoded` | src/cli/client.rs:137-180 | a host with a zone is printed in brackets with its percent sign as "%25", followed by any port but 443 |
| `ZoneUris.BuildClientArgs` | src/cli/client.rs:252-282 | the loop reads the pairs in order and stops at the first bad one |
| `ZoneRoundTrips.RecognisedIff` | src/cli/client.rs:284-294 | a printed zone URI is recognised as one if and only if its password has no slash |
| `ZoneRoundTrips.ZoneRoundTrip` | src/cli/client.rs:296-337 | host, port, password and fragment come back for every zone host and every password without a slash |
| `ZoneRoundTrips.AcceptedZoneForm` | src/cli/client.rs:296-337 | a URI the zone parser accepts has the form it should: the host in the first brackets after the last at sign, the number after them or 443 as the port |
| `ZoneRoundTrips.UriRoundTrip` | src/cli/client.rs:137-337 | with a query, print then parse gives all arguments back, up to an insecure flag that is off and an empty fragment |
| `ZoneRoundTrips.QueryComesBack` | src/cli/client.rs:330-333 | what is read as the query: the query, or without one the fragment's text between a question mark and a hash sign |
| `ZoneRoundTrips.UriRoundTripIff` | src/cli/client.rs:252-337 | without a query, all arguments come back if and only if every pair read from that text is one the loop passes over |
| `ZoneRoundTrips.NoQuestionRoundTrip` | src/cli/client.rs:137-337 | a fragment without a question mark always comes back with all arguments |
| `ZoneRoundTrips.FragmentBreaksRoundTrip` | src/cli/client.rs:330-336 | the fragment "?sni=x" comes back with a server name set |
| `Detections.DecisionIsStable` | src/client_app.rs:271-306 | more bytes never change a decision |
| `Detections.LongIsDecided` | src/client_app.rs:297-325 | nine bytes always decide |
| `Detections.FirstByteDecides` | src/client_app.rs:271-296 | the first byte tells the two SOCKS versions, and one that is no letter is nothing known |
| `Detections.RequestLineIsHttp` | src/client_app.rs:271-325 | a request line of any known method, in whatever case, is found to be HTTP, and none of its beginnings is taken for anything else |
| `Detections.DetectListenerProtocol` | src/client_app.rs:271-289 | however the bytes arrive, a decision is the one for the whole input |

## Left out

- WireOrder.WireCarriesRequests: has as a premise that the padding of each write is in step; that a later write could bring a peer back in step after one that is not is not followed up.
- Writers.Writer.WriteConn: a sum that overflows wraps, as in a build without overflow checks, and unsigned sizes have 64 bits.
- PanelAccounting.ExactlyOnce: says how much a report hides of a client whose baseline exceeds its counter, not that such a client is never met.
- SessionTheorems.NoLostTrigger: says when a check may be owed by nobody, not that it always is then.
- Auths.ExtractClientId: a candidate with bytes outside ASCII is read as no id; the source would still trim white space outside ASCII.
- Links.ReadIsPrefixOfWritten: holds for streams that skipped no push after their session closed, while fewer than 2^32 ids were allocated and padding stayed in step; each application makes one call at a time on a stream.
- Links.EofMeansAllWritten: excludes a stream for which the sending session queued an overload FIN, which uses the control queue and may overtake data.
- Session state is one value stepped by a relation, not an object: its lock, queues and atomics become the atomic steps. The pump, the receive loop and the other tasks are program counters in that value.
- Cancellation of an application call half-way (a dropped future inside close or half-close) and a session whose last reference is gone while tasks still run.
- Fair scheduling, clocks and timeouts: expiry, timeouts and heartbeats are steps that may happen at any time; no liveness is claimed.
- Rejection of a SYN on a reused session while the peer's slot still drains is a possible outcome, not a proved bound.
- UTF-8 replacement of invalid text: texts are valid UTF-8 bytes. The line and number parsing of settings is modelled on them.
- TLS, certificates, sockets, DNS, relaying, SNI probing, file watching and logging.
- SHA-256, MD5, UUID generation and random sizes: parameters or free choices.
- The URL library (ordinary URIs, query coding), command-line parsing, JSON and HTTP beyond success or failure.
- src/uot.rs, src/ffi.rs, src/relay.rs, src/runtime/stream_io.rs: thin adapters that would add only easy members.
- Sequence numbers of sessions and of panel runs before exhaustion: a session number is taken not to wrap.
