# Verified model of the UPS daemon's engines

A Dafny 4.11 model of the stateful engines of the daemon, with proofs of what they promise.
`dafny verify dfyconfig.toml` checks everything.

A region that the daemon runs under a mutex is one atomic step here. Clocks, device replies, child
processes and operator configuration are inputs; what a workflow does to the outside world is a ghost
trace. Code that updates objects in place is a class whose methods are proved against a function of the
old state, and the lemmas are about that function or about whole runs of it.

| files | what they model |
|---|---|
| `SseQueue`, `SseStream`, `SseReplies`, `SseDrain` | one subscriber: its queue, its reader, everything it is ever sent |
| `SseWire`, `SseClient`, `SseCuts` | the frame format, the client's parser, and what it makes of a whole stream, torn frames included |
| `SseBus`, `SseOrder`, `SseCache`, `SseBroadcaster` | the slot table, all interleavings on it, the cached frame, and the ring in place |
| `SseDelivery` | the two together: from the emitting threads to the events each client sees |
| `Bits`, `HidItems`, `HidLayout`, `HidMeaning`, `HidParser`, `HidExtract` | the HID descriptor parser and the bit extractor |
| `Transport`, `Lifetime`, `Connectivity` | error counting and reconnects, what is borrowed from a link and for how long, connect/disconnect events |
| `UpsControl` | commands and validated register writes to the UPS |
| `ShutdownTrigger`, `TriggerSources`, `ShutdownResult`, `ShutdownGroups`, `ShutdownPlan`, `ShutdownTruth`, `ShutdownAsync`, `ShutdownFiring`, `ShutdownReport` | the shutdown orchestrator |
| `Edges`, `Words`, `Alerts`, `AlertRuns`, `AlertHysteresis` | the alert engine |
| `FastLoop`, `XferRing` | the fast poll loop and its transfer-reason ring |
| `SmtString` | the SMT string decoder |
| `Options` | a shared option type |

Conventions. Bytes of a stream are `char`s. A bit-mask register is the set of its bit numbers, so `&`,
`|` and `^` are set operations. Doubles are reals. Shifts and masks on report data are halving functions
on natural numbers, proved equal to division and remainder by powers of two (`Bits.ShiftLowIsDivMod`);
integer widths that matter (16-bit offsets, 32-bit values, 16-bit register writes) are written out.

## Where a promise does not hold

Each of these was kept as the code has it; the lemmas give the exact condition, or a concrete run.

- A frame dropped while half read can spoil the next one at the client. After k bytes of it and a whole
  next frame the client sees one event, and it is the right one exactly when the cut is between frames or
  after the first line, or inside a field name while the types happen to agree
  (`SseClient.TornFrameIsHarmlessExactly`). Several frames torn in a row can also mend each other; the
  condition on all their cuts is in `SseCuts.TornFramesAreHarmlessExactly`, for whole runs in
  `SseCuts.ClientSeesReadFramesByCuts`, for the whole broadcaster in `SseDelivery.ClientSeesItsReceipts`.
- The broadcast and the cache swap of a caching emission are two locked regions. Two threads can leave the
  older state cached (`SseCache.TwoEmittersGoStale`), exactly when another emission was in flight while the
  newest was swapped in (`SseCache.CacheIsNewestExactlyWhenAlone`). The daemon itself never does this: its
  one caching call (src/api/routes/routes.c:246) is a poll callback of the single monitor thread
  (src/daemon/main.c:316), see `SseCache.SoleEmitterIsOneAtATime`.
- The driver contract (src/ups/ups_driver.h:34-36) has every driver callback under the command mutex and so
  on a live handle. A topology query (src/api/routes/routes.c:75) loads the handle without it. The query is
  right exactly when the link was up at the load and no outage began before the call
  (`Lifetime.SoundExactlyWhenCareful`, `Lifetime.QueryAcrossOutage`, `Lifetime.QueryDuringOutage`).
- Nothing should use a UPS after ups_close, but the daemon calls it before shutdown_free
  (src/daemon/main.c:366-367), so a workflow still at work can (`Lifetime.CommandAfterClose`).
- A register descriptor found before a reconnect points into a table the reconnect frees; the access is right
  exactly when none has succeeded since and it does not reconnect itself (`Lifetime.WriteThatReconnects`).
- The aligned 8- and 16-bit extraction paths do not extend the sign: a packed value reads back exactly
  when it is not negative on such a field (`HidExtract.PackedReportReadsBack`, with a descriptor for which
  -1 is read as 255 in `HidExtract.SignedByteReadsUnsigned`).
- The ninth nested collection is not recorded, and closing it closes the eighth
  (`HidLayout.BalancedExactlyBelowCap`, `HidLayout.NinthCollectionIsLost`).
- A target whose fork failed is reported as passed (`ShutdownGroups.PassedIsTrueExactlyWhenForked`).
- The phase 1 event counts skipped targets as successes: its number is right exactly in a dry run, or when no
  sequential group has a target considered at or after its ceiling (`ShutdownPlan.SummaryCountsSkippedAsOk`).
- A dry run passes where the real run never reaches the UPS driver: when the transport is down, the command
  has no function, the driver cannot write, or the configured register is missing, read-only or does not take
  the configured value (`ShutdownPlan.DryRunPredictsUpsAction`). "Asking the UPS" means calling the driver's
  function; requests turned down before that leave no effect in the trace.
- A trigger whose start finds a dry run is used up without a real shutdown
  (`ShutdownFiring.RealRunsExactlyWhenNotSwallowed`, with a run in `ShutdownFiring.DryRunSwallowsTrigger`).
- Overlapping start calls can leave a worker that nobody joins (`ShutdownAsync.OverlappingStartsLeak`);
  exactly when a handle is published over a valid one (`ShutdownAsync.LeakExactlyWhenOverwritten`).
- The fast loop's fault events are not the edges of "any fault" when both readings are faulty in
  different bits (`FastLoop.FaultEventsAreEdges`, `FastLoop.FaultDetectedTwice`).
- The comment on the SMT string decoder says it strips leading NULs; it also loses the NUL after a first
  character that shares its register with one (`SmtString.DecodeStripsExactly`).

## Model

| member | source | states |
|---|---|---|
| `SseBroadcaster.Subscriber.DropOldest` | src/api/sse.c:76-85 | dropping the oldest ring entry is removing the head of the abstract queue |
| `SseBroadcaster.Subscriber.EnqueueLocked` | src/api/sse.c:89-108 | nothing when closed; else the frame is appended, the oldest going first when 256 are queued |
| `SseBroadcaster.Subscriber.ReadLocked` | src/api/sse.c:343-386 | one locked look: head bytes, end of stream, or the start of a timed wait, with the queue advanced accordingly |
| `SseStream.StreamExplained` | src/api/sse.c:76-108 | over every run the bytes sent are the accepted frames in order, each whole, or cut where it was dropped, or (the head only) begun; one frame lost per overflow; heartbeats only between frames |
| `SseStream.NoOverflowNoLoss` | src/api/sse.c:331-387 | without overflow, what was read followed by what is queued is every accepted byte in order |
| `SseReplies.HeartbeatsAreExpiredWaits` | src/api/sse.c:359-367 | over every run the bytes sent are the data bytes and 12 more for each wait that ran out with room for a heartbeat |
| `SseReplies.AnswersExactly` | src/api/sse.c:331-387 | at every moment of every run: a look returns data exactly when some accepted frame is neither read nor dropped, else the end of the stream exactly after a shutdown, else it waits; a wait that runs out returns a heartbeat, or nothing yet when there is no room |
| `SseReplies.DataFillsBuffer` | src/api/sse.c:370-386 | a read returns as many bytes as fit, or reaches the end of a frame |
| `SseDrain.DrainText` | src/api/sse.c:343-387 | after shutdown the reads return exactly a prefix of what was queued |
| `SseDrain.DrainBounded` | src/api/sse.c:343-387 | ... and at most the one heartbeat in flight, with no more live replies than bytes left plus that heartbeat |
| `SseDrain.CallIsAnswered` | src/api/sse.c:343-348 | after closing, a read begun while none is waiting is answered at once |
| `SseDrain.CallsAreAnswered` | src/api/sse.c:343-387 | over every closed run there are at least as many replies as such reads |
| `SseDrain.DrainTerminates` | src/api/sse.c:154-168 | after closing, as many reads as there are bytes left, and two more, reach the end of the stream, and it stays reached |
| `SseDrain.EofIsFinal` | src/api/sse.c:343-386 | after an end-of-stream reply the queue is empty, the reader idle and the subscriber closed, for good |
| `SseWire.FrameRoundTrip` | src/api/sse.c:55-72 | parsing a formatted frame by sections 9.2.5 and 9.2.6 of the WHATWG HTML Living Standard dispatches exactly its message |
| `SseWire.BeatIsSilent` | src/api/sse.c:14 | a heartbeat between frames changes nothing at the client |
| `SseWire.FeedFrame` | src/api/sse.c:55-72 | whatever line has been begun, a whole frame completes it, dispatches one event and leaves nothing over |
| `SseClient.PrefixIsSilent` | src/api/sse.c:55-72 | a frame cut short of its last byte dispatches nothing, whatever was begun before |
| `SseClient.RightExactlyWhenUnharmed` | src/api/sse.c:55-72 | the event of the next frame is the right one exactly when no data is buffered and the begun line is empty, or names neither field while the type in force agrees |
| `SseClient.HarmlessExactly` | src/api/sse.c:96-101 | the cuts of a frame that leave a given next frame unharmed, listed by position |
| `SseClient.HarmlessBeforeAll` | src/api/sse.c:96-101 | a cut is harmless before every next message exactly between frames or after the first line |
| `SseClient.TornFrameIsHarmlessExactly` | src/api/sse.c:96-101 | for every two messages and every cut, a real run that loses the half-read first shows one event, which is the second message exactly for those cuts |
| `SseClient.TornFrameMerges` | src/api/sse.c:96-101 | a frame dropped one byte before its end and the next one reach the client as a single event nobody sent |
| `SseClient.ClientSeesReadFramesExactly` | src/api/sse.c:331-387 | at every moment of every run the client has seen exactly one event per frame read to the end, and the right ones in order exactly when each of those frames was left unharmed |
| `SseClient.ClientSeesReadFrames` | src/api/sse.c:331-387 | so it has when overflows drop only heads of which nothing, or exactly the first line, was read |
| `SseCuts.TornFramesAreHarmlessExactly` | src/api/sse.c:96-101 | for any list of torn frames and their cuts, the whole frame after them gives one event, the right one exactly when what the cuts leave over, computed from cuts and messages alone, is harmless to it |
| `SseCuts.SecondTearMends` | src/api/sse.c:96-101 | a frame cut inside its first field name and another cut after its first line: harmless before every message, though the first alone is only before untyped ones |
| `SseCuts.ClientSeesReadFramesByCuts` | src/api/sse.c:331-387 | ClientSeesReadFramesExactly with its condition on the cuts of the frames torn since the last whole one |
| `SseBroadcaster.Broadcaster.BroadcastFrame` | src/api/sse.c:172-185 | every occupied slot, and no other, is handed the frame |
| `SseBroadcaster.Broadcaster.SwapCache` | src/api/sse.c:209-216 | the second locked region of a caching emission replaces the cached frame and nothing else |
| `SseBroadcaster.Broadcaster.Shutdown` | src/api/sse.c:154-168 | the broadcaster stops admitting and every subscriber is closed with its queue kept |
| `SseBroadcaster.Broadcaster.FreeSlot` | src/api/sse.c:281-287 | finds the first free slot whenever the count says there is one |
| `SseBroadcaster.Broadcaster.Subscribe` | src/api/sse.c:244-304 | refused when full or shutting down, else seated in the first free slot and primed with the cached frame |
| `SseBroadcaster.Broadcaster.Close` | src/api/sse.c:306-327 | frees the slot, lowers the count, closes and empties the queue |
| `SseOrder.RunInv` | src/api/sse.c:172-327 | over every interleaving each subscriber has its priming frame and then exactly the broadcasts since it joined, its queue is the newest part of that, and n_subs counts the occupied slots |
| `SseOrder.SameOrder` | src/api/sse.c:172-185 | two subscribers attached together have been handed the same emissions in the same order |
| `SseOrder.NoDuplicates` | src/api/sse.c:200-217 | no emission reaches a subscriber twice, the priming frame included |
| `SseCache.CacheIsNewestExactlyWhenAlone` | src/api/sse.c:209-216 | with any number of caching threads and nothing in flight, the cache holds the newest state exactly when no other emission was in flight as the newest was swapped in |
| `SseCache.SoleEmitterIsOneAtATime` | src/api/routes/routes.c:246 | one caching thread never begins an emission while another is in flight |
| `SseCache.PrimingLag` | src/api/sse.c:290-301 | when emissions do not overlap, a new subscriber is primed with the newest state, or the one before exactly while the newest is in flight |
| `SseCache.TwoEmittersGoStale` | src/api/sse.c:209-216 | a run of two caching threads that leaves the older state cached |
| `SseOrder.StoppedIsQuiet` | src/api/sse.c:92-95 | after shutdown nobody is seated and nobody is handed anything |
| `SseDelivery.RunInv` | src/api/sse.c:154-387 | over every interleaving of the broadcaster with eight readers, each occupied slot's queue is that of one subscriber's run that accepted exactly its receipts |
| `SseDelivery.ClientSeesItsReceipts` | src/api/sse.c:154-387 | a client's receipts are its priming state and everything emitted since it joined; it has seen one event per receipt read to the end, in global order, and those very messages exactly when its torn frames' cuts are harmless |
| `SseDelivery.ClientSeesEverything` | src/api/sse.c:154-387 | a client whose queue never overflowed has seen exactly its receipts in order, up to those still queued |
| `HidItems.TokeniseEncode` | src/ups/hid_parser.c:64-74 | encoding any short-item list (section 6.2.2.2 of the USB HID 1.11 specification) and tokenising it gives the list back |
| `HidItems.EncodeTokenise` | src/ups/hid_parser.c:64-74 | the tokens of any byte string re-encode to it, up to a truncated last item |
| `HidItems.SignedRoundTrip` | src/ups/hid_parser.c:12-20 | reading a value back from its two's complement data gives the value, at 1, 2 and 4 bytes |
| `HidItems.ExponentRoundTrip` | src/ups/hid_parser.c:25-29 | the exponent nibble decodes to the exponent it encodes, whatever the other bits |
| `HidParser.ReadValue` | src/ups/hid_parser.c:75-79 | the item's data as a little-endian number |
| `HidParser.ParseDescriptor` | src/ups/hid_parser.c:33-157 | the one-pass loop equals tokenise-then-interpret on every byte string, and terminates |
| `HidParser.AddFieldsInPlace` | src/ups/hid_parser.c:117-148 | the inner loop adds the fields of one main item and advances the report's bit counter |
| `HidParser.OneItem` | src/ups/hid_parser.c:81-151 | the three kinds of items on the parser's variables |
| `HidParser.FindField` | src/ups/hid_parser.c:161-183 | the first field of the type whose path ends in the given one, or none exists |
| `HidLayout.OffsetsAreSums` | src/ups/hid_parser.c:117-148 | each field's offset is the number of bits before it in its report, modulo 65536 |
| `HidLayout.ReportsAreContiguous` | src/ups/hid_parser.c:117-148 | under 65536 bits the fields of a report are contiguous from bit 0 and pairwise disjoint |
| `HidLayout.AddFieldsAdds` | src/ups/hid_parser.c:117-148 | a main item adds min(count, room) fields, each with its own usage, the open collections and the current globals |
| `HidMeaning.MainItemMeans` | src/ups/hid_parser.c:81-148 | from the item list alone: a main item adds the last report count's number of fields while there is room, the j-th with the j-th usage declared since the last main item (the last one repeating, section 6.2.2.8 of the USB HID 1.11 specification), and with page, report id, size, bounds, exponent and unit of the last global items |
| `HidMeaning.EveryFieldMeans` | src/ups/hid_parser.c:54-151 | every field of every item list comes from one of its main items and says that of the items before it |
| `HidMeaning.CollectionMeans` | src/ups/hid_parser.c:100-107 | a collection is named by the page in force and the first usage declared for it |
| `HidLayout.StackIsOpen` | src/ups/hid_parser.c:100-110 | up to eight levels the stack is the list of open collections (section 6.2.2.6 of the USB HID 1.11 specification) |
| `HidMeaning.PathIsOpenPlusUsage` | src/ups/hid_parser.c:117-148 | a field's path is the open collections and its usage (section 6.2.2.8) exactly when at most seven are open |
| `HidLayout.BalancedExactlyBelowCap` | src/ups/hid_parser.c:100-110 | opening and closing a collection restores the stack exactly below the cap of eight |
| `HidLayout.NinthCollectionIsLost` | src/ups/hid_parser.c:100-110 | nine collections opened and one closed: eight are open, seven are recorded |
| `HidExtract.Word` | src/ups/hid_parser.c:208-221 | the aligned bytes are the field's slice of the report data |
| `HidExtract.BitLoop` | src/ups/hid_parser.c:223-231 | the bit loop computes (data >> offset) mod 2^bits |
| `HidExtract.SignExtend` | src/ups/hid_parser.c:233-241 | two's complement below 32 bits when the field is signed |
| `HidExtract.ReadRaw` | src/ups/hid_parser.c:204-241 | fast paths and loop alike return the field's slice, signed by the loop and the 32-bit path only |
| `HidExtract.ReturnedInverts` | src/ups/hid_parser.c:204-241 | a stored value reads back exactly when it is not negative on an aligned 8- or 16-bit field |
| `HidExtract.PackedReportReadsBack` | src/ups/hid_parser.c:117-241 | for every descriptor, packing values at the parser's offsets and reading each back is the identity, exactly with that exception |
| `HidExtract.SignedByteReadsUnsigned` | src/ups/hid_parser.c:208-211 | a descriptor with one signed byte: -1 packed into it is read as 255 |
| `HidExtract.ReadStatusBit` | src/ups/hid_pdc_core.c:474-490 | the first matching one-bit feature inside the report, agreeing with the extractor on unsigned fields |
| `HidExtract.StatusBitReadsBack` | src/ups/hid_pdc_core.c:474-490 | for every descriptor and packed report, looking up a one-bit feature by its page and usage finds the bit packed for it |
| `Transport.FindDriver` | src/ups/ups.c:69-148 | the first driver that opens and detects wins; every other handle opened on the way is closed; the error says which way it failed |
| `Transport.Ups.Reconnect` | src/ups/ups.c:250-285 | one reconnect attempt: rate limit, connect, detect, keep or close the handle |
| `Transport.Ups.RecordError` | src/ups/ups.c:289-299 | counts the error; the fifth in a row closes the handle |
| `Transport.Ups.ReadDriver` | src/ups/ups.c:311-354 | a counted read: reconnect if down, call the driver, clear or count the error |
| `Transport.Ups.CallDriver` | src/ups/ups.c:356-370 | an uncounted call: reconnect if down, call the driver |
| `Lifetime.SoundExactlyWhenCareful` | src/ups/ups.c:151-183 | over every interleaving of dispatchers, topology queries, register accesses and closes, nothing given up is touched (handle, register table, context) exactly when each query loaded a handle of the outage it calls in, each descriptor is of the table in force, and nothing follows the close |
| `Lifetime.EveryHandleClosedOnce` | src/ups/ups.c:69-159 | on such runs no handle is touched after its disconnect, and once closed each was connected once and disconnected once |
| `Lifetime.QueryAcrossOutage` | src/ups/ups.c:178-183 | a query that loads before an outage and calls after it: the last driver calls are the disconnect and a use of the same handle |
| `Lifetime.QueryDuringOutage` | src/ups/ups.c:178-183 | a query during an outage calls the driver without a handle |
| `Lifetime.CommandAfterClose` | src/daemon/main.c:366-367 | a command after the close works on a freed context and the disconnected handle |
| `Lifetime.WriteThatReconnects` | src/ups/ups.c:520-533 | a register found during an outage and written once the link is back: its table is gone |
| `Transport.OutagesAndAttempts` | src/ups/ups.c:233-307 | the transport is down exactly at five errors, which are five failed reads in a row, and attempts of an outage are at least 2 s apart |
| `Transport.RecoversExactlyWhenDue` | src/ups/ups.c:250-285 | in every outage of every run an operation tries to reconnect exactly when 2 s have passed since the outage's last try, and the link is up again exactly when that try opens a device that the driver accepts |
| `Transport.RepliesAreTrue` | src/ups/ups.c:311-370 | Ok means a driver call that succeeded, an I/O error without a call means no transport, and conversely |
| `Transport.NeverAfterDisconnect` | src/ups/ups.c:289-299 | in any trace that replays, no call touches a handle after its disconnect |
| `Transport.OpenedAndClosedOnce` | src/ups/ups.c:250-299 | in any trace that replays, a handle is opened once, and closed once unless still open |
| `Connectivity.EventsAlternateAndAreJustified` | src/monitor/monitor.c:281-337 | however slow-loop, fast-loop and API calls interleave, Disconnected and Reconnected alternate, Disconnected first, each after five failed counted reads in a row |
| `Connectivity.EventsAreExactlyChanges` | src/monitor/monitor.c:299-337 | over every interleaving the events are exactly the changes of what the polls' verdicts find: Disconnected whenever one finds the link down after one that found it up, Reconnected whenever it is found up again |
| `Connectivity.LastEventIsTheState` | src/monitor/monitor.c:303-337 | after a verdict that found the link down the last event is Disconnected, after a good poll their number is even |
| `Connectivity.PollFindsExactly` | src/monitor/monitor.c:281-305 | a poll finds the link up exactly when both reads reached the driver and succeeded, down when one did not and the transport is gone |
| `Connectivity.GoodPollReconnects` | src/monitor/monitor.c:312-337 | a poll that reads everything settles an outstanding disconnect with one Reconnected |
| `Connectivity.PollLoop.Poll` | src/monitor/monitor.c:276-337 | one turn of the poll loop is the status read, the dynamic read unless that failed, and the verdict |
| `ShutdownTrigger.Manager.CheckTrigger` | src/shutdown/shutdown.c:981-1076 | one poll of the trigger, all modes and sources, equals its state function |
| `ShutdownTrigger.FiresExactlyWhenFirstDue` | src/shutdown/shutdown.c:981-1076 | it fires at a poll exactly when that is the first with the condition unbroken since an earlier arming poll and the delay passed |
| `ShutdownTrigger.FiresAtMostOnce` | src/shutdown/shutdown.c:981-1076 | after it has fired every later poll is quiet |
| `TriggerSources.EventsMarkTheEdges` | src/shutdown/shutdown.c:1036-1057 | before it fires, the armed event marks the polls at which the condition begins to hold and the cleared event those at which it ceases to, a return to mains apart |
| `TriggerSources.ManualPollsDoNothing` | src/shutdown/shutdown.c:988-989 | polls in manual mode are as if they had not been made |
| `TriggerSources.FieldReadsItsOwn` | src/shutdown/shutdown.c:950-971 | each field name reads its own quantity and no other |
| `TriggerSources.FieldWatchMeans` | src/shutdown/shutdown.c:950-979 | watching a field compares that field with the configured value and looks at nothing else; without a field, a value or a known comparison nothing is met |
| `TriggerSources.RuntimeMeans` | src/shutdown/shutdown.c:1011-1022 | the runtime threshold is met from 1 second up to itself, the charge threshold up to itself, each off at zero, and either will do |
| `TriggerSources.ModesMean` | src/shutdown/shutdown.c:985-1007 | in UPS mode only the UPS's own request counts, in manual mode nothing, and a required battery only adds being on it |
| `ShutdownResult.Accumulator.Append` | src/shutdown/shutdown.c:103-114 | appends one row and keeps n_failed equal to the rows with ok == 1 |
| `ShutdownGroups.ExecuteSequential` | src/shutdown/shutdown.c:528-560 | each target is skipped past the ceiling, else run with its own result, in order |
| `ShutdownGroups.SkippedAreSuffix` | src/shutdown/shutdown.c:535-544 | the skipped targets are exactly those from the first late one on |
| `ShutdownGroups.PollChildren` | src/shutdown/shutdown.c:467-482 | one pass of non-blocking waits marks and reaps exactly the children that answered |
| `ShutdownGroups.KillStragglers` | src/shutdown/shutdown.c:484-502 | at the ceiling every child still running is killed and reaped |
| `ShutdownGroups.PollUntilDone` | src/shutdown/shutdown.c:466-504 | the polling loop ends in the first round that completes or passes the ceiling, with every child reaped once |
| `ShutdownGroups.ExecuteParallel` | src/shutdown/shutdown.c:429-525 | the loop ends in the first round that completes or passes the ceiling, within the ceiling; each child is reaped exactly once; each target is reported by what polling saw of it |
| `ShutdownGroups.RowIsFirstAnswer` | src/shutdown/shutdown.c:459-520 | from the children alone: a row is passed or failed by the exit status of the child's first answer, killed exactly without any answer up to the last round; a failed fork is passed |
| `ShutdownGroups.PassedIsTrueExactlyWhenForked` | src/shutdown/shutdown.c:459-475 | a passed row means a child that exited 0 exactly when the fork worked |
| `ShutdownGroups.FailedForkReadsAsPassed` | src/shutdown/shutdown.c:459-475 | a group of one target whose fork fails: nothing ran, its row says passed |
| `ShutdownPlan.ParallelGroupAddsUp` | src/shutdown/shutdown.c:506-520 | the passed, failed and killed rows of a parallel group add up to its targets, and the last two to its failures |
| `ShutdownPlan.Workflow.RunTargets` | src/shutdown/shutdown.c:714-718 | a real group, run either way, reports its targets and leaves a trace of its own group in which every started target settles |
| `ShutdownPlan.Workflow.ValidateTargets` | src/shutdown/shutdown.c:682-713 | a dry run probes each target and reports the probe |
| `UpsControl.FindCommandFlag` | src/ups/ups.c:406-416 | the first shutdown command, if any |
| `UpsControl.FindConfigReg` | src/ups/ups.c:453-463 | the first register of the name, if any |
| `UpsControl.Validate` | src/ups/ups.c:486-518 | a value is accepted exactly when no range is declared or it lies in it, the list is not strict or names it, or the register is not checked |
| `UpsControl.CmdExecute` | src/ups/ups.c:418-431 | the driver is called exactly when the name is known, has a function and the transport is up; success is the driver's |
| `UpsControl.ConfigWrite` | src/ups/ups.c:520-533 | the driver is called exactly when the register and driver can be written, the value is accepted and the transport is up; each refusal has its own reply |
| `ShutdownPlan.Workflow.SendShutdown` | src/shutdown/shutdown.c:762-774 | a command is in the trace exactly when the driver was called, and the row passes exactly when it succeeded |
| `ShutdownPlan.Workflow.WriteSetting` | src/shutdown/shutdown.c:785-800 | the same for a register write, value validation included |
| `ShutdownPlan.Workflow.UpsAct` | src/shutdown/shutdown.c:743-809 | the verdict and the single effect of every UPS mode, dry or real |
| `ShutdownPlan.Workflow.PhaseThree` | src/shutdown/shutdown.c:836-914 | the controller's row, effect and events for docker, disabled, dry and real runs |
| `ShutdownPlan.Workflow.Execute` | src/shutdown/shutdown.c:617-945 | the whole workflow: rows, failure count, effects and events of phase 1, the UPS and the controller in that order |
| `ShutdownPlan.RowsFollowThePlan` | src/shutdown/shutdown.c:642-914 | one row per target in group order, then one UPS row, then one controller row |
| `ShutdownPlan.StagesInOrder` | src/shutdown/shutdown.c:642-914 | groups do not overlap, the UPS action follows them all and the poweroff comes last |
| `ShutdownPlan.GroupsDoExactlyWhatIsDue` | src/shutdown/shutdown.c:655-725 | every started target has finished or been reaped later in the trace, none starts twice, a group's pause is its last effect, and the probes, starts, reaps and pauses are exactly those due |
| `ShutdownTruth.GroupEffectsAreTrue` | src/shutdown/shutdown.c:655-725 | a dry run probes every target and does nothing else; a real one starts and settles those whose fork works or that are not too late, and pauses after a group exactly when configured |
| `ShutdownTruth.TargetRowsAreTrue` | src/shutdown/shutdown.c:421-560 | the row of each target, by its place, is the probe's, its own result, skipped exactly when too late, or the outcome of its group's polling |
| `ShutdownTruth.UpsModesAreTrue` | src/shutdown/shutdown.c:743-831 | the UPS row is skipped exactly without a mode and failed in an unknown one; the settling pause is taken exactly in a real run with a mode and a delay |
| `ShutdownTruth.CommandsAreShutdowns` | src/shutdown/shutdown.c:762-774 | a command that is sent is one of the UPS's shutdown commands |
| `ShutdownTruth.WritesAreConfigured` | src/shutdown/shutdown.c:785-800 | a write goes to the configured register, which takes it, with the low 16 bits of the configured value |
| `ShutdownTruth.ControllerRowIsTrue` | src/shutdown/shutdown.c:836-914 | the last row is passed exactly for an accepted poweroff or a positive answer in a dry run, failed exactly for a refused one or a negative answer, skipped exactly without either |
| `ShutdownTruth.PoweroffEventsAreTrue` | src/shutdown/shutdown.c:882-908 | the announcement goes out exactly with the poweroff, and its failure exactly when it is refused |
| `ShutdownTruth.OtherEventsAreTrue` | src/shutdown/shutdown.c:625-834 | the first event names the mode, and the UPS event says whether the UPS row failed |
| `ShutdownTruth.TitleIsTrue` | src/shutdown/shutdown.c:921-937 | the terminal event carries the failed rows, and its title says dry run, halted exactly by a refused poweroff, or complete |
| `ShutdownPlan.DryRunOnlyAsks` | src/shutdown/shutdown.c:682-883 | a dry run has no destructive effect and no wait; a real run never just asks |
| `ShutdownPlan.TerminalExactlyWhenAlive` | src/shutdown/shutdown.c:921-937 | the terminal event is emitted, last and with the failure count, exactly when no poweroff was accepted |
| `ShutdownPlan.SummaryCountsSkippedAsOk` | src/shutdown/shutdown.c:727-739 | the phase 1 event's successes are the passed rows exactly in a dry run or when no sequential group has a target considered at or after its ceiling |
| `ShutdownPlan.LateTargetCountsAsOk` | src/shutdown/shutdown.c:727-739 | one group with a late second target: one passed, one skipped, two reported |
| `ShutdownPlan.UpsRowIsTrue` | src/shutdown/shutdown.c:762-805 | in a whole real run the last row but one passes exactly when the trace holds a request to the UPS and the driver accepted it; there is at most one such request |
| `ShutdownPlan.DryRunPredictsUpsAction` | src/shutdown/shutdown.c:751-805 | the dry run tells whether the real run calls the driver exactly when nothing it does not look at stands in the way: transport, command function, and the register's presence, writability and accepted values |
| `ShutdownPlan.DefaultValueIsRejected` | src/ups/ups.c:486-526 | a writable register with the range 110 to 150 and the default value 0: the dry run passes, the real run fails and writes nothing |
| `ShutdownAsync.OneWorkerAtATime` | src/shutdown/shutdown.c:1139-1230 | over every interleaving at most one worker is in the workflow, and only while the status is running |
| `ShutdownAsync.StartPassesExactlyWhenFree` | src/shutdown/shutdown.c:1172-1209 | a start gets a new id exactly when no worker and no other start holds the workflow |
| `ShutdownAsync.RunMirrored` | src/shutdown/shutdown.c:126-142 | the snapshot is the worker's accumulator or lags it by one row; n_failed counts its failed rows; the worker runs in its start's mode; the id counts the accepted starts |
| `ShutdownAsync.RunPolled` | src/shutdown/shutdown.c:1232-1270 | status answers have non-decreasing ids, growing rows per id, a final completed answer, and all_ok exactly when completed without failed rows |
| `ShutdownAsync.JoinedAtMostOnce` | src/shutdown/shutdown.c:1180-1211 | no worker is joined twice, however starts overlap |
| `ShutdownAsync.LeakExactlyWhenOverwritten` | src/shutdown/shutdown.c:1213-1227 | some worker is never joined exactly when a handle was published over a valid one |
| `ShutdownAsync.SerialisedNeverOverwrites` | src/shutdown/shutdown.c:1165-1230 | with serialised starts that never happens |
| `ShutdownAsync.FreeJoinsAllExactlyWhenNotOverwritten` | src/shutdown/shutdown.c:581-603 | when shutdown_free returns, every worker has been joined and has exited, exactly when no handle was overwritten |
| `ShutdownAsync.OverlappingStartsLeak` | src/shutdown/shutdown.c:1213-1227 | a run of two overlapping starts that leaks the first worker |
| `ShutdownAsync.Manager.StartRegion` | src/shutdown/shutdown.c:1172-1209 | the guarded region refuses with the running id, or takes a new id and hands out the previous handle |
| `ShutdownAsync.Manager.GiveUpRegion` | src/shutdown/shutdown.c:1215-1222 | a failed thread creation makes the manager idle again |
| `ShutdownAsync.Manager.PublishRegion` | src/shutdown/shutdown.c:1224-1227 | the new worker's handle is stored |
| `ShutdownAsync.Manager.ReadModeRegion` | src/shutdown/shutdown.c:1143-1146 | the worker starts with the mode in force and an empty accumulator |
| `ShutdownAsync.Manager.MirrorRegion` | src/shutdown/shutdown.c:132-141 | the worker's last row reaches the snapshot and the current phase and target |
| `ShutdownAsync.Manager.FinishRegion` | src/shutdown/shutdown.c:1157-1160 | the status becomes completed, the snapshot stays |
| `ShutdownAsync.Manager.GetStatus` | src/shutdown/shutdown.c:1232-1270 | the answer is the state at the time of the call; the current phase and target are the last row's |
| `ShutdownAsync.Manager.FreeRegion` | src/shutdown/shutdown.c:590-594 | takes the handle to join |
| `ShutdownReport.AnswersFollowThePlan` | src/shutdown/shutdown.c:1232-1270 | over every run whose workers append the plan's rows, each status answer names its workflow's targets in group order, then the UPS, then the controller: the first of them while running, all of them when completed |
| `ShutdownReport.StatusIsLastTurn` | src/shutdown/shutdown.c:1139-1230 | over every run the status is running, idle or completed as the last accepted start, given-up start or worker's end says |
| `ShutdownReport.AnswerIsCurrent` | src/shutdown/shutdown.c:1232-1270 | an answer holds that status, the number of accepted starts, and the rows so far with the number of failed ones |
| `ShutdownFiring.TriggerStartsOnceExactlyWhenDue` | src/shutdown/shutdown.c:981-1076 | over every joint run of trigger and workflows the trigger calls for at most one start, and for one exactly when some poll was due |
| `ShutdownFiring.FiringStartsRealExactlyWhenNoDryRun` | src/shutdown/shutdown.c:1064-1076 | when the trigger's start reaches the guard, a real workflow is or becomes current exactly when the guard did not find a dry run |
| `ShutdownFiring.RealRunsExactlyWhenNotSwallowed` | src/shutdown/shutdown.c:1064-1076 | where only the trigger asks for real workflows, one was ever accepted exactly when the trigger's start has been made and did not find a dry run |
| `ShutdownFiring.FailedThreadLeavesIdle` | src/shutdown/shutdown.c:1213-1222 | if the thread of the trigger's start cannot be created the manager is idle, and the trigger never starts another |
| `ShutdownFiring.DryRunSwallowsTrigger` | src/shutdown/shutdown.c:1064-1076 | a dry run, two polls and the firing: however the run goes on without another caller, no real workflow is ever accepted |
| `Alerts.DecodeBits` | src/ups/ups_format.c:95-104 | the names of the set bits in table order, cut at the caller's limit |
| `Alerts.DecodeNamesBit` | src/ups/ups_format.c:95-151 | a table row is named exactly when its bit is set, and then once |
| `Alerts.Engine.SeedFrom` | src/alerts/alerts.c:14-29 | the flags and previous registers of a snapshot |
| `Alerts.Engine.CheckFlags` | src/alerts/alerts.c:90-117 | one notice per changed flag, and the mask of those raised |
| `Alerts.Engine.CheckVoltages` | src/alerts/alerts.c:119-147 | the two hysteresis flags and their edges |
| `Alerts.Engine.CheckRegisters` | src/alerts/alerts.c:188-248 | one notice per named bit raised or cleared in the three registers |
| `Alerts.Engine.Check` | src/alerts/alerts.c:81-251 | one poll's check: new state, notices and mask |
| `AlertRuns.RaisedMinusCleared` | src/alerts/alerts.c:188-248 | for every known error bit and every run, raised minus cleared notices is the final bit minus the first |
| `AlertRuns.TablesAreGood` | src/ups/ups_format.c:106-151 | no error table uses a name twice, which RaisedMinusCleared asks of its tables |
| `AlertRuns.SeededCheckIsQuiet` | src/alerts/alerts.c:14-29 | checking the data a seed came from raises no overload, fault, replace-battery or register alert |
| `AlertRuns.EveryAlertAlternates` | src/alerts/alerts.c:42-186 | each of the seven alerts and its all-clear alternate over every run, starting with the one that leaves the first state and ending on the present one |
| `AlertRuns.AlertsAreOnWhen` | src/alerts/alerts.c:90-186 | after any run of checks the flags are the bits of the last data, the load alert is on above its limit, and the battery-low alert exactly when the charge is below its limit, did not rise since the check before, and the UPS is online |
| `AlertRuns.FirstCheckKnowsNoCharge` | src/alerts/alerts.c:164-167 | the first check never raises the battery-low alert |
| `AlertRuns.VoltageAlertsAreOnWhen` | src/alerts/alerts.c:119-147 | after any run the high alert is on exactly above the threshold less the offset, less the dead band as well if it was on, and the low alert mirrored; no threshold leaves it alone |
| `AlertRuns.MaskIsWhatWentOut` | src/alerts/alerts.c:90-117 | the returned mask names the status bits whose own notices went out, and no others |
| `AlertHysteresis.AlertsFitVariation` | src/alerts/alerts.c:119-147 | (notices - 1) times the dead band is at most the total variation of the input voltage |
| `AlertHysteresis.LowIsMirroredHigh` | src/alerts/alerts.c:131-147 | the low alert is the high alert of the negated voltage |
| `FastLoop.EmitTransitions` | src/monitor/fast_loop.c:104-165 | the xor-and-mask code emits exactly the edges of the owned bits, in order |
| `FastLoop.Loop.Tick` | src/monitor/fast_loop.c:178-217 | one tick: skipped if either read fails, baseline on the first, events and ring entry after that |
| `FastLoop.LinesAlternate` | src/monitor/fast_loop.c:104-165 | per line, events alternate over every run and replay to the current bit |
| `FastLoop.EventsReportChanges` | src/monitor/fast_loop.c:104-165 | each event is sent exactly when the bits it stands for changed its way |
| `FastLoop.FaultEventsAreEdges` | src/monitor/fast_loop.c:151-157 | the coalesced fault events are the edges of "any fault" exactly when the fault bits did not change or one reading has none |
| `FastLoop.FaultDetectedTwice` | src/monitor/fast_loop.c:151-157 | a run with two "Fault Detected" in a row |
| `XferRing.Ring.Push` | src/monitor/xfer_ring.c:11-22 | records a reading exactly when its reason differs from the last |
| `XferRing.Ring.RecentCause` | src/monitor/xfer_ring.c:24-40 | the scan answers the newest relevant reason among the last 16 transitions, over any number of wraps |
| `XferRing.RecordedTransitionsDiffer` | src/monitor/xfer_ring.c:11-22 | adjacent recorded transitions differ |
| `XferRing.HistoryIsTheChanges` | src/monitor/xfer_ring.c:11-22 | the recorded history is exactly the readings that differ from the reading before, each with its time |
| `XferRing.CauseIsNewest` | src/monitor/xfer_ring.c:24-40 | the answer is the newest of the last 16 transitions within the lookback that is not back to acceptable input, or unknown |
| `XferRing.LargestIsNewest` | src/monitor/xfer_ring.c:24-40 | with increasing timestamps the largest relevant one is the newest |
| `SmtString.Decode` | src/ups/ups_smt.c:76-97 | the buffer holds the trimmed, NUL-terminated content |
| `SmtString.DecodeStripsExactly` | src/ups/ups_smt.c:76-97 | decoding strips leading NULs and trailing blanks and nothing else, exactly when the string does not start with one character and a NUL followed by something visible |
| `SmtString.InteriorNulIsLost` | src/ups/ups_smt.c:84-92 | a two-register input whose interior NUL is lost |

## Left out

- SseClient.ClientSeesReadFrames: a sufficient condition on the cuts alone, exact for "whatever message comes next" (HarmlessBeforeAll); the exact one for a given run also looks at the messages (SseCuts.ClientSeesReadFramesByCuts).
- SseWire.FrameRoundTrip: types and payloads without CR or LF; with them the frame is not the message. An empty type reads back as "message", as the standard says.
- SseCache.PrimingLag: caching emissions that do not overlap, as with the daemon's one caching thread; with overlaps CacheIsNewestExactlyWhenAlone says what the cache holds.
- HidExtract.ReadRaw: fields of at most 32 bits, aligned 8-, 16- and 32-bit ones inside the 64-byte buffer; outside that the C code has no defined result.
- ShutdownTrigger.FiresExactlyWhenFirstDue: non-manual settings and a positive clock; TriggerSources.ManualPollsDoNothing has the manual ones. Settings may otherwise change between polls.
- ShutdownGroups.ExecuteParallel: without a ceiling the loop ends only if every child exits, which is asked as a bound on the rounds; a child's own descendants are not modelled.
- ShutdownGroups.ExecuteSequential: the result of one target (its action, confirmation and delay) is an input.
- UpsControl.CmdExecute: the result of the reconnect attempt that precedes the call is an input; Transport has the attempt itself.
- ShutdownPlan.Workflow.RunTargets: rows of a group are appended to the result when the group has run; that a watcher sees them one by one is the subject of ShutdownAsync and ShutdownReport.
- Lifetime.SoundExactlyWhenCareful: drivers are assumed to provide connect, detect and disconnect, and a narrowing driver to find registers at every connect; loading a pointer is one step; an operation on a freed context is recorded as a fault and then taken to find the fields the close left.
- UpsControl.ConfigWrite: the descriptor is a value; that a reconnect within the call can free the table it points into is the subject of Lifetime.
- SseDelivery.ClientSeesItsReceipts: messages without CR or LF, as in SseWire.FrameRoundTrip.
- ShutdownReport.AnswersFollowThePlan: what a workflow does besides its rows (effects, events) is not interleaved with the status calls.
- FastLoop.Loop.Tick: the extra status read made for the battery message is a read of the link like any other in Connectivity and adds nothing here.
- XferRing.Ring.RecentCause: timestamps are positive and strictly increasing, as the monotonic clock promises at the poll period.
- Allocation failure, NULL arguments and text truncation by snprintf.
- Error texts of result rows, event severities and message texts; only titles and counts are modelled.
- NaN: an efficiency without meaning is an absent value, which compares false; other doubles are reals.
- HID long items, Push/Pop and Usage Minimum/Maximum, which the parser ignores; scaled reads, which use floating powers.
- `has_status_bit`, `hid_pdc_field_by_index` and `hid_pdc_fixup_config_reg`: one-branch lookups beside `read_status_bit`.
- Config-register snapshots, high-efficiency tracking and status signatures of the monitor thread.
- Target connectivity tests, SSH and shell commands, the database, HTTP, JSON, authentication, weather and Modbus pacing.
