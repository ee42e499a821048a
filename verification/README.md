# Retroactive sampling, verified

A Dafny 4.11 model of the retroactive sampling processor and its coordinator, with proofs. Check it
with `dafny verify dfyconfig.toml`.

## What is modelled

**The span buffer** (`processor/retroactivesampling/internal/buffer/buffer.go`), in three layers.

- *Bytes and pages* (`Bytes`, `Records`, `PageCodec`, `Ring`, `SweepPage`): the record header, pages
  of small records, large records split over pages, the file as a ring of pages, and one pass of
  `processPage`, each on byte sequences, with round trips and a refinement to lists of records.
- *Two processes* (`BufferMachine` and the modules named `Buffer...`): a step relation in which one
  step is one load or add of `used`, one file operation, one channel operation, one look at the
  interest index or at the clock. The file is a byte sequence. Fields marked as history (accepted
  records, committed groups, callbacks with their evidence) only record what happened. The
  invariants are proved step by step and then read off for every reachable state in
  `BufferTheorems`; `BufferShutdown` counts steps after `Close`; `BufferProgress` shows that
  nobody waits for nothing and that `Close` leads to the end. `BufferWedge` is the same machine
  with every record that `Write` takes, and a run on which it gets stuck.
- *The loops as written* (`BufferShared`, `WriterCode`, `SweeperCode`, and `InterestIndex` in
  `Interest`): classes over arrays, changed in place, proved against the same functions and the
  same ring ownership. What the other goroutine may do meanwhile is the contract of
  `AwaitPageFreed` and `WriterRuns`; their bodies are one silent instance of it.

**Grouping and routing** (`Traces`, `Split`, `Processor`, `EndToEnd`): `groupByTrace` builds trees of
heap nodes through its three maps; `processTraces` routes each group; `NoSpanTwice` composes
calls with every reachable state of the buffer.

**Policies** (`Evaluator`, `Sampling`, `Latency`, `StringFilter`): which trees `Build` can make, when
a local decision is shared by all collectors, the streaming latency window, the hash bucket,
the cached matcher.

**The keep-decision protocol** (`StreamServer`, `PubSub`, `Reconnect`, `KeepTree`): per-stream
batching, the three ways to decide once, the loops that keep a stream open, and a state machine for
a tree of coordinators of any depth with lossy queues.

The page size is any number above 28, the file has any number of pages from 2 on, the decision
window is any positive duration. The clock never goes back. `ReadAt` and `WriteAt` do not fail, as
the comment at buffer.go:266-268 assumes. Records entering the two-process machine have a trace ID
that is neither all-zero nor the tombstone, and a payload length below 2^32; what the other IDs do
is stated below. A timer may fire at any time from its deadline on.

## Where the code does less than it, or its documentation, promises

- buffer.go:329-331: a record whose trace ID is all zeros ends the parse of its page, and `Write` takes
  such records. On a page of small records the callbacks are those of the live records before the
  first such ID, and it and every later record are released without one (`PassRefinesRecords`; every
  record of a page is answered exactly when no ID is all-zero or the tombstone,
  `EveryRecordAnsweredIff`; a page with ordinary IDs around it, `ZeroIdReleasesUnreported`). Of a
  large record with an all-zero ID only the first page is released, whatever its page count
  (`ClassifyFirstPage`: it is seen with its own page count exactly when its ID is not all-zero). Then
  the next payload page is parsed as a header: `used` is positive although no record starts at the
  read head, and the sweeper can go round that page for ever, so that `Close` does not return
  (`Torn`, `WedgedForever`, `ZeroIdWedges`). What `HeadStartsAGroup` and `BufferShutdown` promise is
  lost with the first such record.
- buffer.go:338, 387: a record whose trace ID is the tombstone is taken for a finished one: its pages
  are released in full, without a callback (`LargeDeliveredIff`, `EveryRecordAnsweredIff`).
- buffer.go:118-120 and 147-156: the span test is said to ask whether the decision arrived inside the
  span's window. A second `AddInterest` after the window closed replaces the time of the first, and
  the span is then evicted (`RenewalForgetsInTimeDecision`; exact condition in
  `InTimeDecisionHonoured`).
- latency.go:23: start time 0 means "nothing seen yet", so a span without a start time restarts the
  window and makes the decision depend on span order (`ZeroStartBreaksOrder`). Without an upper
  threshold the filter gives the answer of the whole trace in every order exactly when no span
  starts at 0, or a span that ends in the last millisecond starts so early that the trace is as
  many milliseconds long from there as from time 0 (`AgreesInEveryOrderIff`).
- evaluator.go and drop.go: "all collectors make the same decision" fails for `SampledLocal` when a
  drop policy stands in front (`DropBreaksAgreement`; exact condition in `LocalDecisionsAgree`).
- server.go:86-91: the partial batch in hand when a stream ends is neither sent nor counted
  (`LosesUncounted`; bound in `Run`).
- proxy/pubsub.go:115-118 and client.go:76-79: `send` and `connect` return nil exactly when their
  select takes the cancelled context after `Close` (`ProxySend`, `ClientConnect`), so that the branch
  that resets the reconnect wait is taken at most once, just before the loop returns: however long
  connections lasted, the waits double from one second up to the cap (`RunProxy`, `RunClient`). The
  client's cap is 32 seconds, not 30.
- redis/pubsub.go:60-66: when the answer to SET NX is lost although the key was set, the error is
  returned, nothing is broadcast, and retries are blocked for a TTL (`CrashBlocksRetry`).
- processor.go:96-118: a `Dropped` decision is treated like `NotSampled`, the group is buffered
  (`HandleGroup`).

## Model

| member | source | states |
|---|---|---|
| Bytes.BigEndianRoundTrip | processor/retroactivesampling/internal/buffer/buffer.go:235-236 | storing and loading n big-endian bytes gives back every value that fits in n bytes |
| Bytes.Signed64RoundTrip | processor/retroactivesampling/internal/buffer/buffer.go:391-392 | the int64 nanosecond time survives its trip through a uint64 header field |
| Records.HeaderFields | processor/retroactivesampling/internal/buffer/buffer.go:327-332 | the three header fields read back what the header stores, at any byte position |
| Records.RecordAtOffset | processor/retroactivesampling/internal/buffer/buffer.go:234-238 | at the k-th offset of a flushed page the k-th record's ID, time, length and payload are read back |
| Records.RenameInPage | processor/retroactivesampling/internal/buffer/buffer.go:403 | overwriting 16 bytes at a record's offset renames that record and changes no boundary and no other record |
| PageCodec.PageRoundTrip | processor/retroactivesampling/internal/buffer/buffer.go:203-213 | parsing a flushed page yields the longest prefix of its records without an all-zero trace ID, hence all records iff none has one; that the loop visits just what is parsed is SweepPage.PassFollowsParse |
| PageCodec.ZeroIdHidesLaterRecords | processor/retroactivesampling/internal/buffer/buffer.go:329-331 | a concrete page on which a zero trace ID hides its own record and a later one with an ordinary ID |
| PageCodec.NumChunksBounds | processor/retroactivesampling/internal/buffer/buffer.go:248 | the page count of a record is the least number of pages that holds it, and is 1 iff it fits in one |
| PageCodec.FirstChunk | processor/retroactivesampling/internal/buffer/buffer.go:260-265 | first page of a large record: header, then as much payload as fits; its fields read back |
| PageCodec.LaterChunk | processor/retroactivesampling/internal/buffer/buffer.go:274-284 | page i of a large record holds the next slice of payload, zero-padded |
| PageCodec.LargeRecordRoundTrip | processor/retroactivesampling/internal/buffer/buffer.go:356-364 | gathering the pages written for a large record returns its payload, ID, time and page count; for which IDs the loop gathers them is SweeperCode.LargeDeliveredIff |
| PageCodec.RenameLarge | processor/retroactivesampling/internal/buffer/buffer.go:370 | tombstoning a large record changes its first page only; its length and page count stay |
| Ring.WriteThenRead | processor/retroactivesampling/internal/buffer/buffer.go:213 | a page write is read back at its own offset and disturbs no other page |
| Ring.WriteFreePage | processor/retroactivesampling/internal/buffer/buffer.go:213-216 | writing behind a region of the ring extends the region and keeps what it held, across the wrap |
| Ring.DropPages | processor/retroactivesampling/internal/buffer/buffer.go:463 | advancing the read head drops exactly the first pages of the region and leaves its end where it was |
| Ring.Advance | processor/retroactivesampling/internal/buffer/buffer.go:216 | advancing a head modulo the file size keeps it page-aligned and is advancing a page number modulo the page count |
| Interest.AddRefines | processor/retroactivesampling/internal/buffer/buffer.go:115-125 | one AddInterest keeps the pruned index equal to the full history, save for entries two windows old |
| Interest.HasMeansRecentDecision | processor/retroactivesampling/internal/buffer/buffer.go:139-145 | HasInterest holds iff the latest AddInterest in the whole unpruned history is less than one window old |
| Interest.InTimeDecisionHonoured | processor/retroactivesampling/internal/buffer/buffer.go:147-156 | when a decision came in time, the span test succeeds iff that trace was not renewed late and its entry is not pruned; and an entry younger than two windows is never pruned |
| Interest.NoDecisionNoInterest | processor/retroactivesampling/internal/buffer/buffer.go:150-156 | the span test never succeeds without a decision inside the span's window |
| Interest.RenewalForgetsInTimeDecision | processor/retroactivesampling/internal/buffer/buffer.go:118-120 | counterexample: a renewal at or after the end of the window makes an in-time decision be forgotten |
| Interest.InterestIndex.HasInterest | processor/retroactivesampling/internal/buffer/buffer.go:133-145 | the answer is that of the index's value at a clock reading not before the call |
| Interest.InterestIndex.HasInterestForSpan | processor/retroactivesampling/internal/buffer/buffer.go:150-156 | the answer is whether the entry's time is before the end of the span's window |
| Interest.InterestIndex.RemoveBack | processor/retroactivesampling/internal/buffer/buffer.go:171-172 | list and map lose the same, oldest entry |
| Interest.InterestIndex.PruneInterest | processor/retroactivesampling/internal/buffer/buffer.go:158-174 | although the clock is read anew each round, the loop removes exactly the entries at least two windows old at the last reading |
| Interest.InterestIndex.AddInterest | processor/retroactivesampling/internal/buffer/buffer.go:115-125 | list and map stay equal, duplicate-free and newest-first; the value is the pruned old value with the trace at the current time |
| Interest.InterestIndex.Renew | processor/retroactivesampling/internal/buffer/buffer.go:118-120 | moving an element to the front and renewing it keeps list and map equal and sorted |
| Interest.InterestIndex.Insert | processor/retroactivesampling/internal/buffer/buffer.go:121-124 | a new element goes to the front of the list and into the map |
| SweepPage.ClassifySmall | processor/retroactivesampling/internal/buffer/buffer.go:326-390 | on a flushed page of any records the pass sees them in order, one by one, and stops at the first all-zero ID or behind the last, whatever the tail is |
| SweepPage.SettleSmall | processor/retroactivesampling/internal/buffer/buffer.go:403 | a settled record leaves the page an encoding of the same records with that one tombstoned |
| SweepPage.PassFrom | processor/retroactivesampling/internal/buffer/buffer.go:326-421 | from any record on, the byte-level loop computes the tombstones, callbacks, verdict and least remaining time of the record-level pass over the records before the first all-zero ID, whatever follows it |
| SweepPage.PassRefinesRecords | processor/retroactivesampling/internal/buffer/buffer.go:318-427 | a whole pass over a flushed page with any IDs: boundaries kept, settled records tombstoned, callbacks of the records before the first all-zero ID in order, consumed iff no live record is left among those |
| SweepPage.ClassifyFirstPage | processor/retroactivesampling/internal/buffer/buffer.go:335-346 | the first page of a large record is seen with its own page count iff its ID is not all-zero; else it is the end of the page, and one page is released |
| SweepPage.EveryRecordAnsweredIff | processor/retroactivesampling/internal/buffer/buffer.go:318-427 | under pressure or closing the callbacks answer the live records before the first all-zero ID, and every record of the page gets one iff no ID is all-zero or the tombstone |
| SweepPage.ZeroIdReleasesUnreported | processor/retroactivesampling/internal/buffer/buffer.go:329-331 | a concrete page with ordinary IDs around an all-zero one that is released with one callback out of three |
| SweepPage.PassFollowsParse | processor/retroactivesampling/internal/buffer/buffer.go:326-421 | on any bytes the loop reports exactly the records that parsing the page finds, in order |
| SweepPage.PressureSettlesAll | processor/retroactivesampling/internal/buffer/buffer.go:408-414 | under pressure or closing every live record of a page gets its callback, in order |
| BufferRing.RingWrite | processor/retroactivesampling/internal/buffer/buffer.go:213-216 | a page written at the write head lands on a free page: nothing committed or in flight changes |
| BufferRing.RingCommit | processor/retroactivesampling/internal/buffer/buffer.go:286 | adding the pages in flight to `used` makes them one committed group |
| BufferRing.RingRead | processor/retroactivesampling/internal/buffer/buffer.go:359-364 | page i of the head group is read back wherever the ring wraps |
| BufferRing.RingWriteBack | processor/retroactivesampling/internal/buffer/buffer.go:423-425 | writing the scanned page back changes the first page of the head group only |
| BufferRing.RingRelease | processor/retroactivesampling/internal/buffer/buffer.go:462-464 | releasing a group moves the read head over exactly its pages |
| BufferWriter.HandleOk | processor/retroactivesampling/internal/buffer/buffer.go:226-258 | every branch of handle keeps the staging page equal to the encoding of the staged records |
| BufferWriter.WritePageOk | processor/retroactivesampling/internal/buffer/buffer.go:260-284 | the page written next is the staged page, or the next page of the large record, and room stays claimed |
| BufferWriter.AddUsedOk | processor/retroactivesampling/internal/buffer/buffer.go:217-218 | the add to `used` publishes exactly the staged records, or the large record alone |
| BufferSweeper.KindSmall | processor/retroactivesampling/internal/buffer/buffer.go:383-390 | at record k of a page of small records the loop sees that record |
| BufferSweeper.KindLarge | processor/retroactivesampling/internal/buffer/buffer.go:335-346 | at the first page of a large record the loop sees all its pages committed |
| BufferSweeper.JudgeSmallOk | processor/retroactivesampling/internal/buffer/buffer.go:398-420 | one turn settles one live record with a justified callback carrying its payload, or none |
| BufferSweeper.GatherOk | processor/retroactivesampling/internal/buffer/buffer.go:355-372 | gathering yields the whole payload, in any interleaving with the writer, and settles the record once |
| BufferSweeper.ReleaseOk | processor/retroactivesampling/internal/buffer/buffer.go:462-468 | only a group without live records is released, with its own page count |
| BufferInvariant.CoreKept | processor/retroactivesampling/internal/buffer/buffer.go:192-485 | every step of writer, sweeper and environment keeps ring, writer and sweeper state consistent |
| BufferAccounts.BalanceKept | processor/retroactivesampling/internal/buffer/buffer.go:177-485 | every step keeps: accepted = delivered + evicted + dropped + in ring + staged + in the writer's hand + in the channel |
| BufferOrder.OrderKept | processor/retroactivesampling/internal/buffer/buffer.go:192-485 | every step keeps the order of acceptance along channel, stage and ring |
| BufferEvidence.EvidenceKept | processor/retroactivesampling/internal/buffer/buffer.go:350-410 | every step keeps: each callback was decided at one moment after the record was written, knowing every decision taken before that moment and none after it |
| BufferWakeups.WakesKept | processor/retroactivesampling/internal/buffer/buffer.go:205-222 | every step keeps: a parked process whose condition became true has a token pending or coming |
| BufferTheorems.InvKept | processor/retroactivesampling/internal/buffer/buffer.go:192-485 | all invariants together are kept by every step |
| BufferTheorems.ReachableInv | processor/retroactivesampling/internal/buffer/buffer.go:192-485 | all invariants hold in every reachable state, for every interleaving |
| BufferTheorems.RingOwnership | processor/retroactivesampling/internal/buffer/buffer.go:216-217 | 0 <= used <= maxBytes, heads page-aligned inside the file, write head = read head + used + in flight modulo the file size |
| BufferTheorems.WriterDisturbsNothing | processor/retroactivesampling/internal/buffer/buffer.go:252-273 | although room check and write are separate steps, no write touches a committed page |
| BufferTheorems.SweeperDisturbsNothing | processor/retroactivesampling/internal/buffer/buffer.go:423-425 | the write-back touches the first committed page only |
| BufferTheorems.HeadStartsAGroup | processor/retroactivesampling/internal/buffer/buffer.go:449-460 | whenever used > 0 the page at the read head is the first page of a group that lies entirely within used |
| BufferTheorems.LargeRecordAlwaysComplete | processor/retroactivesampling/internal/buffer/buffer.go:342-346 | the branch for a large record whose pages are not all flushed is unreachable |
| BufferTheorems.ReleaseWithinUsed | processor/retroactivesampling/internal/buffer/buffer.go:462-464 | a release subtracts exactly the head group's pages and never makes used negative |
| BufferTheorems.ExactlyOneOutcome | processor/retroactivesampling/internal/buffer/buffer.go:177-485 | every accepted record is in exactly one place, once: a callback, the shutdown drops, or still pending |
| BufferTheorems.CallbacksAreFaithful | processor/retroactivesampling/internal/buffer/buffer.go:365-369 | every callback is about one accepted record, no two about the same; a delivery carries its ID and byte-identical payload |
| BufferTheorems.GroupsSettleInOrder | processor/retroactivesampling/internal/buffer/buffer.go:436-468 | no record behind the head group is settled before, or accepted before, any record settled so far |
| BufferTheorems.OutcomesAreJustified | processor/retroactivesampling/internal/buffer/buffer.go:399-414 | against the history of all decisions: a delivery answers one inside the record's window; an eviction had none standing when it was examined and was aged out, under pressure, or at closing |
| BufferTheorems.StandingDecisionDelivers | processor/retroactivesampling/internal/buffer/buffer.go:147-156 | a resolved record for whose trace a decision was standing when it was examined was delivered whole, never evicted |
| BufferTheorems.LookupIsCurrent | processor/retroactivesampling/internal/buffer/buffer.go:350-353 | the lookup in the loop answers for the record at hand from all decisions so far: yes whenever one is standing, no unless one came inside the window |
| BufferTheorems.ExaminationDecides | processor/retroactivesampling/internal/buffer/buffer.go:347-420 | after a yes the record is delivered, at once or by gathering, never kept or evicted; after a no it is evicted if aged out or under pressure, else kept |
| BufferTheorems.GatheringDecides | processor/retroactivesampling/internal/buffer/buffer.go:355-372 | a large record being gathered reads its next page or is handed over with the outcome that its lookup led to |
| BufferTheorems.WriterNotForgotten | processor/retroactivesampling/internal/buffer/buffer.go:205-212 | a writer parked for room that exists has a pageFreed token pending or about to be sent |
| BufferTheorems.SweeperNotForgotten | processor/retroactivesampling/internal/buffer/buffer.go:437-447 | a sweeper parked on a ring that is no longer empty has a wakeup token pending or about to be sent |
| BufferTheorems.ParkedSweeperMissesNothing | processor/retroactivesampling/internal/buffer/buffer.go:469-482 | a sweeper parked without a signal has no pressure, no interesting live record on its page, and a timer armed within one window |
| BufferShutdown.WriterFuelBurns | processor/retroactivesampling/internal/buffer/buffer.go:301-313 | after Close each writer step except an idle tick uses up a bounded fuel that nobody refills |
| BufferShutdown.WriterNeverBlocks | processor/retroactivesampling/internal/buffer/buffer.go:205-211 | after Close the writer always has a step to take until it is done |
| BufferShutdown.WriterStops | processor/retroactivesampling/internal/buffer/buffer.go:301-313 | after Close the writer takes boundedly many steps on every run |
| BufferShutdown.ClosingNeverParks | processor/retroactivesampling/internal/buffer/buffer.go:323 | once closing, no page is left unfinished and the sweeper never parks on one |
| BufferShutdown.SweeperFuelBurns | processor/retroactivesampling/internal/buffer/buffer.go:436-468 | while closing every sweeper step uses up fuel that nobody refills |
| BufferShutdown.SweeperNeverBlocks | processor/retroactivesampling/internal/buffer/buffer.go:436-468 | while closing the sweeper always has a step to take until it exits |
| BufferShutdown.SweeperStops | processor/retroactivesampling/internal/buffer/buffer.go:436-468 | while closing the sweeper takes boundedly many steps on every run |
| BufferShutdown.ExitLeavesNothing | processor/retroactivesampling/internal/buffer/buffer.go:437-440 | when the sweeper has exited the ring, channel and stage are empty, and accepted = delivered + evicted + dropped at shutdown |
| BufferProgress.ParkedPairGoesOn | processor/retroactivesampling/internal/buffer/buffer.go:205-212 | writer and sweeper are never parked for each other: a token is pending or the sweeper's timer is armed |
| BufferProgress.QuietMeansDone | processor/retroactivesampling/internal/buffer/buffer.go:192-485 | if neither has a step to take, no signal is coming and no timer is armed, then nothing is pending |
| BufferProgress.FuelAccounts | processor/retroactivesampling/internal/buffer/buffer.go:436-482 | every sweeper step but a wake-up burns fuel; only a commit adds any, no more than its group is worth |
| BufferProgress.SweeperComesToPark | processor/retroactivesampling/internal/buffer/buffer.go:436-482 | on any run the sweeper's steps from park to park are bounded by the ring and what is committed meanwhile |
| BufferProgress.SweeperFinishes | processor/retroactivesampling/internal/buffer/buffer.go:436-485 | once the writer is done the sweeper's steps are bounded, up to a bounded number for each wakeup token taken |
| BufferProgress.CloseLeadsToExit | processor/retroactivesampling/internal/buffer/buffer.go:489-493 | in every reachable closed state somebody has a step to take until the sweeper has exited; a parked sweeper sees that the writer is done |
| BufferWedge.LettersLookEarly | processor/retroactivesampling/internal/buffer/buffer.go:342-346 | a payload page of letters is taken for the header of a record longer than what is used |
| BufferWedge.Torn | processor/retroactivesampling/internal/buffer/buffer.go:329-331 | a reachable state after one large record with an all-zero ID: used is positive, no group is left, and the read head is inside the record |
| BufferWedge.WedgedForever | processor/retroactivesampling/internal/buffer/buffer.go:436-485 | from the state that Close then leads to, on every run the ring never empties and the sweeper never exits, although it always has a step |
| BufferWedge.ZeroIdWedges | processor/retroactivesampling/internal/buffer/buffer.go:318-331 | counterexample: one large record with an all-zero trace ID, which Write takes, makes Close never return |
| BufferShared.Copy | processor/retroactivesampling/internal/buffer/buffer.go:237 | as much of the source as fits is copied, the rest of the array stays |
| BufferShared.SharedRing.AwaitPageFreed | processor/retroactivesampling/internal/buffer/buffer.go:206-211 | what the writer relies on while parked: the sweeper keeps ring ownership and only frees room |
| BufferShared.SharedRing.WriterRuns | processor/retroactivesampling/internal/buffer/buffer.go:478-482 | what the sweeper relies on while parked: the writer only appends groups |
| BufferShared.SharedRing.WriteAt | processor/retroactivesampling/internal/buffer/buffer.go:213 | a page written at the head while room is claimed keeps ring ownership with one more page in flight |
| BufferShared.SharedRing.Publish | processor/retroactivesampling/internal/buffer/buffer.go:285-290 | the add makes the pages in flight the last committed group and signals the sweeper |
| BufferShared.SharedRing.WriteBack | processor/retroactivesampling/internal/buffer/buffer.go:423-425 | the head group now holds the given records, ownership kept |
| BufferShared.SharedRing.Release | processor/retroactivesampling/internal/buffer/buffer.go:462-468 | the head group is gone, used shrinks by its pages, the writer is signalled |
| WriterCode.PutHeader | processor/retroactivesampling/internal/buffer/buffer.go:234-236 | three stores put the 28 header bytes in place and nothing else |
| WriterCode.WriterLoop.Flush | processor/retroactivesampling/internal/buffer/buffer.go:203-224 | either the staged records become the last committed group of one page, or, with no room at shutdown, they are dropped |
| WriterCode.WriterLoop.StageRecord | processor/retroactivesampling/internal/buffer/buffer.go:234-239 | the staging array holds the encoding of the staged records and the new one |
| WriterCode.WriterLoop.LoadFirst | processor/retroactivesampling/internal/buffer/buffer.go:260-265 | the staging array holds the first page of the large record |
| WriterCode.WriterLoop.LoadNext | processor/retroactivesampling/internal/buffer/buffer.go:277-278 | the staging array holds page i of the large record |
| WriterCode.WriterLoop.WriteChunks | processor/retroactivesampling/internal/buffer/buffer.go:260-284 | the copying loop leaves exactly the pages of the record in flight, in order, across the wrap |
| WriterCode.WriterLoop.WriteLarge | processor/retroactivesampling/internal/buffer/buffer.go:248-290 | all pages are published by one add, as a group of one record, or the record is dropped |
| WriterCode.WriterLoop.Handle | processor/retroactivesampling/internal/buffer/buffer.go:226-291 | exact effect on what is published, staged and dropped, for each branch |
| WriterCode.HandledTook | processor/retroactivesampling/internal/buffer/buffer.go:226-291 | whatever branch handle takes, records go out in the order taken unless they are dropped, and none is lost or doubled |
| WriterCode.WriterLoop.RunWriter | processor/retroactivesampling/internal/buffer/buffer.go:293-315 | over any events and any leftover queue: published and dropped are together what was taken, in order if nothing is dropped, nothing is dropped before Close, and nothing stays staged |
| SweeperCode.ReachedSmall | processor/retroactivesampling/internal/buffer/buffer.go:398-420 | one turn of the loop moves the pass by one judged record whatever is observed later |
| SweeperCode.ClassifyLarge | processor/retroactivesampling/internal/buffer/buffer.go:335-346 | the first page of a committed large record is seen with its own page count, also when tombstoned |
| SweeperCode.LargeDeliveredIff | processor/retroactivesampling/internal/buffer/buffer.go:335-381 | of a large record with any ID, an interesting pass delivers the whole payload iff the ID is neither all-zero nor the tombstone |
| SweeperCode.PassOnLarge | processor/retroactivesampling/internal/buffer/buffer.go:335-381 | a pass over the first page of a committed large record reports and tombstones that record, or keeps it |
| SweeperCode.PassOnGroup | processor/retroactivesampling/internal/buffer/buffer.go:318-427 | a pass over the head group: callbacks, records left, consumed or not, and the page count to release |
| SweeperCode.SamePage | processor/retroactivesampling/internal/buffer/buffer.go:326-333 | two pages with the same bytes hold the same records |
| SweeperCode.GatherLen | processor/retroactivesampling/internal/buffer/buffer.go:359-364 | after i pages the gathered payload has min(length, i pages minus the header) bytes |
| SweeperCode.TakenAnswered | processor/retroactivesampling/internal/buffer/buffer.go:399-414 | a pass answers the records it takes out, in order, each delivery with its own payload, and leaves the others live |
| SweeperCode.SweeperLoop.ScanSmall | processor/retroactivesampling/internal/buffer/buffer.go:326-421 | the in-place loop over an array computes the pass on values for what it observed between two clock readings |
| SweeperCode.SweeperLoop.JudgeRecord | processor/retroactivesampling/internal/buffer/buffer.go:399-420 | one record: the callback, the tombstone or the remaining time |
| SweeperCode.SweeperLoop.GatherPayload | processor/retroactivesampling/internal/buffer/buffer.go:356-364 | the read loop returns the gathered payload of all pages |
| SweeperCode.SweeperLoop.ScanLarge | processor/retroactivesampling/internal/buffer/buffer.go:347-380 | the large-record branch computes the pass on values |
| SweeperCode.SweeperLoop.ScanPage | processor/retroactivesampling/internal/buffer/buffer.go:318-427 | processPage up to the write-back computes the pass on values, for any bytes on the page |
| SweeperCode.SweeperLoop.Iterate | processor/retroactivesampling/internal/buffer/buffer.go:449-468 | one turn of the main loop: callbacks, remaining records, least remaining time and release, for the records of the head group |
| SweeperCode.SweeperLoop.Drain | processor/retroactivesampling/internal/buffer/buffer.go:436-468 | after the writer is done the loop empties the ring and answers every live record once, in order, with its own payload |
| SweeperCode.SweeperLoop.RunSweeper | processor/retroactivesampling/internal/buffer/buffer.go:429-485 | over any number of wake-ups and bursts of the writer until it is done, every record that was there or arrived is answered by one callback, each delivery with its own ID and payload |
| Traces.SpansOfOnly | processor/retroactivesampling/split.go:24-52 | the tree of one trace holds exactly that trace's spans in input order; it is empty iff there is none |
| Traces.GroupsPartitionSpans | processor/retroactivesampling/split.go:10-55 | every span is in the tree of its own trace as often as in the input, and in no other |
| Split.NewSpan | processor/retroactivesampling/split.go:50 | appending one span keeps every scope node equal to what its trace has seen so far |
| Split.NewScope | processor/retroactivesampling/split.go:45-48 | a new scope node goes behind its earlier siblings |
| Split.NewResource | processor/retroactivesampling/split.go:38-44 | a new resource node goes behind its earlier siblings |
| Split.Grouper.Place | processor/retroactivesampling/split.go:26-50 | one span goes to its trace's tree through the three maps, making missing nodes on the way |
| Split.Grouper.Done | processor/retroactivesampling/split.go:24-54 | at the end the tree of each trace equals the input restricted to it |
| Split.GroupByTrace | processor/retroactivesampling/split.go:10-55 | keys are exactly the trace IDs present; each tree equals the input filtered to its ID: order, resources, scopes and schema URLs kept, empty nodes removed |
| Processor.Processor.Store | processor/retroactivesampling/processor.go:114-116 | a record is accepted at the end of the buffer's input or nothing changes; one that can never fit is refused |
| Processor.Processor.HandleGroup | processor/retroactivesampling/processor.go:87-116 | where one group goes, what is remembered and what is announced, for every decision, error and refusal |
| Processor.Processor.ProcessTraces | processor/retroactivesampling/processor.go:84-123 | every group of the call is forwarded, buffered as one record, or logged as lost, each exactly once; an empty output is skipped |
| Processor.Processor.OnMatch | processor/retroactivesampling/processor.go:125-135 | a payload that decodes reaches the next consumer, any other is only logged |
| Processor.Processor.OnDecision | processor/retroactivesampling/processor.go:137-140 | after a coordinator decision the trace counts as interesting, and covers spans whose window is still open |
| Processor.JoinAll | processor/retroactivesampling/processor.go:84-123 | the trees of all traces of a call hold exactly its spans |
| EndToEnd.RecordsDecode | processor/retroactivesampling/processor.go:108-114 | buffered records decode to the spans of their groups |
| EndToEnd.CallConserves | processor/retroactivesampling/processor.go:84-140 | every input span is in exactly one of: forwarded, one accepted record, a logged loss |
| EndToEnd.DeliveriesDecode | processor/retroactivesampling/processor.go:125-135 | what onMatch hands on are the spans of the delivered records |
| EndToEnd.NoSpanTwice | processor/retroactivesampling/processor.go:84-140 | over any number of calls, also concurrent ones, interleavings and decisions, forwarded and delivered spans together are at most the input: no span twice |
| EndToEnd.OneCall | processor/retroactivesampling/processor.go:84-123 | what one run of processTraces forwards and stores is such a call |
| Evaluator.FlatNeverNests | processor/retroactivesampling/internal/evaluator/util.go:30-44 | in a policy whose sub-policies are leaves the nested-drop errors never occur; only drop drops; only leaves sample locally |
| Evaluator.BuildSubs | processor/retroactivesampling/internal/evaluator/registry.go:79-89 | the loop succeeds iff every sub-policy can be built, and keeps their order |
| Evaluator.BuildPolicy | processor/retroactivesampling/internal/evaluator/registry.go:24-35 | which settings can be built, what they make, and that the result is flat |
| Evaluator.Build | processor/retroactivesampling/internal/evaluator/registry.go:12-22 | Build succeeds iff every policy can be built; the chain keeps their order and is flat |
| Evaluator.BuiltNeverNests | processor/retroactivesampling/internal/evaluator/not.go:17-32 | no chain that Build makes reports a nested drop policy |
| Evaluator.NestingIsRefused | processor/retroactivesampling/internal/evaluator/util.go:39-40 | the error exists: a drop inside an and, which Build refuses |
| Evaluator.LocalDecisionsAgree | processor/retroactivesampling/internal/evaluator/evaluator.go:21-32 | if one collector gets SampledLocal from policy k, another samples its part iff nothing before k drops that part or fails on it; so all agree without drops and errors |
| Evaluator.DropBreaksAgreement | processor/retroactivesampling/internal/evaluator/drop.go:13-19 | counterexample: in a chain that Build makes, a drop policy on latency makes one collector drop what another samples locally |
| Evaluator.GroupIsPart | processor/retroactivesampling/internal/evaluator/probabilistic.go:30-48 | every group that groupByTrace makes is non-empty and starts with a span of its trace |
| Sampling.HashBytes | processor/retroactivesampling/internal/evaluator/probabilistic.go:54-61 | the byte-wise hasher computes the bucket, a function of seed and trace ID below 16384 |
| Sampling.ThresholdBounds | processor/retroactivesampling/internal/evaluator/probabilistic.go:22-27 | with the float64 scale factor and any rounding: 0 per cent samples none, 100 per cent all, and raising the percentage keeps every sampled trace |
| Latency.Evaluate | processor/retroactivesampling/internal/evaluator/latency.go:19-35 | the nested loops with early exit and running minimum and maximum compute LatencySampled of the span sequence |
| Latency.VisitsInOrder | processor/retroactivesampling/internal/evaluator/util.go:46-57 | the nested loops visit the spans in the order of the flattened sequence |
| Latency.SampledIffSomeWindow | processor/retroactivesampling/internal/evaluator/latency.go:19-35 | for all inputs: sampled iff some running window matches, where a span with start 0 restarts the window |
| Latency.WholeTraceLatency | processor/retroactivesampling/internal/evaluator/latency.go:29-31 | with start times set and no upper threshold: sampled iff some span ends at least the threshold after some span starts, in any order |
| Latency.PrefixLatency | processor/retroactivesampling/internal/evaluator/latency.go:29-33 | with an upper threshold: sampled iff the window of some non-empty prefix lies in (lower, upper] |
| Latency.AgreesIff | processor/retroactivesampling/internal/evaluator/latency.go:23-28 | for one order of the spans: the filter agrees with the whole trace at every threshold iff some running window is as long as the whole |
| Latency.AgreesInEveryOrderIff | processor/retroactivesampling/internal/evaluator/latency.go:23-31 | the filter agrees with the whole trace in every order of the spans iff all have start times, or one that ends in the last millisecond makes the trace as long as from time 0 |
| Latency.WorstOrder | processor/retroactivesampling/internal/evaluator/latency.go:23 | otherwise there is an order in which it does not agree |
| Latency.SameInEveryOrder | processor/retroactivesampling/internal/evaluator/latency.go:29-31 | with start times set any order gives the same answer at every threshold |
| Latency.ZeroStartBreaksOrder | processor/retroactivesampling/internal/evaluator/latency.go:23 | counterexample: with a zero start time the decision depends on the order of the spans |
| StringFilter.Matcher.Get | processor/retroactivesampling/internal/evaluator/string_attribute.go:35 | a hit returns the stored answer and moves it to the front; a miss changes nothing |
| StringFilter.Matcher.Add | processor/retroactivesampling/internal/evaluator/string_attribute.go:40-44 | the new answer goes in front and the oldest goes out when there are too many |
| StringFilter.Matcher.Match | processor/retroactivesampling/internal/evaluator/string_attribute.go:34-46 | whatever has been evicted, the answer is whether some filter matches |
| StringFilter.Matcher.MatchAll | processor/retroactivesampling/internal/evaluator/string_attribute.go:34-46 | the same over any sequence of lookups |
| StringFilter.Matcher.Evaluate | processor/retroactivesampling/internal/evaluator/string_attribute.go:62-74 | sampled iff a resource attribute matches or a non-empty span attribute matches |
| StringFilter.ExactValues | processor/retroactivesampling/internal/evaluator/string_attribute.go:49-54 | the exact matcher accepts the given values without the empty one |
| StreamServer.Stream.Push | coordinator/server/server.go:137-143 | a broadcast to a stream is queued or counted as dropped |
| StreamServer.Stream.Take | coordinator/server/server.go:76-83 | one queued ID joins the batch; a batch of 256 goes out at once; accepted IDs keep their order |
| StreamServer.Stream.Finish | coordinator/server/server.go:86-90 | at the end what is queued is counted, the batch in hand is not |
| StreamServer.Stream.Run | coordinator/server/server.go:53-131 | under any schedule: accepted = sent batches, batch in hand, queue, in order; after the end all but a partial batch of at most 255 is sent or counted |
| StreamServer.LosesUncounted | coordinator/server/server.go:86-91 | a concrete schedule that loses an ID without any counter noticing |
| StreamServer.Server.Broadcast | coordinator/server/server.go:134-146 | every registered stream either queues the ID or has it counted as dropped |
| StreamServer.Server.Register | coordinator/server/server.go:54-59 | a new stream joins the map with an empty queue and nothing in hand |
| StreamServer.Server.Unregister | coordinator/server/server.go:62-69 | a stream leaves the map before its sender is told to end |
| PubSub.MemoryPubSub.Publish | coordinator/memory/pubsub.go:22-28 | the handler is called iff the ID has no unexpired entry |
| PubSub.MemoryPubSub.PublishAll | coordinator/memory/pubsub.go:22-28 | over any calls: each is answered by a broadcast of its trace that still holds, and broadcasts of a trace are a TTL apart |
| PubSub.LogLater | coordinator/redis/pubsub.go:60-63 | setting an undecided ID keeps equal IDs a TTL apart in the log |
| PubSub.RedisPubSub.Publish | coordinator/redis/pubsub.go:55-71 | published on the channel iff the key was newly set, the answer came back and the second command got through; the key stays set also when the answer is lost; errors as returned |
| PubSub.CrashBlocksRetry | coordinator/redis/pubsub.go:56-58 | a failure or a lost answer between the two commands blocks every coordinator's retry for a TTL |
| PubSub.ProxyPubSub.Publish | coordinator/proxy/pubsub.go:65-73 | never novel; queued unless the buffer is full |
| PubSub.ProxyPubSub.Receive | coordinator/proxy/pubsub.go:122-135 | every decision of a batch is handed on, in order |
| PubSub.Client.Receive | processor/retroactivesampling/internal/coordinator/client.go:104-116 | of a batch exactly the 16-byte IDs are handed on, in order |
| Reconnect.Loop.ProxySend | coordinator/proxy/pubsub.go:137-154 | send returns nil iff its select takes a done context after Close; it fails on a failed Send or when the stream ends first; at most one ID is lost, and only by a failed Send |
| Reconnect.Loop.ClientConnect | processor/retroactivesampling/internal/coordinator/client.go:83-136 | connect returns nil iff its select takes the cancelled context; it fails when dialing, Send or Recv fails |
| Reconnect.Loop.RunProxy | coordinator/proxy/pubsub.go:80-120 | over any events the waits are min(2^n, 30) seconds; the reset branch is taken iff a live stream's select saw Close, and then the loop returns without another wait; no more IDs are lost than there were waits |
| Reconnect.Loop.RunClient | processor/retroactivesampling/internal/coordinator/client.go:57-81 | the same with min(2^n, 32) seconds |
| Reconnect.ClientDoubles | processor/retroactivesampling/internal/coordinator/client.go:71-74 | doubling below 30 gives 1, 2, 4, 8, 16, 32 and then 32 for ever |
| KeepTree.DecideOnce | coordinator/redis/pubsub.go:59-71 | newly setting an ID makes one new publication and no second one for an earlier |
| KeepTree.DownOnce | coordinator/server/server.go:134-146 | relaying a decision to children gives no child more copies than its parent handled |
| KeepTree.InvKept | coordinator/proxy/pubsub.go:66-154 | every step of the protocol keeps: only notified IDs travel, publications of an ID are a TTL apart, decisions do not multiply |
| KeepTree.HandledOnce | coordinator/proxy/pubsub.go:122-135 | at any depth of the tree a node handles a publication at most once |
| KeepTree.KeepDecisionsAreSafe | processor/retroactivesampling/internal/coordinator/client.go:96-118 | every decision handed to a collector is of a trace some collector notified, at most once per publication, and repeats of a trace stem from publications a TTL apart |

## Left out

- File opening, locking, truncation, permissions and every I/O error path (buffer.go:79-93, 213-215, 449-458): the code itself takes failures as out of scope.
- BufferTheorems.ExactlyOneOutcome: is about records whose trace ID is neither all-zero nor the tombstone; for the others it is false, see EveryRecordAnsweredIff, LargeDeliveredIff and ZeroIdWedges.
- BufferTheorems.ParkedSweeperMissesNothing: says that a timer is armed and by when, not that the operating system fires it; that a token is taken eventually is left to the Go scheduler.
- BufferShutdown.WriterStops: bounds the number of steps; that a runnable goroutine is run is left to the scheduler.
- BufferProgress.SweeperFinishes: while the writer is done, a select that finds both a wakeup token and the closed channel may take the token; how often is left to the scheduler, each time costs boundedly many steps.
- SweeperCode.SweeperLoop.RunSweeper: the writer runs while the sweeper is parked and between two turns, not inside a turn; the two-process machine has it at every step.
- WriterCode.WriterLoop.RunWriter: the select on channel and ticker is given as a sequence of events; which event comes when is arbitrary.
- Processor.Processor.HandleGroup: a lookup and the following AddInterest are separate, as in the code, but other callers of the index do not run between them here.
- EndToEnd.NoSpanTwice: assumes that encoded trees decode to themselves; Protobuf is not part of this model.
- The 50 ms ticker and the 5 ms batch timer: they may fire at any time.
- Span, status, boolean, numeric, trace-state, trace-flag and OTTL conditions: arbitrary conditions that may fail; only the string filter is modelled, with regular expressions as arbitrary predicates. Non-string attribute values count as the empty string.
- Sampling.ThresholdBounds: the rounding of the product is any function that keeps the order and the integers up to 2^53; that float64 rounds to nearest is not used.
- Sampling.HashBytes: the low 14 bits are taken as a remainder.
- Latency.WholeTraceLatency: timestamps from 2^63 ns on, which AsTime makes negative, are covered by `SampledIffSomeWindow` only.
- KeepTree.KeepDecisionsAreSafe: each child holds one live stream; queue bounds appear as arbitrary loss; delivery is not promised, because the protocol does not promise it.
- PubSub.RedisPubSub.Publish: retries inside the Redis client library; each command has one outcome.
- PubSub.MemoryPubSub.Publish: the cache's expiry is taken at the exact end of the TTL; its clean-up goroutine only removes expired entries and is left out.
- gRPC, TLS, Redis connections, headers, keepalive, configuration parsing, metrics and logging.
- `cmd/tracegen` and the designs under `docs/superpowers`, which the code no longer follows.
