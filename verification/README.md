# Verified model of the DEEPX PCIe driver's transfer and recovery core

A Dafny 4.11 model of the hard parts of the DEEPX NPU Linux driver: the scatter-gather streaming engine of `pci_deepx`,
and the state machines around it that decide when a transfer may report success and when a device may be declared ready.
Check everything with `dafny verify dfyconfig.toml`.

## What is modelled

**From scatter-gather list to executed copy.** `Copy.dfy` gives two independent meanings: `CopyOf`, the bytes a mapped
list asks to be moved against one contiguous device range, and `Denote`, the bytes a burst list moves. `BurstPool.dfy`
is the array-backed pool of bursts, `Chunks.dfy` fills a chunk from a list cursor and writes it out, and
`DescriptorTable.dfy` merges, emits and executes descriptor tables.

**The streaming protocol.** `Streaming.dfy` is one channel and one descriptor as a state machine. An action is one
`vc.lock` critical section, one unlocked worker phase (fill, prebuild, copy, prepare), one status read with its handler,
or one table element fetched by the engine. Launch worker, Done interrupt, Done replay, abort interrupt, stop request,
shadow worker, lazy worker, descriptor release and deferred cleanup interleave freely; fills stop wherever storage may
run out, allocations, copies and launches fail at will, and failed copies leave arbitrary table contents.
`StreamingInvariant.dfy` states what every reachable state satisfies; `StreamingLaunch.dfy`, `StreamingShadow.dfy` and
`StreamingRefill.dfy` show, one branch at a time, that every action keeps it; `StreamingSafety.dfy` and
`StreamingTheorems.dfy` draw the conclusions over whole runs; `StreamingOverrun.dfy` shows what an unsafe table copy
leads to; `StreamingDecisions.dfy` says what each step decides, `StreamingErrors.dfy` which errors have causes, and
`StreamingProgress.dfy` that every transfer can complete; `StreamingWitness.dfy` holds concrete runs.

**Around it.** `TransferWait.dfy` is the epoch-guarded wait of a transfer, read by read; `Recovery.dfy` the runtime
recovery of a device as a state machine, and `RecoveryWorker.dfy` its readiness worker with the polling loops, read by
read; `RateWindow.dfy` the tumbling windows of the recovery limiter and of the permanent-failure guard;
`ResponseRing.dfy` the response pool; `PageSplit.dfy` the splitting of user buffers; `EndpointReset.dfy` the reset loop.
`Basics.dfy` and `Observe.dfy` are shared vocabulary.

## Main results

- In every state of every run whose table copies were safe, whatever is aborted, stopped or fails, what the engine has
  moved is a prefix of the copy the list asks for (`ExecutedIsPrefix`); if the run completes without abort, stop or
  error it is the whole copy (`CompletedTransferIsExact`). In every run that completes so, safe or not, the launched
  chunks cover the list once and in order (`CompletedLaunchesCover`). Copies are safe in every run of the single-chunk
  and lazy modes, and in every run in which Done is raised only by a stopped engine (`StoppedCopiesAreSafe`). The first
  unsafe copy of any other run, if it succeeds and its launch is not cancelled, can be followed by steps that move bytes
  twice (`UnsafeCopyRepeats`).
- In every run the one device table is rewritten only while no chunk is in flight, and at every doorbell it holds
  exactly the launched chunk; with safe copies a running engine executes exactly the rest of that chunk
  (`TableChangesOnlyWhenIdle`, `DoorbellTableIsExact`, `RunningTableIsExact`).
- In every run every chunk has exactly one owner and is freed once, every launch is accounted at most once and in order,
  change bits alternate, and pool bursts are conserved (`EveryChunkOwnedOnce`, `ReleaseReturnsEverything`,
  `EachLaunchAccountedOnce`, `ChangeBitsAlternate`).
- In every run the doorbell is rung exactly by the steps that may (`LaunchesIff`), what completes, fails or aborts is
  decided exactly (`StepsDecide`), and every prepared transfer with addressable entries can complete in each mode
  (`EveryTransferCanComplete`).
- A transfer reports success if and only if its wait ends in completion and the last look shows an unmoved recovery epoch,
  no error, a complete cookie and no abort (`SgProcess`, `SuccessMeansSameEpoch`). After a link loss or firmware reboot a
  device is READY again only through a later pass with the proof that event calls for, gathered under an unmoved epoch
  (`RestartIsAnswered`, `ReadyIsProven`, `ReadyWork`), and PERM_FAIL holds exactly as the window demands and for good
  (`PermFailWhen`, `PermFailIsForever`).

## Findings

- The merge pass of `write_chunk` looks at the host side only and adds 32-bit sizes. It preserves the copy if and only
  if every host-contiguous run of bursts has at most 2^32 - 1 bytes (`MergePreservesCopyIff`); `MergeCanWrap` is a list
  on which bytes are lost. Chunks filled from a list of at most 2^32 - 1 bytes are always safe, and with positive
  lengths the pass changes nothing.
- The shadow worker copies the next table on the strength of the Done status alone, whereas the lazy worker waits until
  the channel has stopped and warns when Done came first (modules/pci_deepx/dw-edma-core.c:994-1026). A copy under an
  engine that has still to read its terminator lets it run on if and only if both chunks have equally many bursts
  (`CopyOverrunsIff`): it then takes the new terminator for a link, executes the new chunk before its doorbell, and once
  more after it. `EarlyCopyMovesTwice` is a run over two chunks of two bursts each in which this happens.
- "No worker pass fills a filled shadow chunk" holds in every run without abort if Done is raised only by a stopped
  engine, and otherwise in every run without abort and stop request (`NoFillOfFilled`). With a Done status that comes
  before the engine has stopped, a stop request can still be placed; the worker then leaves the built chunk behind in
  state idle, and the pass the interrupt has queued can make another successful fill of it (`StopCanFillAgain`); an
  abort that follows the Done interrupt does the same (`AbortCanFillAgain`). `FillsAgainIff` says exactly when a pass
  can: the chunk is in state idle or cancelled, it has room, and the next entries pass the fill's address test as far as
  the fill goes (`Chunks.CanFillIff`). Such a chunk is never launched: every chunk launched in any run is an exact copy
  of its slice (`DoorbellTableIsExact`).
- A Done interrupt queues the shadow work. A work item that is running can be queued again, although a comment in the
  worker (modules/pci_deepx/dw-edma-core.c:1416-1418) says that it cannot. If Done comes while the worker is busy with the
  last build, the worker launches the chunk itself, and the pass left over finds no shadow chunk and raises an error while
  that chunk is in flight: every shadow transfer can fail in this way although nothing does (`HealthyTransferCanFail`).
  This is the only error without a cause (`ErrorsAreCaused`), and there is none if every Done finds the worker at rest
  (`NoErrorAtRest`).
- The limiter's comment promises at most `DX_RECOVERY_MAX_IN_WINDOW` recoveries within `DX_RECOVERY_WINDOW_SECS`. For
  every maximum an interval of that length can hold twice as many (`TwiceTheMaximumHappens`), and not more; it holds
  more than the maximum only if the limiter restarts its window inside the interval (`RecoveryAttemptsBounded`).
- Page splitting computes piece sizes from the low 32 bits of the remaining length. It succeeds exactly for lengths
  below 2^32 (and, for a length of zero, only on an unaligned address, with one empty piece); longer buffers end in the
  trailing length check (`MapUserBuf`).

## Model

| member | source | states |
|---|---|---|
| `BurstPool.BurstPool.constructor` | modules/pci_deepx/dw-edma-mem.c:728-790 | every index starts free, none is handed out |
| `BurstPool.BurstPool.AllocFromPool` | modules/pci_deepx/dw-edma-mem.c:121-139 | pops the top free index, which nobody held, or fails exactly when the pool is empty |
| `BurstPool.BurstPool.AllocBatch` | modules/pci_deepx/dw-edma-mem.c:368-405 | pops the free stack, top first, as far as the request and the stack go; the indices are distinct and nobody held them |
| `BurstPool.BurstPool.FreeOne` | modules/pci_deepx/dw-edma-mem.c:236-259 | a held index returns to the free list; the capacity guard never drops it |
| `BurstPool.BurstPool.FreeBatch` | modules/pci_deepx/dw-edma-mem.c:261-302 | exactly the pooled slots of the batch return, dynamic ones do not |
| `BurstPool.PoolConserved` | modules/pci_deepx/dw-edma-mem.c:121-405 | over any sequence of takes, gives and hand-overs, free and held indices stay distinct, in range, disjoint and together the pool size |
| `BurstPool.AllReturned` | modules/pci_deepx/dw-edma-mem.c:304-366 | once nothing is held, the free list is a permutation of the whole pool |
| `BurstPool.TakeRecorded` | modules/pci_deepx/dw-edma-mem.c:368-405 | whatever a batch allocation does to the pool is what the ledger of `PoolConserved` records as a take |
| `BurstPool.GiveRecorded` | modules/pci_deepx/dw-edma-mem.c:236-259 | so it is for a free, whoever holds the index |
| `Chunks.AllocBurst` | modules/pci_deepx/dw-edma-mem.c:199-234 | links an empty burst (the anchor first), from the pool or dynamically, owning exactly the new index |
| `Chunks.FreeBurst` | modules/pci_deepx/dw-edma-mem.c:304-366 | every burst and the anchor return to the pool and the chunk is empty |
| `Chunks.AddSgMeans` | modules/pci_deepx/dw-edma-core.c:731-789 | adding an entry, merged or not, adds exactly its copy and keeps the device side contiguous |
| `Chunks.AddSgSeparated` | modules/pci_deepx/dw-edma-core.c:731-752 | with positive lengths and at most 2^32 - 1 bytes, neighbouring bursts never touch on the host side |
| `Chunks.FillSgBursts` | modules/pci_deepx/dw-edma-core.c:791-865 | on any anchored chunk, whatever runs out first: the list is the old one with the consumed entries added in turn, each addressable; on a list that ends where the entries start it denotes exactly their copy; cursor and 32-bit byte count agree, unused batch indices return, `bursts_alloc` never exceeds `ll_max`; it stops short only at an entry that needs a burst of its own; failure leaves the cursor and means that an entry asked for is not addressable or the list too short; no progress only for nothing to do or no storage |
| `Chunks.ConsumedMeans` | modules/pci_deepx/dw-edma-core.c:814-849 | entries added in turn to a list that ends where they start denote exactly their copy, once and in order |
| `Chunks.FillNext` | modules/pci_deepx/dw-edma-core.c:879-921 | an anchor, or an empty burst behind the bursts of a chunk that is filled already, and then the entries; the 32-bit byte count grows by exactly the entries added, also by those added before one that is not addressable makes the fill fail; 0 on every failure, and with storage only if nothing is wanted or the entries wanted are not addressable |
| `Chunks.CanFillIff` | modules/pci_deepx/dw-edma-core.c:810-849 | such a fill can succeed if and only if all entries wanted are addressable, or those before an addressable entry that does not continue its predecessor on the host side, where storage may run out |
| `Chunks.PrepareFirstChunk` | modules/pci_deepx/dw-edma-core.c:2248-2322 | the first chunk denotes exactly the consumed prefix and stops only at the end of the list or with the table full; it succeeds for every addressable list if storage lasts |
| `Chunks.MergeBursts` | modules/pci_deepx/dw-edma-v0-core.c:1443-1468 | the in-place merge computes `Merge`, and merged-away bursts return to the pool |
| `Chunks.EmitTable` | modules/pci_deepx/dw-edma-v0-core.c:1470-1488 | the host buffer starts with the table of the list and is otherwise untouched |
| `Chunks.WriteChunk` | modules/pci_deepx/dw-edma-v0-core.c:1418-1499 | error cases change nothing; otherwise merge and emission, with the count equal to the list length |
| `Chunks.WrittenChunkMeans` | modules/pci_deepx/dw-edma-v0-core.c:1443-1468 | a filled and written chunk denotes exactly its slice of the list, and with positive lengths the merge changed nothing |
| `DescriptorTable.MergePreservesCopyIff` | modules/pci_deepx/dw-edma-v0-core.c:1443-1468 | the host-side merge preserves the copy of a device-contiguous list if and only if every host-contiguous run fits 32 bits |
| `DescriptorTable.MergeCanWrap` | modules/pci_deepx/dw-edma-v0-core.c:1460-1461 | a concrete list on which the 32-bit size wraps and bytes are lost |
| `DescriptorTable.MergeUnchanged` | modules/pci_deepx/dw-edma-v0-core.c:1443-1468 | a list whose neighbours do not touch on the host side is left as it is |
| `DescriptorTable.SmallListFits` | modules/pci_deepx/dw-edma-v0-core.c:1443-1468 | lists of at most 2^32 - 1 bytes meet the condition |
| `DescriptorTable.EngineExecutesEmitted` | modules/pci_deepx/dw-edma-v0-core.c:430-499 | whatever stale elements follow, the engine executes exactly the list in order and stops at the terminator, which toggles the change bit and links to the start of the region; only the last element raises interrupts |
| `DescriptorTable.CopiedRangeFits` | modules/pci_deepx/dw-edma-core.c:3011-3015 | up to `ll_max` bursts and the terminator fit the descriptor region |
| `StreamingFacts.FillNextAllowed` | modules/pci_deepx/dw-edma-core.c:879-921 | what the imperative fill leaves, of an empty chunk or of a filled one, is a fill step of the protocol, and the build's byte count becomes the one it returns |
| `StreamingFacts.FillNextRefused` | modules/pci_deepx/dw-edma-core.c:906-913 | so is a fill that fails, with the bytes of the entries it had added |
| `StreamingFacts.FreshFill` | modules/pci_deepx/dw-edma-core.c:955-992 | and on an empty chunk such a step consumes its entries exactly |
| `StreamingSafety.InitInv` | modules/pci_deepx/dw-edma-core.c:2154-2325 | a prepared descriptor satisfies the protocol invariant in every mode |
| `StreamingSafety.LaunchStepKeeps` | modules/pci_deepx/dw-edma-core.c:1678-1871 | issue, launch worker and first stop request keep the invariant |
| `StreamingSafety.DoneStepKeeps` | modules/pci_deepx/dw-edma-core.c:2491-2588 | both ways of noticing a completion keep the invariant, in every shadow and lazy state |
| `StreamingSafety.EngineStepKeeps` | modules/pci_deepx/dw-edma-core.c:2572-2760 | element fetch, Done, replay, abort and error keep the invariant |
| `StreamingSafety.BuildStepKeeps` | modules/pci_deepx/dw-edma-core.c:1283-1454 | the shadow worker up to publishing keeps the invariant |
| `StreamingSafety.HandStepKeeps` | modules/pci_deepx/dw-edma-core.c:1366-1615 | the stopped-channel handoff, the re-check, precopy, swap and launch keep the invariant |
| `StreamingSafety.RefillStepKeeps` | modules/pci_deepx/dw-edma-core.c:1028-1172 | the lazy worker keeps the invariant |
| `StreamingSafety.ReleaseStepKeeps` | modules/pci_deepx/dw-edma-mem.c:561-603 | descriptor release and deferred cleanup keep the invariant |
| `StreamingSafety.StepKeeps` | modules/pci_deepx/dw-edma-core.c:1028-1615 | every action keeps the invariant; it changes the table, or launches, only with no chunk in flight; only the copy of the shadow table can make the engine run on |
| `StreamingSafety.RunKeeps` | modules/pci_deepx/dw-edma-core.c:1028-1615 | every state of every run satisfies the invariant |
| `StreamingSafety.CopyOverrunsIff` | modules/pci_deepx/dw-edma-v0-core.c:1976-2083 | in every reachable state, a copy of the shadow table under a running engine lets it run on if and only if the new chunk has as many bursts as the one it is at the end of |
| `StreamingSafety.SafeRun` | modules/pci_deepx/dw-edma-core.c:1455-1462 | in every run the engine has never run on if and only if every copy of the shadow table was safe |
| `StreamingSafety.StoppedCopiesAreSafe` | modules/pci_deepx/dw-edma-core.c:994-1026 | copies are safe in every run outside shadow mode, and in shadow mode if Done is raised only by a stopped engine |
| `StreamingSafety.CompletedTransferIsExact` | modules/pci_deepx/dw-edma-core.c:2491-2570 | in every run with safe copies that completes the cookie without abort, stop or error, the engine executed exactly the copy the list asks for, once and in order |
| `StreamingTheorems.CompletedLaunchesCover` | modules/pci_deepx/dw-edma-core.c:2491-2570 | in every run, with safe copies or not, that completes the cookie without abort, stop or error, the launched chunks denote exactly the copy the list asks for, once and in order, and each was accounted |
| `StreamingTheorems.ExecutedIsPrefix` | modules/pci_deepx/dw-edma-core.c:1028-1615 | in every state of every run whose copies were safe so far, also after aborts, stops and errors, what the engine has moved is a prefix of the copy the list asks for |
| `StreamingOverrun.UnsafeCopyRepeats` | modules/pci_deepx/dw-edma-core.c:1455-1576 | the first unsafe copy of any run, unless cancelled, can be followed by five steps after which what was moved is no prefix of the copy |
| `StreamingOverrun.TwiceIsNoPrefix` | modules/pci_deepx/dw-edma-core.c:764-789 | no copy of any list contains a non-empty burst twice in a row |
| `StreamingTheorems.TableChangesOnlyWhenIdle` | modules/pci_deepx/dw-edma-core.c:1455-1462 | in every run the single device table changes only while no chunk is in flight; with safe copies the engine is then done with it; outside shadow mode, or if Done is raised only by a stopped engine, it is not running at all |
| `StreamingTheorems.RunningTableIsExact` | modules/pci_deepx/dw-edma-v0-core.c:1854-1930 | in every state, after safe copies, with the engine running, the table makes it execute exactly the rest of the last launched chunk and stop, and exactly the earlier chunks and the fetched part of this one were executed |
| `StreamingTheorems.FetchStops` | modules/pci_deepx/dw-edma-v0-core.c:487-499 | the reading of tables agrees with the fetching engine: an element with the other change bit stops it |
| `StreamingTheorems.FetchConsumes` | modules/pci_deepx/dw-edma-v0-core.c:430-447 | and a burst with its own change bit is executed, and the rest follows |
| `StreamingTheorems.DoorbellTableIsExact` | modules/pci_deepx/dw-edma-v0-core.c:2085-2107 | in every run, at every doorbell the engine would execute exactly the launched chunk and stop, and the chunk is an exact copy of its slice |
| `StreamingTheorems.EveryChunkOwnedOnce` | modules/pci_deepx/dw-edma-core.c:1461-1614 | in every reachable state every allocated chunk is in exactly one place (owner, cleanup list or freed), and pool bursts are conserved |
| `StreamingTheorems.ReleaseReturnsEverything` | modules/pci_deepx/dw-edma-mem.c:497-656 | after release and cleanup every chunk was freed exactly once and the pool is full |
| `StreamingTheorems.EachLaunchAccountedOnce` | modules/pci_deepx/dw-edma-core.c:1366-1433 | in every run, completions are accounted in launch order, each at most once, by interrupt or handoff; without abort only an outstanding last launch is unaccounted, and on clean completion none |
| `StreamingTheorems.ChangeBitsAlternate` | modules/pci_deepx/dw-edma-core.c:970-971 | over any number of refills in either mode, consecutive launches have opposite change bits |
| `StreamingTheorems.LaunchesAdvance` | modules/pci_deepx/dw-edma-core.c:955-992 | in every run each launch takes up where the previous one ended and strictly advances, so there are at most as many launches as entries; in clean runs `alloc_sz` is the bytes of the launched chunks |
| `StreamingDecisions.LaunchesIff` | modules/pci_deepx/dw-edma-core.c:1774-1871 | in every run a step rings a doorbell if and only if: no abort and no stop request; in the launch worker also no error, a live device, a busy channel and the chunk that was prepared; in the shadow worker also a live device and no cancelled build; in the refill also no error and the descriptor still being refilled |
| `StreamingDecisions.StepsDecide` | modules/pci_deepx/dw-edma-core.c:1192-1251 | in every run, exactly which steps launch, complete the cookie, raise an error, record an abort, make the channel busy or idle, take or consume a stop request, or queue a pass of the shadow worker; and that a worker's error gives up the rest of the list |
| `StreamingDecisions.BusyWhileIssued` | modules/pci_deepx/dw-edma-core.c:2491-2570 | in every state of every run the channel is busy if and only if the descriptor is issued, and a stop is requested only then |
| `StreamingErrors.ErrorsAreCaused` | modules/pci_deepx/dw-edma-core.c:1299-1304 | in every run in which nothing has failed, a step that does not fail itself raises an error or an abort if and only if it is a shadow pass that begins with no chunk left, and then the whole list was launched before |
| `StreamingErrors.NoErrorAtRest` | modules/pci_deepx/dw-edma-core.c:1416-1430 | if moreover every Done finds the shadow worker at rest, no error is ever raised |
| `StreamingProgress.EveryTransferCanComplete` | modules/pci_deepx/dw-edma-core.c:2491-2570 | from every prepared descriptor whose entries behind the first chunk are addressable, in each mode and for either order of Done and stop, a run in which nothing fails goes through all launches to a clean completion |
| `StreamingProgress.HealthyTransferCanFail` | modules/pci_deepx/dw-edma-core.c:1299-1304 | in shadow mode each of them also has a run in which nothing fails and a surplus pass raises an error while the last chunk is in flight |
| `StreamingTheorems.NoFillOfFilled` | modules/pci_deepx/dw-edma-core.c:1306-1330 | without abort no fill meets a filled shadow chunk: in every run if Done is raised only by a stopped engine, otherwise in every run without stop request |
| `StreamingTheorems.FillsAgainIff` | modules/pci_deepx/dw-edma-core.c:879-921 | a pass that finds a filled chunk can fill it successfully again if and only if the state is idle or cancelled and the next entries pass the address test of `CanFillIff`; for every list this needs an addressable entry and room for the empty burst and one more, and if all entries left are addressable, idle or cancelled and room are enough |
| `StreamingWitness.StopCanFillAgain` | modules/pci_deepx/dw-edma-core.c:1493-1501 | a run without abort in which a stop request, placed while the engine has not stopped, leads to exactly that |
| `StreamingWitness.AbortCanFillAgain` | modules/pci_deepx/dw-edma-core.c:2688-2760 | a run without stop request in which an abort after the Done interrupt leads to the same |
| `StreamingWitness.EarlyCopyMovesTwice` | modules/pci_deepx/dw-edma-core.c:1455-1462 | a run over two chunks with equally many bursts after which what was moved is no prefix of the copy |
| `TransferWait.WaitDone` | modules/pci_deepx/dw-edma-thread.c:295-363 | the wait is a sequence of rounds, each with the counters, deadline, signal, flags and epoch read in order; it goes on exactly while they show nothing, and how it ends is decided by the first that does |
| `TransferWait.WaitMeans` | modules/pci_deepx/dw-edma-thread.c:295-363 | woken only by a flag that was read, interrupted only by a signal and if allowed, expired only for a new epoch or when the counters read the same over a whole timeout |
| `TransferWait.WaitIsPrompt` | modules/pci_deepx/dw-edma-thread.c:317-362 | within any fourteen reads that the wait goes on it has read both flags down and the epoch unchanged, and, while the counters do not move, the clock short of the timeout |
| `TransferWait.CheckDone` | modules/pci_deepx/dw-edma-thread.c:390-400 | an error exactly if another epoch or the error flag was read; otherwise completion exactly if the completion flag was |
| `TransferWait.LateCallback` | modules/pci_deepx/dw-edma-thread.c:444-485 | undecided exactly if the cookie is not complete; otherwise the first look that shows anything decides, and two that show nothing are an error |
| `TransferWait.StuckThenForce` | modules/pci_deepx/dw-edma-thread.c:567-604 | never success; a timeout exactly if the look after the graceful stop shows nothing |
| `TransferWait.HandleTimeout` | modules/pci_deepx/dw-edma-thread.c:621-646 | the first of the four stages that decides |
| `TransferWait.TimeoutMeans` | modules/pci_deepx/dw-edma-thread.c:621-646 | completion only after epoch, error flag and completion flag were read in order, and whenever they are, late or in the extra wait; a timeout if and only if the cookie was not complete, neither look showed anything and the channel showed no error |
| `TransferWait.SignalDrain` | modules/pci_deepx/dw-edma-thread.c:933-960 | waits until something is read, and gives up exactly after the bounded number of expired waits in a row |
| `TransferWait.Classify` | modules/pci_deepx/dw-edma-thread.c:895-986 | which result every course after the wait goes on with, and which are error exits |
| `TransferWait.SgProcess` | modules/pci_deepx/dw-edma-thread.c:814-1036 | returns 0 if and only if the device was live, the transfer submitted, the end of its wait means completion and the last look shows the captured epoch, no error, a complete cookie and no abort; in particular for a wait that is followed by those and the completion flag; a timeout exactly if the stages time out undisturbed; otherwise an I/O error |
| `TransferWait.SignalledSucceeds` | modules/pci_deepx/dw-edma-thread.c:933-970 | a transfer that completes after a signal goes on with result 0 if the looks before and after the drain are undisturbed |
| `TransferWait.SuccessMeansSameEpoch` | modules/pci_deepx/dw-edma-thread.c:993-997 | success means no epoch bump anywhere between capture and final re-check, and completion by the transfer's own callback |
| `ResponseRing.ResponsePool.constructor` | modules/pci_deepx/dx_message.c:772-777 | all slots unlinked, queue empty |
| `ResponseRing.ResponsePool.IsEmpty` | modules/pci_deepx/dx_message.c:187-201 | true exactly for the empty queue |
| `ResponseRing.ResponsePool.Enqueue` | modules/pci_deepx/dx_message.c:203-252 | appends, and when full drops exactly the oldest entry |
| `ResponseRing.ResponsePool.Dequeue` | modules/pci_deepx/dx_message.c:254-283 | removes and returns the oldest entry, or reports empty |
| `ResponseRing.ResponsePool.Clear` | modules/pci_deepx/dx_message.c:162-185 | unlinks every entry and rewinds the header |
| `ResponseRing.Unlink` | modules/pci_deepx/dx_message.c:227-231 | the pointer writes of `list_del_init` of any entry leave the doubly linked list of the others |
| `ResponseRing.LinkLast` | modules/pci_deepx/dx_message.c:235-235 | those of `list_add_tail` of an unlinked slot leave the list with the slot at its end |
| `ResponseRing.ReusedIsOldest` | modules/pci_deepx/dx_message.c:221-230 | the slot about to be reused is linked exactly when the ring is full, and then it is the head of the list |
| `ResponseRing.RunIsFifo` | modules/pci_deepx/dx_message.c:162-283 | over any mix of operations, what left followed by what waits is what entered, and never more than the pool size wait |
| `RateWindow.RecoveryAttemptsBounded` | modules/pci_deepx/dx_link_health.c:173-199 | over every sequence of requests, blocked after the check or not: at most the maximum per tumbling window, at most twice the maximum in any closed interval of one window length, and more than the maximum only if a window is restarted inside it |
| `RateWindow.TwiceTheMaximumHappens` | modules/pci_deepx/dx_link_health.c:173-193 | for every maximum and window length, requests of which an interval of one window length holds twice the maximum |
| `RateWindow.RecoveryLimiter.RecoveryWork` | modules/pci_deepx/dx_link_health.c:326-376 | past the first checks, one step of the limiter, blocked or not; an attempt exactly if nothing blocks it and the window is not spent, and the cooldown is set exactly if it is |
| `RateWindow.GivenUpWhen` | modules/rt/dxrt_drv_recovery.c:119-141 | given up only when `max` failures fall within one window length, and at the latest when `2 * max - 1` do |
| `Recovery.ReadyIsProven` | modules/rt/dxrt_drv_recovery.c:526-638 | READY is published only under an unmoved epoch, with the ready edge for processor reset and firmware update, the settling time for mapped legacy firmware, and otherwise the PONG of this pass's own sequence number |
| `Recovery.StepKeepsPass` | modules/rt/dxrt_drv_recovery.c:143-330 | every handler and worker step keeps the evidence of the current pass |
| `Recovery.RestartTakesEffect` | modules/rt/dxrt_drv_recovery.c:350-481 | in every run a link loss or firmware reboot outside PERM_FAIL starts a new epoch, records its own reason, closes the gate and leaves the device not READY; a link-up opens the transport and queues the worker; nothing else moves epoch or reason, and in PERM_FAIL nothing changes |
| `Recovery.RestartIsAnswered` | modules/rt/dxrt_drv_recovery.c:526-638 | after such an event the device is READY again only through a pass that began after it and ran under one epoch; without another event in between, that pass has shown what the reason of this event calls for |
| `Recovery.PassEndsWell` | modules/rt/dxrt_drv_recovery.c:143-330 | in every run a pass ends only overtaken, published, or with a counted failure; if not overtaken, it fails exactly when out of time, not ready or without a valid reply, and publishes when it gets to that; a reply counts only with acknowledgement, size, magic and own number |
| `Recovery.PermFailWhen` | modules/rt/dxrt_drv_recovery.c:119-141 | over every run of handlers and worker, both directions of when PERM_FAIL holds |
| `Recovery.PermFailIsForever` | modules/rt/dxrt_drv_recovery.c:344-348 | no link event, kick or readiness pass leaves PERM_FAIL |
| `Recovery.Device.LinkDown` | modules/rt/dxrt_drv_recovery.c:350-381 | outside PERM_FAIL starts a recovery: new epoch, reason, gate closed, worker cancelled; in PERM_FAIL nothing changes |
| `Recovery.Device.LinkUp` | modules/rt/dxrt_drv_recovery.c:387-407 | outside PERM_FAIL opens the transport and queues the worker without touching epoch or reason |
| `Recovery.Device.Kick` | modules/rt/dxrt_drv_recovery.c:441-487 | outside PERM_FAIL starts a recovery with the given reason and queues the worker |
| `Recovery.Device.PermFailCheck` | modules/rt/dxrt_drv_recovery.c:119-141 | one failure of the window, and PERM_FAIL exactly when it is given up |
| `Recovery.Device.HangExit` | modules/rt/dxrt_drv_recovery.c:643-655 | the worker's hang exit is the protocol's failure step |
| `RecoveryWorker.MailboxCycle` | modules/rt/dxrt_drv_recovery.c:143-205 | watches for the mailbox to drop and then to return, round by round, and ends exactly at the first round that shows it, a restart, or the end of the time |
| `RecoveryWorker.WatchDecides` | modules/rt/dxrt_drv_recovery.c:165-203 | what an undisturbed round reads decides: the change it watches for, or, with the time up, failure |
| `RecoveryWorker.LegacySettle` | modules/rt/dxrt_drv_recovery.c:222-241 | ends exactly when the window has elapsed or recovery was restarted |
| `RecoveryWorker.Ping` | modules/rt/dxrt_drv_recovery.c:254-330 | succeeds exactly if an acknowledgement comes in time and undisturbed, and the reply has the right size and magic and echoes the number drawn by this probe |
| `RecoveryWorker.PingDecides` | modules/rt/dxrt_drv_recovery.c:297-318 | acknowledged in time and undisturbed, it succeeds exactly with the right size, magic and number |
| `RecoveryWorker.AwaitMailbox` | modules/rt/dxrt_drv_recovery.c:552-599 | the wait the reason calls for: the full edge for processor reset and firmware update, a ready mailbox for a link flap, the settling window for legacy firmware |
| `RecoveryWorker.ReadyWork` | modules/rt/dxrt_drv_recovery.c:526-638 | which of leaving, declaring the firmware hung and publishing every sequence of reads leads to |
| `RecoveryWorker.PublishedProves` | modules/rt/dxrt_drv_recovery.c:526-638 | it publishes only after the ready edge where called for and the echo of its own number, or the settling time, and with the captured epoch and TRANSPORT_OK at the last check |
| `RecoveryWorker.PassDecides` | modules/rt/dxrt_drv_recovery.c:600-621 | and if no check finds recovery restarted, it publishes with proof and declares the firmware hung without |
| `RecoveryWorker.PublishedPassReplays` | modules/rt/dxrt_drv_recovery.c:526-638 | a published pass is one of the state machine: fed with what the pass read, the machine's worker reaches READY under the same epoch, having logged exactly that, which is the proof `ReadyIsProven` demands |
| `RecoveryWorker.PublishedUnderOneEpoch` | modules/rt/dxrt_drv_recovery.c:539-543 | with a growing epoch, it did not move between capture and the last check |
| `PageSplit.MapUserBuf` | modules/pci_deepx/dx_sgdma.c:66-151 | succeeds exactly for the mappable lengths with all pages pinned and no two neighbouring pages equal; then exactly `pages_nr` positive pieces, none crossing a page, contiguous from the buffer's first to its last byte; otherwise which error |
| `PageSplit.CoversIsWhole` | modules/pci_deepx/dx_sgdma.c:129-141 | such pieces are, byte for byte and in order, the buffer |
| `EndpointReset.Endpoint.RestoreMsi` | modules/pci_deepx/dw-edma-v0-core.c:1096-1135 | programs the first valid of snapshot, kernel cache and probe-time cache everywhere, or refuses and changes nothing cached |
| `EndpointReset.ChosenIsFirstValid` | modules/pci_deepx/dw-edma-v0-core.c:1025-1124 | the message programmed after a reset is the first valid one of configuration space (or the cache, if that is unreadable), kernel cache and probe-time cache, and none exactly if no source has one |
| `EndpointReset.Endpoint.Reprogram` | modules/pci_deepx/dw-edma-v0-core.c:739-742 | every channel's completion address is its cached message |
| `EndpointReset.Endpoint.Reinitialise` | modules/pci_deepx/dw-edma-v0-core.c:1233-1252 | one restore of a live saved state; on success every completion address is the same valid message and a saved state is left |
| `EndpointReset.Endpoint.PcieReset` | modules/pci_deepx/dw-edma-v0-core.c:1175-1272 | which resets are made: a function-level one where available, a bus reset otherwise or if that failed or left a channel stuck and the host can do it, none only if absent or with neither method; success if and only if the last reset worked, left no channel stuck and a valid message exists; which error otherwise; one restore of a live saved state after each reset that is kept; on success every completion address is the chosen message |

## Left out

- The protocol is modelled on values, one action per critical section, not as objects updated in place: what matters is
  the interleaving, and aliasing is captured by the ownership count of every chunk.
- The branches of `terminate_all` that drain descriptors (second call, idle, paused or already complete channel), pause
  and resume, and two descriptors in flight on one channel; the first call on a busy channel whose engine has not
  stopped is modelled.
- An abort interrupt before the first doorbell of the descriptor.
- Single-burst (non linked-list) transfers, cyclic and interleaved transfers, and the `dma_map_sg` failure exit.
- Residue and `xfer_sz`, which start from the region size and are not byte counts.
- Liveness: that a transfer finishes; only that it can.
- Memory barriers, jiffies wrap-around and 32-bit wrap-around of epochs: steps are sequentially consistent and time is a
  natural number.
- The helper channel that copies tables is a copy that succeeds or fails; its arbitration is not part of this model.
- A doorbell always takes effect: that one rung while the engine is still at the end of the previous chunk might be lost
  is not modelled.
- StreamingOverrun.UnsafeCopyRepeats: covers successful copies whose launch is not cancelled; a failed copy is unsafe
  only if what it leaves in the terminator's place lets the engine run on, and what is executed then is arbitrary.
- TransferWait.SuccessMeansSameEpoch: that the transfer's own callback completed it needs the error flag not to clear by
  itself within an epoch; the epoch part does not.
- Recovery.ReadyIsProven: a re-check and the commit after it are one step, and so is a handler; the mailbox and link
  contents are arbitrary.
- EndpointReset.Endpoint.PcieReset: registers other than the completion addresses, bus mastering and address translation
  are not modelled.
- Event queues, request scheduling, firmware update, register maps, sysfs, debugfs, profiling, probe and power
  management.
