/**
 The streaming protocol of one channel and one scatter-gather descriptor: launch worker, Done and abort
 interrupts, shadow pre-build worker, lazy refill worker, descriptor release, and the eDMA engine, as a
 state machine.  One action is one `vc.lock` critical section, one unlocked worker phase, or one
 element fetched by the engine.
 */
module Streaming {
  import opened Basics
  import opened Copy
  import opened DescriptorTable
  import Chunks

  /** How what does not fit the first chunk is supplied. */
  datatype Mode = Single | Lazy | Shadow

  datatype Config = Config(
    sg: seq<Sg>, base: u64, dir: Dir, llMax: nat, target: u64, poolSize: nat, mode: Mode,
    stopBeforeDone: bool)   // the engine raises Done only once it has stopped

  /** A chunk: its bursts, change bit, the slice of the list it was filled from, and how many pool bursts it holds. */
  datatype Chunk = Chunk(id: nat, cb: bool, lo: nat, hi: nat, bursts: seq<Burst>, held: nat)

  datatype ShadowState = Idle | Building | Ready | IsrPending | Cancelled
  datatype LazyState = NotLazy | Pending | Preparing
  datatype Request = NoRequest | StopRequest
  datatype Descriptor = Submitted | Issued | Completed

  /** The engine: stopped, halted by an error before element `at`, or about to fetch element `at`. */
  datatype Engine = Stopped | Halted(at: nat) | Running(ccs: bool, at: nat, irq: bool)

  datatype LaunchPc = LIdle | LWrite(id: nat) | LCopy(id: nat) | LCommit(id: nat, ok: bool)

  datatype ShadowPc =
    | WIdle
    | WFill(id: nat) | WPrebuild(id: nat) | WAlloc(id: nat) | WPublish(id: nat, next: Option<Chunk>)
    | WStopCheck(id: nat) | WClearDone(id: nat) | WClearStarted(id: nat) | WHandoff(id: nat) | WRecheck(id: nat)
    | WPrecopy(id: nat, next: Option<Chunk>) | WLaunch(id: nat, next: Option<Chunk>)
    | WFreed                       // shadow chunk freed, pointer not yet cleared
    | WDrop(cancelled: bool)       // precopy failed, both chunks freed, pointers not yet cleared
    | WRequeue                     // next build published, work not yet queued
    | WAlarm                       // no chunk for the next build, abort not yet published

  datatype LazyPc =
    | ZIdle | ZWait | ZClaim(ok: bool) | ZRelease(c: Chunk) | ZFill(c: Chunk) | ZWrite(c: Chunk) | ZCopy(c: Chunk)
    | ZCommit(c: Chunk, ok: bool)

  datatype FreePc = NotFreeing | Marked | ShadowGone | Released

  datatype State = State(
    // channel
    xferStarted: bool, busy: bool, request: Request, aborted: bool, hwErr: bool,
    pending: Option<nat>, launchQueued: bool, launch: LaunchPc,
    // descriptor
    vd: Descriptor, lazyMode: bool, active: Option<Chunk>, sgCur: nat, sgRemaining: nat, allocSz: nat,
    shadowState: ShadowState, shadowChunk: Option<Chunk>, shadowNext: Option<Chunk>, shadowPos: nat, hasMore: bool,
    expectedCb: bool, shadowAllocSz: nat, shadowQueued: bool, worker: ShadowPc,
    lazyState: LazyState, lazyQueued: bool, refill: LazyPc, freeing: FreePc,
    // memories and engine
    host: seq<Elem>, table: seq<Elem>, engine: Engine, doneBit: bool,
    // allocator
    poolFree: nat, nextId: nat, cleanup: multiset<nat>, cleanupHeld: nat, freed: multiset<nat>,
    // history
    launched: seq<Chunk>, accounted: seq<nat>, executed: seq<Burst>, stopSeen: bool, overrun: bool)

  /** The outcome of filling a chunk: entries up to `hi`, with `taken` bursts drawn from the pool; or nothing. */
  datatype FillResult = FillOk(hi: nat, bursts: seq<Burst>, taken: nat) | FillFail(hi: nat)

  datatype LaunchAction =
    | Issue | LaunchBegin(live: bool) | LaunchWrite(ok: bool, back: nat) | LaunchCopy(ok: bool, junk: seq<Elem>)
    | LaunchCommit(live: bool)
    | Stop

  datatype EngineAction = Fetch | DoneIsr | DoneReplay | AbortIsr | HwError

  /** The shadow worker up to the point where the built chunk is published. */
  datatype BuildAction =
    | ShadowBegin | ShadowFill(r: FillResult) | ShadowClear | ShadowPrebuild(ok: bool, back: nat)
    | ShadowAlloc(ok: bool) | ShadowPublish

  /** The shadow worker from there to the launch. */
  datatype HandAction =
    | ShadowStopCheck | ShadowClearDone | ShadowClearStarted | ShadowHandoff | ShadowRecheck
    | ShadowPrecopy(ok: bool, ecanceled: bool, junk: seq<Elem>) | ShadowDrop | ShadowLaunch(live: bool)
    | ShadowRequeue | ShadowAlarm

  datatype RefillAction =
    | LazyBegin | LazyWait(ok: bool) | LazyClaim | LazyRelease | LazyFill(r: FillResult)
    | LazyWrite(ok: bool, back: nat)
    | LazyCopy(ok: bool, junk: seq<Elem>) | LazyCommit

  datatype ReleaseAction = FreeBegin | FreeShadow | FreeRest | Cleanup

  datatype Action =
    | ByLaunch(launch: LaunchAction) | ByEngine(engine: EngineAction) | ByBuild(build: BuildAction)
    | ByHand(hand: HandAction)
    | ByRefill(refill: RefillAction) | ByRelease(release: ReleaseAction)

  // ---- helpers ----

  /** The device address of entry `p`. */
  function Addr(cfg: Config, p: nat): nat
    requires p <= |cfg.sg|
  {
    cfg.base + Bytes(cfg.sg[..p])
  }

  ghost predicate WellFormed(cfg: Config) {
    && cfg.sg != [] && cfg.llMax > 0
    && Bytes(cfg.sg) <= U32_MAX
    && cfg.base + Bytes(cfg.sg) <= U64_MAX
  }

  /** What a successful fill of an empty chunk from entry `lo` up to entry `hi` produces. */
  ghost predicate FilledFrom(cfg: Config, lo: nat, hi: nat, bs: seq<Burst>) {
    && lo < hi <= |cfg.sg| && Addr(cfg, lo) <= U64_MAX && |bs| <= cfg.llMax
    && Chunks.Filled(cfg.dir, cfg.sg, Chunks.Cursor(lo, |cfg.sg| - lo, Addr(cfg, lo)), hi - lo, [], bs)
  }

  /** The bursts execute exactly entries `lo..hi`. */
  ghost predicate Exact(cfg: Config, lo: nat, hi: nat, bs: seq<Burst>) {
    && lo < hi <= |cfg.sg| && 1 <= |bs| <= cfg.llMax
    && Denote(bs) == CopyOf(cfg.dir, cfg.sg[lo..hi], Addr(cfg, lo))
    && Placed(cfg.dir, bs) && Size(bs) <= U32_MAX
  }

  function IdOf(c: Option<Chunk>): Option<nat> {
    if c.Some? then Some(c.value.id) else None
  }

  function HeldBy(c: Option<Chunk>): nat {
    if c.Some? then c.value.held else 0
  }

  function FreedIds(c: Option<Chunk>): multiset<nat> {
    if c.Some? then multiset{c.value.id} else multiset{}
  }

  /** `write_chunk`: the list is merged in place, `back` merged-away bursts return to the pool. */
  function Written(cfg: Config, c: Chunk, back: nat): Chunk
    requires back <= c.held
  {
    c.(bursts := Merge(cfg.dir, c.bursts), held := c.held - back)
  }

  /** `elems` written at the start of `mem`, the rest left as it was. */
  function Splice(elems: seq<Elem>, mem: seq<Elem>): seq<Elem> {
    if |elems| <= |mem| then elems + mem[|elems|..] else mem
  }

  /** `write_chunk` into the channel's host staging buffer. */
  function WriteHost(cfg: Config, s: State, c: Chunk): seq<Elem> {
    Splice(Emit(c.bursts, c.cb, cfg.target), s.host)
  }

  /** The helper-channel copy of `bursts_alloc + 1` elements into the device table. */
  function CopyTable(s: State, n: nat): seq<Elem> {
    if n + 1 <= |s.host| then Splice(s.host[..n + 1], s.table) else s.table
  }

  /** A table written now would not stop the engine at the element it reads next. */
  predicate Overruns(s: State, table: seq<Elem>) {
    s.engine.Running? && s.engine.at < |table| && table[s.engine.at].cb == s.engine.ccs
  }

  /**
   The device table is written without waiting for the engine; the history records whether that could make it run on.
   */
  function Overwrite(s: State, table: seq<Elem>): State {
    s.(table := table, overrun := s.overrun || Overruns(s, table))
  }

  /** `dw_edma_v0_xfer_llm`: clear Done, program CCS, ring the doorbell. */
  function Ring(s: State, c: Chunk): State {
    s.(doneBit := false, engine := Running(c.cb, 0, false), xferStarted := true, launched := s.launched + [c])
  }

  function FreeBursts(c: Chunk): Chunk {
    c.(bursts := [], held := 0)
  }

  /** `dw_edma_defer_chunk_free`. */
  function Defer(s: State, c: Chunk): State {
    s.(cleanup := s.cleanup + multiset{c.id}, cleanupHeld := s.cleanupHeld + c.held)
  }

  /** `dw_edma_free_unlinked_chunk`. */
  function Free(s: State, c: Option<Chunk>): State {
    s.(poolFree := s.poolFree + HeldBy(c), freed := s.freed + FreedIds(c))
  }

  // ---- initial states ----

  /** The descriptor as `dw_edma_device_transfer` leaves it: first chunk filled, the rest set up per mode. */
  ghost predicate Init(cfg: Config, s: State) {
    && WellFormed(cfg)
    && s.active.Some? && s.active.value.id == 0 && s.active.value.cb && s.active.value.lo == 0
    && FilledFrom(cfg, 0, s.active.value.hi, s.active.value.bursts)
    && s.poolFree + s.active.value.held == cfg.poolSize
    && s.sgCur == s.active.value.hi && s.sgRemaining == |cfg.sg| - s.sgCur
    && s.allocSz == Bytes(cfg.sg[0..s.sgCur]) % WORD
    && s.lazyMode == !cfg.mode.Single?
    && (cfg.mode.Single? <==> s.sgRemaining == 0)
    && (cfg.mode.Shadow? ==>
          s.shadowState.Building? && s.shadowChunk == Some(Chunk(1, false, 0, 0, [], 0)) && s.nextId == 2 && s.hasMore)
    && (!cfg.mode.Shadow? ==> s.shadowState.Idle? && s.shadowChunk.None? && s.nextId == 1 && !s.hasMore)
    && s.shadowNext.None? && s.shadowPos == s.sgCur && s.expectedCb == false && s.shadowAllocSz == 0
    && !s.xferStarted && !s.busy && s.request.NoRequest? && !s.aborted && !s.hwErr
    && s.pending.None? && !s.launchQueued && s.launch.LIdle? && s.vd.Submitted?
    && !s.shadowQueued && s.worker.WIdle? && s.lazyState.NotLazy? && !s.lazyQueued && s.refill.ZIdle?
    && s.freeing.NotFreeing?
    && |s.host| == |s.table| == cfg.llMax + 1 && s.engine.Stopped? && !s.doneBit
    && s.cleanup == multiset{} && s.cleanupHeld == 0 && s.freed == multiset{}
    && s.launched == [] && s.accounted == [] && s.executed == [] && !s.stopSeen && !s.overrun
  }

  // ---- launch side ----

  /** `dw_edma_device_issue_pending` and `dw_edma_start_transfer`. */
  function DoIssue(s: State): State {
    s.(vd := Issued, busy := true, pending := IdOf(s.active), launchQueued := true)
  }

  predicate LaunchBlocked(s: State, live: bool) {
    !live || s.aborted || s.hwErr || s.request.StopRequest? || !s.busy
  }

  function DoLaunchBegin(s: State, live: bool): State {
    s.(launchQueued := false, pending := None,
       launch := if s.pending.None? || LaunchBlocked(s, live) then s.launch else LWrite(s.pending.value))
  }

  function LaunchWritten(cfg: Config, s: State, back: nat): State
    requires s.launch.LWrite? && s.active.Some? && back <= s.active.value.held
  {
    var c := Written(cfg, s.active.value, back);
    s.(active := Some(c), poolFree := s.poolFree + back, host := WriteHost(cfg, s, c), doneBit := false,
       launch := LCopy(s.launch.id))
  }

  function LaunchNotWritten(s: State): State
    requires s.launch.LWrite?
  {
    s.(hwErr := true, doneBit := false, launch := LCommit(s.launch.id, false))
  }

  function DoLaunchWrite(cfg: Config, s: State, ok: bool, back: nat): State
    requires s.launch.LWrite? && s.active.Some? && back <= s.active.value.held
  {
    if ok then LaunchWritten(cfg, s, back) else LaunchNotWritten(s)
  }

  function DoLaunchCopy(s: State, ok: bool, junk: seq<Elem>): State
    requires s.launch.LCopy? && s.active.Some?
  {
    s.(table := if ok then CopyTable(s, |s.active.value.bursts|) else junk,
       doneBit := s.doneBit && ok,
       launch := LCommit(s.launch.id, ok))
  }

  /** The launch worker gives up; `clear` when it had prepared the channel. */
  function LaunchGivenUp(s: State, error: bool, clear: bool): State {
    s.(launch := LIdle, hwErr := s.hwErr || error, doneBit := s.doneBit && !clear)
  }

  /** The doorbell of the first chunk; a build that waits for it is queued. */
  function LaunchRung(s: State): State
    requires s.active.Some?
  {
    Ring(s.(launch := LIdle, shadowQueued := s.shadowQueued || (s.lazyMode && s.shadowState.Building?)), s.active.value)
  }

  function DoLaunchCommit(s: State, live: bool): State
    requires s.launch.LCommit?
  {
    if !s.launch.ok then LaunchGivenUp(s, true, false)
    else if LaunchBlocked(s, live) then LaunchGivenUp(s, false, true)
    else if !s.vd.Issued? || IdOf(s.active) != Some(s.launch.id) then LaunchGivenUp(s, true, true)
    else LaunchRung(s)
  }

  // ---- engine ----

  /** The change bit differs: the engine stops, and raises Done for an element that asked for it. */
  function FetchedEnd(cfg: Config, s: State): State
    requires s.engine.Running?
  {
    s.(engine := Stopped, doneBit := s.doneBit || (s.engine.irq && cfg.stopBeforeDone))
  }

  function FetchedBurst(cfg: Config, s: State, e: Elem): State
    requires s.engine.Running? && e.Lli?
  {
    s.(engine := Running(s.engine.ccs, s.engine.at + 1, s.engine.irq || e.lie),
       doneBit := s.doneBit || (e.lie && !cfg.stopBeforeDone),
       executed := s.executed + [BurstOf(e)])
  }

  /** A link the engine takes for its own leads to the start of the table, or out of it. */
  function FetchedLink(cfg: Config, s: State, e: Elem): State
    requires s.engine.Running? && e.Llp?
  {
    s.(engine := Running(if e.tcb then !s.engine.ccs else s.engine.ccs, if e.target == cfg.target then 0 else |s.table|,
                         s.engine.irq))
  }

  /** One element fetched from the device table. */
  function DoFetch(cfg: Config, s: State): State
    requires s.engine.Running? && s.engine.at < |s.table|
  {
    var e, g := s.table[s.engine.at], s.engine;
    if e.cb != g.ccs then FetchedEnd(cfg, s)
    else if e.Lli? then FetchedBurst(cfg, s, e)
    else FetchedLink(cfg, s, e)
  }

  // ---- interrupts ----

  function StopsShadow(st: ShadowState): ShadowState {
    match st
    case Building => Cancelled
    case IsrPending => Cancelled
    case Ready => Idle
    case x => x
  }

  /** The cookie completes; a stop request is consumed. */
  function Finish(s: State): State {
    s.(vd := Completed, busy := false, request := NoRequest,
       shadowState := if s.request.StopRequest? then StopsShadow(s.shadowState) else s.shadowState)
  }

  /** Standard completion: the finished chunk is retired and the cookie completes. */
  function Retire(s: State, c: Chunk): State {
    Finish(Defer(s.(active := None, poolFree := s.poolFree + c.held), FreeBursts(c)))
  }

  /** The finished chunk is accounted for. */
  function Account(s: State, c: Chunk): State {
    s.(xferStarted := false, accounted := s.accounted + [c.id])
  }

  function Cancel(st: ShadowState): ShadowState {
    if st.Idle? then Idle else Cancelled
  }

  /** `dw_edma_defer_lazy_done_locked`: the finished chunk is followed by another one, or the transfer ends here. */
  function DeferLazyDone(cfg: Config, s: State, c: Chunk): State {
    if s.request.StopRequest? then Retire(Account(s.(lazyMode := false, shadowState := Cancel(s.shadowState)), c), c)
    else if s.shadowState.Ready? || s.shadowState.Building?
    then Account(s.(shadowState := IsrPending, shadowQueued := true), c)
    else if !s.shadowState.Idle? then Retire(Account(s.(lazyMode := false, aborted := true), c), c)
    else if s.sgRemaining == 0 then Retire(Account(s, c), c)
    else if cfg.mode.Lazy? then Account(s.(lazyState := Pending, lazyQueued := true), c)
    else Account(s.(lazyState := Pending, lazyMode := false, hwErr := true), c)
  }

  /** `dw_edma_complete_done_locked`. */
  function CompleteDone(cfg: Config, s: State): State {
    if !s.vd.Issued? then s.(xferStarted := false)
    else if s.active.None? then Finish(s.(xferStarted := false))
    else if s.lazyMode then DeferLazyDone(cfg, s, s.active.value)
    else Retire(Account(s, s.active.value), s.active.value)
  }

  function DoDoneIsr(cfg: Config, s: State): State {
    var s1 := s.(doneBit := false);
    if s.xferStarted then CompleteDone(cfg, s1) else s1
  }

  function DoAbortIsr(s: State): State {
    s.(aborted := true, doneBit := false, engine := if s.engine.Running? then Halted(s.engine.at) else s.engine,
       request := NoRequest, busy := false,
       vd := if s.vd.Issued? then Completed else s.vd,
       shadowState := if s.vd.Issued? && (s.shadowState.Building? || s.shadowState.IsrPending?)
                      then Cancelled else s.shadowState)
  }

  /** The first `terminate_all` on a busy channel whose engine has not stopped; a stopped one is drained instead. */
  function DoStop(s: State): State {
    s.(request := StopRequest, stopSeen := true, launchQueued := false, pending := None)
  }

  // ---- shadow worker ----

  predicate IsFilled(c: Option<Chunk>) {
    c.Some? && c.value.bursts != []
  }

  /** A worker takes the built chunk, and the pre-allocated next one, to the launch. */
  function TakeBuilt(s: State): State
    requires s.shadowChunk.Some?
  {
    s.(shadowNext := None, worker := WPrecopy(s.shadowChunk.value.id, s.shadowNext))
  }

  function DoShadowBegin(s: State): State {
    if s.shadowState.IsrPending? && IsFilled(s.shadowChunk) then TakeBuilt(s.(shadowQueued := false))
    else if s.shadowChunk.None? then s.(shadowQueued := false, hwErr := true)
    else s.(shadowQueued := false, worker := WFill(s.shadowChunk.value.id))
  }

  /** The shadow chunk goes away while the descriptor still points at it. */
  function FreeShadowChunk(s: State): State
    requires s.shadowChunk.Some?
  {
    Free(s, s.shadowChunk).(shadowChunk := Some(FreeBursts(s.shadowChunk.value)), worker := WFreed)
  }

  predicate CanFill(cfg: Config, s: State, lo: nat, r: FillResult) {
    && lo <= r.hi <= |cfg.sg|
    && (r.FillOk? ==> lo < r.hi && 1 <= |r.bursts| <= cfg.llMax && r.taken <= s.poolFree)
  }

  /** The byte count of the build with the entries up to `hi`, which a fill that fails has added as well. */
  function Counted(cfg: Config, s: State, hi: nat): nat
    requires s.shadowPos <= hi <= |cfg.sg|
  {
    (s.shadowAllocSz + Bytes(cfg.sg[s.shadowPos..hi])) % WORD
  }

  function ShadowFilled(cfg: Config, s: State, hi: nat, bs: seq<Burst>, taken: nat): State
    requires s.worker.WFill? && s.shadowChunk.Some? && s.shadowPos <= hi <= |cfg.sg| && taken <= s.poolFree
  {
    var c := s.shadowChunk.value;
    s.(shadowChunk := Some(c.(lo := s.shadowPos, hi := hi, bursts := bs, held := c.held + taken)),
       poolFree := s.poolFree - taken, shadowPos := hi, hasMore := hi < |cfg.sg|,
       shadowAllocSz := Counted(cfg, s, hi),
       worker := WPrebuild(s.worker.id))
  }

  function DoShadowFill(cfg: Config, s: State, r: FillResult): State
    requires s.worker.WFill? && s.shadowChunk.Some? && CanFill(cfg, s, s.shadowPos, r)
  {
    match r
    case FillFail(hi) => FreeShadowChunk(s).(shadowAllocSz := Counted(cfg, s, hi))
    case FillOk(hi, bs, taken) => ShadowFilled(cfg, s, hi, bs, taken)
  }

  function DoShadowClear(s: State): State {
    var fatal := !s.shadowState.Cancelled? && !s.aborted && s.request.NoRequest?;
    s.(shadowChunk := None, lazyMode := s.lazyMode && !fatal, hwErr := s.hwErr || fatal,
       shadowState := Idle, worker := WIdle)
  }

  function ShadowWritten(cfg: Config, s: State, back: nat): State
    requires s.worker.WPrebuild? && s.shadowChunk.Some? && back <= s.shadowChunk.value.held
  {
    var c := Written(cfg, s.shadowChunk.value, back);
    s.(shadowChunk := Some(c), poolFree := s.poolFree + back, host := WriteHost(cfg, s, c),
       worker := WAlloc(s.worker.id))
  }

  function DoShadowPrebuild(cfg: Config, s: State, ok: bool, back: nat): State
    requires s.worker.WPrebuild? && s.shadowChunk.Some? && back <= s.shadowChunk.value.held
  {
    if ok then ShadowWritten(cfg, s, back) else FreeShadowChunk(s)
  }

  /** The chunk of the build after this one. */
  function DoShadowAlloc(s: State, ok: bool): State
    requires s.worker.WAlloc?
  {
    var fresh' := if s.hasMore && ok then Some(Chunk(s.nextId, false, 0, 0, [], 0)) else None;
    s.(nextId := if fresh'.Some? then s.nextId + 1 else s.nextId, worker := WPublish(s.worker.id, fresh'))
  }

  /** The worker leaves a cancelled build. */
  function Abandon(s: State, next: Option<Chunk>): State {
    Free(s, next).(shadowState := Idle, worker := WIdle)
  }

  function DoShadowPublish(s: State): State
    requires s.worker.WPublish?
  {
    match s.shadowState
    case Building => s.(shadowState := Ready, shadowNext := s.worker.next, worker := WStopCheck(s.worker.id))
    case IsrPending => s.(worker := WPrecopy(s.worker.id, s.worker.next))
    case _ => Abandon(s, s.worker.next)
  }

  function DoShadowStopCheck(s: State): State
    requires s.worker.WStopCheck?
  {
    s.(worker := if s.xferStarted && s.engine.Stopped? then WClearDone(s.worker.id) else WRecheck(s.worker.id))
  }

  predicate StillOurs(s: State, id: nat) {
    s.lazyMode && IdOf(s.shadowChunk) == Some(id)
  }

  /** The worker itself accounts for a chunk that stopped without a Done interrupt. */
  function HandedOff(s: State): State
    requires s.active.Some? && s.shadowChunk.Some?
  {
    TakeBuilt(s.(accounted := s.accounted + [s.active.value.id], shadowState := IsrPending))
  }

  function DoShadowHandoff(s: State): State
    requires s.worker.WHandoff?
  {
    if StillOurs(s, s.worker.id) && s.shadowState.Ready? && s.active.Some? then HandedOff(s)
    else s.(worker := WRecheck(s.worker.id))
  }

  function DoShadowRecheck(s: State): State
    requires s.worker.WRecheck?
  {
    if StillOurs(s, s.worker.id) && s.shadowState.IsrPending? then TakeBuilt(s) else s.(worker := WIdle)
  }

  predicate CancelSeen(s: State) {
    s.shadowState.Cancelled? || s.aborted || s.request.StopRequest?
  }

  function PrecopyFailed(s: State, ecanceled: bool, junk: seq<Elem>): State
    requires s.worker.WPrecopy? && s.shadowChunk.Some?
  {
    Free(FreeShadowChunk(Overwrite(s, junk)), s.worker.next).(worker := WDrop(ecanceled && CancelSeen(s)))
  }

  function Precopied(s: State): State
    requires s.worker.WPrecopy? && s.shadowChunk.Some?
  {
    Overwrite(s, CopyTable(s, |s.shadowChunk.value.bursts|)).(worker := WLaunch(s.worker.id, s.worker.next))
  }

  function DoShadowPrecopy(s: State, ok: bool, ecanceled: bool, junk: seq<Elem>): State
    requires s.worker.WPrecopy? && s.shadowChunk.Some?
  {
    if ok then Precopied(s) else PrecopyFailed(s, ecanceled, junk)
  }

  function DoShadowDrop(s: State): State
    requires s.worker.WDrop?
  {
    s.(shadowChunk := None, shadowNext := None, lazyMode := false, hwErr := s.hwErr || !s.worker.cancelled,
       shadowState := Idle, worker := WIdle)
  }

  /** The shadow chunk becomes the active one, the finished chunk is queued for release. */
  function Swap(s: State): State
    requires s.shadowChunk.Some?
  {
    var c := s.shadowChunk.value;
    s.(poolFree := s.poolFree + HeldBy(s.active), cleanup := s.cleanup + FreedIds(s.active),
       active := Some(c), shadowChunk := None, shadowState := Idle, expectedCb := !c.cb, busy := true,
       allocSz := (s.allocSz + s.shadowAllocSz) % WORD, shadowAllocSz := 0)
  }

  /** The device went away under the launch. */
  function LaunchRefused(s: State): State
    requires s.worker.WLaunch? && s.shadowChunk.Some?
  {
    Free(Swap(s), s.worker.next).(lazyMode := false, hwErr := true, worker := WIdle)
  }

  /** Launch of the last chunk. */
  function LaunchedLast(s: State): State
    requires s.worker.WLaunch? && s.shadowChunk.Some?
  {
    Ring(Free(Swap(s), s.worker.next).(lazyMode := false, sgRemaining := 0, worker := WIdle), s.shadowChunk.value)
  }

  /** Launch with more entries to come: the pre-allocated chunk is next; without one the channel aborts. */
  function LaunchedOne(s: State): State
    requires s.worker.WLaunch? && s.shadowChunk.Some?
  {
    var s1 := Swap(s);
    var next := s.worker.next;
    Ring(s1.(shadowChunk := if next.Some? then Some(next.value.(cb := s1.expectedCb)) else None,
             shadowNext := if next.Some? then None else s.shadowNext,
             shadowState := if next.Some? then Building else Idle,
             worker := if next.Some? then WRequeue else WAlarm), s.shadowChunk.value)
  }

  function DoShadowLaunch(s: State, live: bool): State
    requires s.worker.WLaunch? && s.shadowChunk.Some?
  {
    if CancelSeen(s) then Abandon(s, s.worker.next)
    else if !live then LaunchRefused(s)
    else if s.hasMore then LaunchedOne(s)
    else LaunchedLast(s)
  }

  // ---- lazy worker ----

  /** The refill ends with an error. */
  function RefillFailed(s: State): State {
    s.(refill := ZIdle, lazyState := NotLazy, lazyMode := false, hwErr := true)
  }

  /** A stop request found by the refill worker completes the cookie. */
  function RefillStopped(s: State, c: Chunk): State {
    Defer(s, c).(refill := ZIdle, lazyState := NotLazy, lazyMode := false, request := NoRequest, vd := Completed,
                 busy := false)
  }

  /** The refill worker takes the finished chunk out of the descriptor. */
  function Claimed(s: State): State
    requires s.active.Some?
  {
    s.(active := None, lazyState := Preparing, refill := ZRelease(s.active.value))
  }

  function DoLazyClaim(s: State): State
    requires s.refill.ZClaim?
  {
    if !s.lazyState.Pending? then s.(refill := ZIdle)
    else if !s.vd.Issued? then s.(refill := ZIdle, lazyState := NotLazy)
    else if !s.refill.ok || s.active.None? || !s.lazyMode then RefillFailed(s)
    else if s.request.StopRequest? then
      RefillStopped(s.(active := None, poolFree := s.poolFree + s.active.value.held), FreeBursts(s.active.value))
    else if s.sgRemaining == 0 then RefillFailed(s)
    else Claimed(s)
  }

  function DoLazyRelease(s: State): State
    requires s.refill.ZRelease?
  {
    s.(poolFree := s.poolFree + s.refill.c.held, refill := ZFill(FreeBursts(s.refill.c)))
  }

  function LazyFilled(cfg: Config, s: State, hi: nat, bs: seq<Burst>, taken: nat): State
    requires s.refill.ZFill? && taken <= s.poolFree
  {
    var c := s.refill.c;
    s.(poolFree := s.poolFree - taken,
       refill := ZWrite(c.(cb := !c.cb, lo := s.sgCur, hi := hi, bursts := bs, held := c.held + taken)))
  }

  function DoLazyFill(cfg: Config, s: State, r: FillResult): State
    requires s.refill.ZFill? && CanFill(cfg, s, s.sgCur, r)
  {
    match r
    case FillFail(_) => s.(refill := ZCommit(s.refill.c.(cb := !s.refill.c.cb), false))
    case FillOk(hi, bs, taken) => LazyFilled(cfg, s, hi, bs, taken)
  }

  function LazyWritten(cfg: Config, s: State, back: nat): State
    requires s.refill.ZWrite? && back <= s.refill.c.held
  {
    var c := Written(cfg, s.refill.c, back);
    s.(poolFree := s.poolFree + back, host := WriteHost(cfg, s, c), doneBit := false, refill := ZCopy(c))
  }

  function DoLazyWrite(cfg: Config, s: State, ok: bool, back: nat): State
    requires s.refill.ZWrite? && back <= s.refill.c.held
  {
    if ok then LazyWritten(cfg, s, back)
    else s.(hwErr := true, doneBit := false, refill := ZCommit(s.refill.c, false))
  }

  function DoLazyCopy(s: State, ok: bool, junk: seq<Elem>): State
    requires s.refill.ZCopy?
  {
    s.(table := if ok then CopyTable(s, |s.refill.c.bursts|) else junk, doneBit := s.doneBit && ok,
       refill := ZCommit(s.refill.c, ok))
  }

  /** The refilled chunk is launched. */
  function Refill(cfg: Config, s: State): State
    requires s.refill.ZCommit?
  {
    var c := s.refill.c;
    Ring(s.(refill := ZIdle, lazyState := NotLazy, active := Some(c), busy := true, lazyMode := c.hi < |cfg.sg|,
            sgCur := c.hi, sgRemaining := if c.hi <= |cfg.sg| then |cfg.sg| - c.hi else 0,
            allocSz := (s.allocSz + (if c.lo <= c.hi <= |cfg.sg| then Bytes(cfg.sg[c.lo..c.hi]) else 0)) % WORD), c)
  }

  /** The descriptor went away under the refill. */
  function RefillFreed(s: State, c: Chunk, l: LazyState): State
    requires s.refill.ZCommit?
  {
    Free(s, Some(c)).(refill := ZIdle, lazyState := l, doneBit := s.doneBit && !s.refill.ok)
  }

  function DoLazyCommit(cfg: Config, s: State): State
    requires s.refill.ZCommit?
  {
    var c := s.refill.c;
    if !s.vd.Issued? then RefillFreed(s, c, NotLazy)
    else if !s.lazyState.Preparing? then RefillFreed(s, c, s.lazyState)
    else if !s.refill.ok then RefillFailed(Defer(s, c).(doneBit := false))
    else if s.request.StopRequest? then RefillStopped(s.(doneBit := false), c)
    else if !s.lazyMode || s.aborted || s.hwErr
    then Defer(s, c).(refill := ZIdle, lazyState := NotLazy, doneBit := false)
    else Refill(cfg, s)
  }

  // ---- release ----

  function DoFreeShadow(s: State): State {
    Free(Free(s, s.shadowChunk), s.shadowNext).(shadowQueued := false, shadowChunk := None, shadowNext := None,
                                                lazyState := NotLazy, freeing := ShadowGone)
  }

  function DoCleanup(s: State): State {
    s.(poolFree := s.poolFree + s.cleanupHeld, freed := s.freed + s.cleanup, cleanup := multiset{}, cleanupHeld := 0)
  }

  // ---- transition relation ----

  /** What a fill adds entries to: a filled chunk has its list anchor already, so an empty burst is linked first. */
  function Restarted(before: seq<Burst>): seq<Burst> {
    if before == [] then [] else before + [Burst(0, 0, 0)]
  }

  /** A fill is what `Chunks.FillNext` makes of the entries from `lo` on, or fails. */
  ghost predicate FillAllowed(cfg: Config, s: State, lo: nat, before: seq<Burst>, r: FillResult) {
    && CanFill(cfg, s, lo, r)
    && (r.FillOk? ==> FillsFrom(cfg, lo, before, r.hi, r.bursts))
    && (r.FillFail? ==> FailsFrom(cfg, lo, before, r.hi))
  }

  /** Nothing is filled: no storage, or an entry that is not addressable, behind those up to `hi`. */
  ghost predicate FailsFrom(cfg: Config, lo: nat, before: seq<Burst>, hi: nat) {
    && lo <= |cfg.sg| && Addr(cfg, lo) <= U64_MAX
    && Chunks.Fails(cfg.sg, Chunks.Cursor(lo, |cfg.sg| - lo, Addr(cfg, lo)), Restarted(before), cfg.llMax, hi)
  }

  ghost predicate FillsFrom(cfg: Config, lo: nat, before: seq<Burst>, hi: nat, bs: seq<Burst>) {
    && lo <= |cfg.sg| && Addr(cfg, lo) <= U64_MAX
    && Chunks.Fills(cfg.dir, cfg.sg, Chunks.Cursor(lo, |cfg.sg| - lo, Addr(cfg, lo)), Restarted(before), cfg.llMax,
                    hi, bs)
  }

  ghost predicate LaunchEnabled(cfg: Config, s: State, a: LaunchAction) {
    match a
    case Issue => s.vd.Submitted?
    case LaunchBegin(_) => s.launchQueued && s.launch.LIdle?
    case LaunchWrite(_, back) => s.launch.LWrite? && s.active.Some? && back <= s.active.value.held
    case LaunchCopy(_, junk) => s.launch.LCopy? && s.active.Some? && |junk| == |s.table|
    case LaunchCommit(_) => s.launch.LCommit?
    case Stop => s.vd.Issued? && s.busy && s.request.NoRequest? && s.launch.LIdle? && !s.engine.Stopped?
  }

  ghost function LaunchStep(cfg: Config, s: State, a: LaunchAction): State
    requires LaunchEnabled(cfg, s, a)
  {
    match a
    case Issue => DoIssue(s)
    case LaunchBegin(live) => DoLaunchBegin(s, live)
    case LaunchWrite(ok, back) => DoLaunchWrite(cfg, s, ok, back)
    case LaunchCopy(ok, junk) => DoLaunchCopy(s, ok, junk)
    case LaunchCommit(live) => DoLaunchCommit(s, live)
    case Stop => DoStop(s)
  }

  ghost predicate EngineEnabled(cfg: Config, s: State, a: EngineAction) {
    match a
    case Fetch => s.engine.Running? && s.engine.at < |s.table|
    case DoneIsr => s.doneBit
    case DoneReplay => s.xferStarted && s.engine.Stopped?
    case AbortIsr => s.launched != []
    case HwError => true
  }

  ghost function EngineStep(cfg: Config, s: State, a: EngineAction): State
    requires EngineEnabled(cfg, s, a)
  {
    match a
    case Fetch => DoFetch(cfg, s)
    case DoneIsr => DoDoneIsr(cfg, s)
    case DoneReplay => CompleteDone(cfg, s.(doneBit := false))
    case AbortIsr => DoAbortIsr(s)
    case HwError => s.(hwErr := true)
  }

  ghost predicate BuildEnabled(cfg: Config, s: State, a: BuildAction) {
    match a
    case ShadowBegin => s.shadowQueued && s.worker.WIdle?
    case ShadowFill(r) =>
      s.worker.WFill? && s.shadowChunk.Some? && FillAllowed(cfg, s, s.shadowPos, s.shadowChunk.value.bursts, r)
    case ShadowClear => s.worker.WFreed?
    case ShadowPrebuild(_, back) => s.worker.WPrebuild? && s.shadowChunk.Some? && back <= s.shadowChunk.value.held
    case ShadowAlloc(_) => s.worker.WAlloc?
    case ShadowPublish => s.worker.WPublish?
  }

  ghost function BuildStep(cfg: Config, s: State, a: BuildAction): State
    requires BuildEnabled(cfg, s, a)
  {
    match a
    case ShadowBegin => DoShadowBegin(s)
    case ShadowFill(r) => DoShadowFill(cfg, s, r)
    case ShadowClear => DoShadowClear(s)
    case ShadowPrebuild(ok, back) => DoShadowPrebuild(cfg, s, ok, back)
    case ShadowAlloc(ok) => DoShadowAlloc(s, ok)
    case ShadowPublish => DoShadowPublish(s)
  }

  ghost predicate HandEnabled(cfg: Config, s: State, a: HandAction) {
    match a
    case ShadowStopCheck => s.worker.WStopCheck?
    case ShadowClearDone => s.worker.WClearDone?
    case ShadowClearStarted => s.worker.WClearStarted?
    case ShadowHandoff => s.worker.WHandoff?
    case ShadowRecheck => s.worker.WRecheck?
    case ShadowPrecopy(_, _, junk) => s.worker.WPrecopy? && s.shadowChunk.Some? && |junk| == |s.table|
    case ShadowDrop => s.worker.WDrop?
    case ShadowLaunch(_) => s.worker.WLaunch? && s.shadowChunk.Some?
    case ShadowRequeue => s.worker.WRequeue?
    case ShadowAlarm => s.worker.WAlarm?
  }

  ghost function HandStep(cfg: Config, s: State, a: HandAction): State
    requires HandEnabled(cfg, s, a)
  {
    match a
    case ShadowStopCheck => DoShadowStopCheck(s)
    case ShadowClearDone => s.(doneBit := false, worker := WClearStarted(s.worker.id))
    case ShadowClearStarted => s.(xferStarted := false, worker := WHandoff(s.worker.id))
    case ShadowHandoff => DoShadowHandoff(s)
    case ShadowRecheck => DoShadowRecheck(s)
    case ShadowPrecopy(ok, ecanceled, junk) => DoShadowPrecopy(s, ok, ecanceled, junk)
    case ShadowDrop => DoShadowDrop(s)
    case ShadowLaunch(live) => DoShadowLaunch(s, live)
    case ShadowRequeue => s.(shadowQueued := true, worker := WIdle)
    case ShadowAlarm => s.(aborted := true, lazyMode := false, worker := WIdle)
  }

  ghost predicate RefillEnabled(cfg: Config, s: State, a: RefillAction) {
    match a
    case LazyBegin => s.lazyQueued && s.refill.ZIdle?
    case LazyWait(ok) => s.refill.ZWait? && (ok ==> s.engine.Stopped?)
    case LazyClaim => s.refill.ZClaim?
    case LazyRelease => s.refill.ZRelease?
    case LazyFill(r) => s.refill.ZFill? && FillAllowed(cfg, s, s.sgCur, s.refill.c.bursts, r)
    case LazyWrite(_, back) => s.refill.ZWrite? && back <= s.refill.c.held
    case LazyCopy(_, junk) => s.refill.ZCopy? && |junk| == |s.table|
    case LazyCommit => s.refill.ZCommit?
  }

  ghost function RefillStep(cfg: Config, s: State, a: RefillAction): State
    requires RefillEnabled(cfg, s, a)
  {
    match a
    case LazyBegin => s.(lazyQueued := false, refill := ZWait)
    case LazyWait(ok) => s.(refill := ZClaim(ok))
    case LazyClaim => DoLazyClaim(s)
    case LazyRelease => DoLazyRelease(s)
    case LazyFill(r) => DoLazyFill(cfg, s, r)
    case LazyWrite(ok, back) => DoLazyWrite(cfg, s, ok, back)
    case LazyCopy(ok, junk) => DoLazyCopy(s, ok, junk)
    case LazyCommit => DoLazyCommit(cfg, s)
  }

  ghost predicate ReleaseEnabled(cfg: Config, s: State, a: ReleaseAction) {
    match a
    case FreeBegin => s.vd.Completed? && s.freeing.NotFreeing?
    case FreeShadow => s.freeing.Marked? && s.worker.WIdle?
    case FreeRest => s.freeing.ShadowGone? && s.refill.ZIdle?
    case Cleanup => true
  }

  ghost function ReleaseStep(cfg: Config, s: State, a: ReleaseAction): State
    requires ReleaseEnabled(cfg, s, a)
  {
    match a
    case FreeBegin => s.(shadowState := Cancel(s.shadowState), freeing := Marked)
    case FreeShadow => DoFreeShadow(s)
    case FreeRest => Free(s, s.active).(lazyQueued := false, active := None, freeing := Released)
    case Cleanup => DoCleanup(s)
  }

  ghost predicate Enabled(cfg: Config, s: State, a: Action) {
    match a
    case ByLaunch(x) => LaunchEnabled(cfg, s, x)
    case ByEngine(x) => EngineEnabled(cfg, s, x)
    case ByBuild(x) => BuildEnabled(cfg, s, x)
    case ByHand(x) => HandEnabled(cfg, s, x)
    case ByRefill(x) => RefillEnabled(cfg, s, x)
    case ByRelease(x) => ReleaseEnabled(cfg, s, x)
  }

  ghost function Apply(cfg: Config, s: State, a: Action): State
    requires Enabled(cfg, s, a)
  {
    match a
    case ByLaunch(x) => LaunchStep(cfg, s, x)
    case ByEngine(x) => EngineStep(cfg, s, x)
    case ByBuild(x) => BuildStep(cfg, s, x)
    case ByHand(x) => HandStep(cfg, s, x)
    case ByRefill(x) => RefillStep(cfg, s, x)
    case ByRelease(x) => ReleaseStep(cfg, s, x)
  }

  /** A run: an initial state and one enabled action after the other. */
  ghost predicate IsRun(cfg: Config, states: seq<State>, actions: seq<Action>) {
    && |states| == |actions| + 1
    && Init(cfg, states[0])
    && forall i :: 0 <= i < |actions| ==>
         Enabled(cfg, states[i], actions[i]) && states[i + 1] == Apply(cfg, states[i], actions[i])
  }
}
