/** What every reachable state of the streaming protocol satisfies. */
module StreamingInvariant {
  import opened Basics
  import opened Copy
  import opened DescriptorTable
  import opened Streaming

  // ---- vocabulary ----

  function Last(s: State): Chunk
    requires s.launched != []
  {
    s.launched[|s.launched| - 1]
  }

  /** The bursts of a list of chunks, in order. */
  function Flat(cs: seq<Chunk>): seq<Burst> {
    if cs == [] then [] else Flat(cs[..|cs| - 1]) + cs[|cs| - 1].bursts
  }

  /** A memory starts with the table of chunk `c`. */
  ghost predicate Holds(cfg: Config, mem: seq<Elem>, c: Chunk) {
    |c.bursts| + 1 <= |mem| && mem[..|c.bursts| + 1] == Emit(c.bursts, c.cb, cfg.target)
  }

  ghost predicate Good(cfg: Config, c: Chunk) {
    Exact(cfg, c.lo, c.hi, c.bursts)
  }

  ghost predicate AllGood(cfg: Config, cs: seq<Chunk>) {
    forall i :: 0 <= i < |cs| ==> Good(cfg, cs[i])
  }

  /** The accounted chunks are the first launched ones, in launch order. */
  ghost predicate Accounts(ids: seq<nat>, cs: seq<Chunk>) {
    |ids| <= |cs| && forall i :: 0 <= i < |ids| ==> ids[i] == cs[i].id
  }

  ghost predicate Alternates(cs: seq<Chunk>) {
    forall i :: 0 <= i < |cs| - 1 ==> cs[i + 1].cb != cs[i].cb
  }

  /** No chunk is in flight and the engine is not reading the table. */
  predicate TableIdle(s: State) {
    !s.xferStarted && !s.engine.Running?
  }

  /** No stop was requested and no abort was raised. */
  predicate Calm(s: State) {
    !s.aborted && !s.stopSeen
  }

  predicate Clean(s: State) {
    Calm(s) && !s.hwErr
  }

  predicate Filling(w: ShadowPc) { w.WFill? || w.WPrebuild? || w.WAlloc? || w.WPublish? }
  predicate Waiting(w: ShadowPc) { w.WStopCheck? || w.WClearDone? || w.WClearStarted? || w.WHandoff? || w.WRecheck? }
  predicate Launching(w: ShadowPc) { w.WPrecopy? || w.WLaunch? }
  predicate Refilling(z: LazyPc) { z.ZRelease? || z.ZFill? || z.ZWrite? || z.ZCopy? || z.ZCommit? }

  /** The refill holds a chunk that may still be launched. */
  predicate Refilled(z: LazyPc) { z.ZWrite? || z.ZCopy? || (z.ZCommit? && z.ok) }

  // ---- the engine and the table ----

  /** The element at `at` stops an engine with this change bit. */
  predicate Stops(table: seq<Elem>, ccs: bool, at: nat) {
    at < |table| && table[at].cb != ccs
  }

  /** What the engine has executed, and what it will still execute, is exactly what was launched. */
  ghost predicate EngineExact(cfg: Config, s: State) {
    match s.engine
    case Stopped => s.executed == Flat(s.launched)
    case Halted(at) =>
      && s.aborted && s.launched != [] && at <= |Last(s).bursts|
      && s.executed == Flat(s.launched[..|s.launched| - 1]) + Last(s).bursts[..at]
    case Running(ccs, at, irq) =>
      && s.launched != [] && ccs == Last(s).cb && at <= |Last(s).bursts| && irq == (at == |Last(s).bursts|)
      && (if irq then Stops(s.table, ccs, at) else Holds(cfg, s.table, Last(s)))
      && s.executed == Flat(s.launched[..|s.launched| - 1]) + Last(s).bursts[..at]
      && (!s.xferStarted || s.doneBit ==> irq && !cfg.stopBeforeDone)
  }

  ghost predicate EngineOk(cfg: Config, s: State) {
    && |s.host| == |s.table| == cfg.llMax + 1
    && AllGood(cfg, s.launched) && Alternates(s.launched)
    && (s.xferStarted || s.engine.Running? ==> s.launched != [])
    && (s.overrun ==> cfg.mode.Shadow? && !cfg.stopBeforeDone && s.launched != [])
    && (!s.overrun ==> EngineExact(cfg, s))
  }

  // ---- who may act ----

  /** Nothing but the launch worker has moved yet. */
  ghost predicate Quiet(cfg: Config, s: State) {
    && !s.xferStarted && s.engine.Stopped?
    && s.worker.WIdle? && !s.shadowQueued && s.refill.ZIdle? && !s.lazyQueued && s.lazyState.NotLazy?
    && s.freeing.NotFreeing?
    && !s.vd.Completed? && s.active.Some? && Good(cfg, s.active.value)
    && (s.shadowState.Idle? || s.shadowState.Building?)
  }

  ghost predicate TurnOk(cfg: Config, s: State) {
    && (s.launched == [] ==> Quiet(cfg, s))
    && (!s.launch.LIdle? || s.launchQueued || s.pending.Some? || s.vd.Submitted? ==> s.launched == [])
    && (s.vd.Submitted? ==> s.launch.LIdle? && !s.launchQueued && s.pending.None?)
    && (!s.launch.LIdle? ==> !s.launchQueued && s.pending.None? && IdOf(s.active) == Some(s.launch.id))
    && (s.pending.Some? ==> IdOf(s.active) == s.pending)
    && (s.launch.LCopy? ==> Holds(cfg, s.host, s.active.value))
    && (s.launch.LCommit? && s.launch.ok ==> Holds(cfg, s.table, s.active.value))
    && (!cfg.mode.Shadow? ==>
          s.worker.WIdle? && !s.shadowQueued && s.shadowChunk.None? && s.shadowNext.None? && s.shadowState.Idle?)
    && (!cfg.mode.Lazy? ==> s.refill.ZIdle? && !s.lazyQueued)
    && (s.shadowState.IsrPending? || Launching(s.worker) || s.worker.WDrop? ==> !s.xferStarted)
    && (!cfg.mode.Lazy? && !s.vd.Completed? ==> s.active.Some?)
    && (s.vd.Completed? && !s.aborted ==> !s.xferStarted)
    && (s.launched != [] && s.active.Some? ==> s.active.value == Last(s) || Dead(cfg, s))
    && (s.xferStarted && s.vd.Issued? ==> s.active.Some?)
    && (s.freeing != NotFreeing ==> s.vd.Completed? && !Open(s.shadowState))
    && (s.request.StopRequest? ==> s.stopSeen)
  }

  /** A shadow launch was refused because the device is not live; nothing is launched any more. */
  ghost predicate Dead(cfg: Config, s: State) {
    cfg.mode.Shadow? && s.shadowChunk.None? && !s.xferStarted && !s.lazyMode && s.hwErr && s.worker.WIdle?
    && s.shadowState.Idle?
  }

  // ---- lazy refill ----

  ghost predicate LazyOk(cfg: Config, s: State) {
    && (s.lazyQueued || !s.refill.ZIdle? || !s.lazyState.NotLazy? ==> !s.xferStarted)
    && (s.lazyQueued ==> s.refill.ZIdle?)
    && (!cfg.mode.Lazy? && !s.lazyState.NotLazy? ==> !s.lazyMode)
    && (Refilling(s.refill) || s.refill == ZClaim(true) ==> TableIdle(s))
    && (Refilling(s.refill) ==> s.active.None? && s.launched != [] && (s.refill.ZFill? ==> s.refill.c.bursts == []))
    && (s.refill.ZRelease? || s.refill.ZFill? ==> s.refill.c.cb == Last(s).cb)
    && (Refilled(s.refill) ==> s.refill.c.cb == !Last(s).cb && Good(cfg, s.refill.c))
    && (s.refill.ZCopy? ==> Holds(cfg, s.host, s.refill.c))
    && (s.refill.ZCommit? && s.refill.ok ==> Holds(cfg, s.table, s.refill.c))
  }

  // ---- shadow pre-build ----

  /** The shadow chunk is complete and its table is in the host buffer. */
  ghost predicate Staged(cfg: Config, s: State) {
    s.shadowChunk.Some? && Good(cfg, s.shadowChunk.value) && Holds(cfg, s.host, s.shadowChunk.value)
  }

  ghost predicate Unfilled(s: State) {
    s.shadowChunk.Some? && s.shadowChunk.value.bursts == []
  }

  /** States in which the shadow chunk may still be launched. */
  predicate Open(st: ShadowState) { st.Building? || st.Ready? || st.IsrPending? }

  /** The pre-allocated chunk a worker carries. */
  function WorkerNext(s: State): Option<Chunk> {
    if s.worker.WPublish? || s.worker.WPrecopy? || s.worker.WLaunch? then s.worker.next else None
  }

  ghost predicate ShadowOk(cfg: Config, s: State) {
    && (Filling(s.worker) || Waiting(s.worker) || Launching(s.worker) ==> IdOf(s.shadowChunk) == Some(s.worker.id))
    && (s.worker.WFreed? || s.worker.WDrop? ==> s.shadowChunk.Some?)
    && !IsFilled(s.shadowNext) && !IsFilled(WorkerNext(s))
    && (s.worker.WRequeue? || s.worker.WAlarm? ==> s.launched != [])
    && (Open(s.shadowState) ==>
        s.shadowChunk.Some? && s.lazyMode && (!s.aborted ==> !s.vd.Completed?) && !s.worker.WAlarm?)
    && (Open(s.shadowState) || Launching(s.worker) ==>
          && s.shadowChunk.Some?
          && (s.launched != [] ==> s.shadowChunk.value.cb == !Last(s).cb)
          && (s.launched == [] && s.active.Some? ==> s.shadowChunk.value.cb == !s.active.value.cb))
    && (s.shadowState.Building? ==>
          && s.shadowNext.None? && (s.worker.WIdle? || Filling(s.worker) || s.worker.WRequeue? || s.worker.WFreed?)
          && (s.worker.WIdle? || s.worker.WFill? || s.worker.WRequeue? ==> Unfilled(s))
          && (s.worker.WPrebuild? ==> Good(cfg, s.shadowChunk.value))
          && (s.worker.WAlloc? || s.worker.WPublish? ==> Staged(cfg, s))
          && (Filling(s.worker) || s.worker.WFreed? ==> !s.shadowQueued))
    && (s.shadowState.Ready? ==>
          Staged(cfg, s) && !s.shadowQueued && (s.worker.WIdle? || Waiting(s.worker)))
    && (s.shadowState.IsrPending? ==>
          && (s.worker.WIdle? ==> Unfilled(s) || Staged(cfg, s))
          && (s.worker.WFill? || s.worker.WRequeue? ==> Unfilled(s))
          && (s.worker.WPrebuild? ==> Good(cfg, s.shadowChunk.value))
          && (s.worker.WAlloc? || s.worker.WPublish? || Waiting(s.worker) ==> Staged(cfg, s))
          && (s.shadowNext.Some? ==> Staged(cfg, s) && (s.worker.WIdle? || Waiting(s.worker))))
    && (Launching(s.worker) ==>
          Staged(cfg, s) && s.shadowNext.None? && (s.shadowState.IsrPending? || s.shadowState.Cancelled?))
    && (s.worker.WLaunch? ==> Holds(cfg, s.table, s.shadowChunk.value))
    && (s.worker.WDrop? ==> s.shadowNext.None? && (s.worker.cancelled ==> !Calm(s)))
    && (s.worker.WClearDone? || s.worker.WClearStarted? || s.worker.WHandoff? ==> !s.engine.Running?)
    && (Calm(s) ==> !s.shadowState.Cancelled? && (s.shadowState.Idle? ==> s.shadowChunk.None?))
  }

  /** If Done is raised only by a stopped engine, a stop request leaves no filled chunk behind for another pass. */
  ghost predicate StopOk(cfg: Config, s: State) {
    !s.aborted && s.stopSeen && cfg.stopBeforeDone ==>
      && s.launched != [] && (s.request.NoRequest? ==> s.vd.Completed?)
      && (s.shadowQueued ==> !IsFilled(s.shadowChunk) && !Filling(s.worker))
      && (s.worker.WFill? || s.worker.WRequeue? ==> !IsFilled(s.shadowChunk))
  }

  // ---- accounting ----

  /** A launched chunk whose completion is still to be accounted. */
  predicate Outstanding(s: State) {
    s.xferStarted || (s.worker.WHandoff? && StillOurs(s, s.worker.id) && s.shadowState.Ready?)
  }

  ghost predicate AccountOk(s: State) {
    && (s.worker.WHandoff? ==> !s.xferStarted)
    && Accounts(s.accounted, s.launched) && |s.accounted| <= |s.launched| <= |s.accounted| + 1
    && (Outstanding(s) || ((s.shadowState.Building? || s.shadowState.Ready?) && s.launched != []) ==>
        |s.accounted| < |s.launched|)
    && (!s.aborted ==>
          && (Outstanding(s) || |s.accounted| == |s.launched|)
          && (s.worker.WStopCheck? && s.xferStarted ==> s.shadowState.Ready?)
          && (s.worker.WClearDone? || s.worker.WClearStarted? ==> (s.xferStarted <==> s.shadowState.Ready?)))
  }

  // ---- ownership ----

  function Count(c: Option<Chunk>, x: nat): nat {
    if c.Some? && c.value.id == x then 1 else 0
  }

  /** The shadow chunk, unless the worker has freed it and not yet cleared the pointer. */
  function OwnedShadow(s: State): Option<Chunk> {
    if s.worker.WFreed? || s.worker.WDrop? then None else s.shadowChunk
  }

  function RefillChunk(s: State): Option<Chunk> {
    if Refilling(s.refill) then Some(s.refill.c) else None
  }

  /** In how many places chunk `x` is owned, counting the cleanup list and having been freed. */
  function Owners(s: State, x: nat): nat {
    Count(s.active, x) + Count(OwnedShadow(s), x) + Count(s.shadowNext, x) + Count(WorkerNext(s), x)
    + Count(RefillChunk(s), x) + s.cleanup[x] + s.freed[x]
  }

  /** Every chunk allocated so far has exactly one owner. */
  predicate OwnedOnce(s: State, x: nat) {
    Owners(s, x) == if x < s.nextId then 1 else 0
  }

  ghost predicate OwnOk(s: State) {
    forall x: nat :: OwnedOnce(s, x)
  }

  /** Free pool bursts plus those held by live chunks. */
  function PoolTotal(s: State): nat {
    s.poolFree + HeldBy(s.active) + HeldBy(OwnedShadow(s)) + HeldBy(s.shadowNext) + HeldBy(WorkerNext(s))
    + HeldBy(RefillChunk(s)) + s.cleanupHeld
  }

  // ---- coverage ----

  ghost predicate Chain(cs: seq<Chunk>) {
    (cs != [] ==> cs[0].lo == 0) && forall i :: 0 <= i < |cs| - 1 ==> cs[i + 1].lo == cs[i].hi
  }

  /** Bytes of entries `lo..hi`. */
  function Total(cfg: Config, lo: nat, hi: nat): nat {
    if lo <= hi <= |cfg.sg| then Bytes(cfg.sg[lo..hi]) else 0
  }

  /** Where the next chunk has to start: behind the last launched one, or behind the first chunk before any launch. */
  function Frontier(s: State): nat {
    if s.launched != [] then Last(s).hi else if s.active.Some? then s.active.value.hi else 0
  }

  /**
   In every run, also after stops, aborts and errors: each chunk that may be launched starts where the last one ended.
   */
  ghost predicate OrderOk(cfg: Config, s: State) {
    && Chain(s.launched)
    && (s.launched == [] ==> s.active.Some? && s.active.value.lo == 0)
    && (cfg.mode.Lazy? ==> s.sgCur == Frontier(s) && (Refilled(s.refill) ==> s.refill.c.lo == s.sgCur))
    && (Open(s.shadowState) && s.shadowChunk.Some? && !s.worker.WFreed? && !s.worker.WDrop? ==>
          if s.shadowChunk.value.bursts == [] then s.shadowPos == Frontier(s)
          else s.shadowChunk.value.lo == Frontier(s) && s.shadowChunk.value.hi == s.shadowPos)
  }

  ghost predicate ShadowCover(cfg: Config, s: State) {
    && s.active.Some? && s.active.value.hi <= |cfg.sg|
    && s.allocSz == Total(cfg, 0, s.active.value.hi)
    && (s.lazyMode ==>
          && s.active.value.hi <= s.shadowPos <= |cfg.sg|
          && (s.hasMore <==> s.shadowPos < |cfg.sg|)
          && s.sgRemaining > 0
          && (s.shadowChunk.Some? && !s.worker.WFreed? && !s.worker.WDrop? ==>
                s.shadowAllocSz == Total(cfg, s.active.value.hi, s.shadowPos)))
    && (!s.lazyMode ==> s.active.value.hi == |cfg.sg|)
    && (s.launched != [] ==> Last(s).hi == s.active.value.hi)
  }

  ghost predicate LazyCover(cfg: Config, s: State) {
    && s.sgCur <= |cfg.sg| && s.sgRemaining == |cfg.sg| - s.sgCur && s.lazyMode == (s.sgRemaining > 0)
    && (s.active.Some? ==> s.active.value.hi == s.sgCur)
    && s.allocSz == Total(cfg, 0, s.sgCur)
  }

  ghost predicate CoverOk(cfg: Config, s: State) {
    Clean(s) ==>
      && (!s.vd.Completed? ==>
            (if cfg.mode.Lazy? then LazyCover(cfg, s) else ShadowCover(cfg, s)) && (cfg.mode.Single? ==> !s.lazyMode))
      && (s.vd.Completed? ==>
            s.launched != [] && Last(s).hi == |cfg.sg| && s.shadowState.Idle? && s.allocSz == Total(cfg, 0, |cfg.sg|))
  }

  // ---- release ----

  ghost predicate ReleaseOk(s: State) {
    && (s.freeing.ShadowGone? || s.freeing.Released? ==>
          s.worker.WIdle? && !s.shadowQueued && s.shadowChunk.None? && s.shadowNext.None?)
    && (s.freeing.Released? ==> s.active.None? && s.refill.ZIdle? && !s.lazyQueued)
  }

  /** Chunks and bursts are conserved. */
  ghost predicate Conserved(cfg: Config, s: State) {
    OwnOk(s) && PoolTotal(s) == cfg.poolSize
  }

  ghost predicate Inv(cfg: Config, s: State) {
    && WellFormed(cfg)
    && EngineOk(cfg, s) && TurnOk(cfg, s) && LazyOk(cfg, s) && ShadowOk(cfg, s) && StopOk(cfg, s) && AccountOk(s)
    && Conserved(cfg, s) && OrderOk(cfg, s) && CoverOk(cfg, s) && ReleaseOk(s)
  }

  // ---- what one step may do to the table and the launch history ----

  /**
   The engine does not read the table any more, or has fetched all of its chunk and is stopped by what `table` has in
   the terminator's place.
   */
  predicate EngineDone(s: State, table: seq<Elem>) {
    s.engine.Running? ==> s.engine.irq && Stops(table, s.engine.ccs, s.engine.at)
  }

  /** A doorbell: one chunk more in the history, the engine at the start of its table, and no other chunk in flight. */
  ghost predicate Rung(cfg: Config, s: State, t: State) {
    && t.launched != [] && t.launched == s.launched + [Last(t)]
    && t.engine == Running(Last(t).cb, 0, false) && t.table == s.table && Holds(cfg, t.table, Last(t))
    && !s.xferStarted && (!s.overrun ==> EngineDone(s, s.table))
  }

  /**
   The table was written, with no chunk in flight and, unless an overrun is recorded, with an engine that is done with
   it.
   */
  ghost predicate Rewritten(cfg: Config, s: State, t: State) {
    && !s.xferStarted && (!t.overrun ==> EngineDone(s, t.table))
    && (!cfg.mode.Shadow? || cfg.stopBeforeDone ==> !s.engine.Running?)
  }

  ghost predicate Effect(cfg: Config, s: State, t: State) {
    (t.launched == s.launched && (t.table == s.table || Rewritten(cfg, s, t))) || Rung(cfg, s, t)
  }

  /** What every step from `s` to `t` is shown to do, except the copy of the shadow table. */
  ghost predicate Kept(cfg: Config, s: State, t: State) {
    Inv(cfg, t) && Effect(cfg, s, t) && t.overrun == s.overrun
  }

  /** What that copy is shown to do. */
  ghost predicate Copied(cfg: Config, s: State, t: State) {
    Inv(cfg, t) && Effect(cfg, s, t) && t.overrun == (s.overrun || Overruns(s, t.table))
  }
}
