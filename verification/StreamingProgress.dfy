/**
 Every transfer can complete: from every prepared descriptor whose remaining entries are addressable, in each mode, some
 run goes through all launches to a clean completion.
 */
module StreamingProgress {
  import opened Basics
  import opened Copy
  import opened DescriptorTable
  import BurstPool
  import Chunks
  import opened Streaming
  import opened StreamingInvariant
  import opened StreamingFacts
  import opened StreamingSafety
  import opened StreamingTheorems
  import opened StreamingErrors

  // ---- reachability ----

  /** Some run from `s0` whose copies are safe and in which nothing fails ends in `s`. */
  ghost predicate From(cfg: Config, s0: State, s: State) {
    exists states: seq<State>, actions: seq<Action> :: RunsTo(cfg, s0, s, states, actions)
  }

  ghost predicate RunsTo(cfg: Config, s0: State, s: State, states: seq<State>, actions: seq<Action>) {
    && IsRun(cfg, states, actions) && SafeCopies(states, actions, |actions|) && Faultless(states, actions, |actions|)
    && |states| == |actions| + 1 && states[0] == s0 && states[|actions|] == s
  }

  lemma Started(cfg: Config, s: State)
    requires Init(cfg, s)
    ensures From(cfg, s, s)
  {
    hide Init;
    assert RunsTo(cfg, s, s, [s], []);
  }

  lemma Go(cfg: Config, s0: State, s: State, a: Action)
    requires From(cfg, s0, s) && Enabled(cfg, s, a) && SafeCopy(s, a) && !Faulty(a) && !Surplus(s, a)
    ensures From(cfg, s0, Apply(cfg, s, a))
  {
    hide Init, Enabled, Apply, SafeCopy, Faulty, Surplus;
    var states, actions :| RunsTo(cfg, s0, s, states, actions);
    assert RunsTo(cfg, s0, Apply(cfg, s, a), states + [Apply(cfg, s, a)], actions + [a]);
  }

  lemma FromKeeps(cfg: Config, s0: State, s: State)
    requires From(cfg, s0, s)
    ensures Inv(cfg, s) && !s.overrun
  {
    hide IsRun, Inv, SafeCopies;
    var states, actions :| RunsTo(cfg, s0, s, states, actions);
    RunKeeps(cfg, states, actions, |actions|);
    SafeRun(cfg, states, actions, |actions|);
  }

  // ---- a chunk in flight ----

  /** The last launched chunk is about to be executed, and nothing has gone wrong. */
  ghost predicate InFlight(cfg: Config, s: State) {
    && Clean(s) && s.request.NoRequest? && s.vd.Issued? && s.launched != [] && s.xferStarted && !s.doneBit
    && s.engine == Running(Last(s).cb, 0, false)
    && s.lazyState.NotLazy? && s.refill.ZIdle? && !s.lazyQueued && s.worker.WIdle? && s.shadowNext.None?
    && (cfg.mode.Shadow? && s.lazyMode ==> s.shadowState.Building? && s.shadowQueued && s.hasMore)
  }

  /** What the invariant adds. */
  ghost predicate Loaded(cfg: Config, s: State) {
    && WellFormed(cfg) && s.launched != [] && Holds(cfg, s.table, Last(s)) && s.active == Some(Last(s))
    && Last(s).bursts != [] && Last(s).hi <= |cfg.sg| && |s.host| == |s.table| == cfg.llMax + 1
    && (s.lazyMode ==> !cfg.mode.Single? && Last(s).hi < |cfg.sg|)
    && (cfg.mode.Lazy? ==> s.sgCur == Last(s).hi && (s.lazyMode ==> s.sgRemaining > 0) && s.shadowState.Idle?)
    && (cfg.mode.Shadow? && s.lazyMode ==>
          s.shadowChunk.Some? && s.shadowChunk.value.bursts == [] && s.shadowPos == Last(s).hi)
  }

  lemma FlightLoaded(cfg: Config, s: State)
    requires Inv(cfg, s) && !s.overrun && InFlight(cfg, s)
    ensures Loaded(cfg, s)
  {
    hide WellFormed, Exact, Holds, Flat, Alternates, Accounts, Chain, Total, Conserved, StopOk, AccountOk, ReleaseOk;
    assert Good(cfg, Last(s));
    GoodNonEmpty(cfg, Last(s));
  }

  // ---- the engine runs the chunk and stops ----

  /** After `n` bursts were fetched. */
  function Fetched(cfg: Config, s: State, c: Chunk, n: nat): State
    requires n <= |c.bursts|
  {
    s.(engine := Running(c.cb, n, n == |c.bursts|), executed := s.executed + c.bursts[..n],
       doneBit := n == |c.bursts| && !cfg.stopBeforeDone)
  }

  lemma FetchNone(cfg: Config, s: State, c: Chunk)
    requires s.engine == Running(c.cb, 0, false) && !s.doneBit && c.bursts != []
    ensures Fetched(cfg, s, c, 0) == s
  {
    assert s.executed + c.bursts[..0] == s.executed;
  }

  lemma FetchOne(cfg: Config, s: State, c: Chunk, n: nat)
    requires Holds(cfg, s.table, c) && n < |c.bursts|
    ensures n < |s.table| && DoFetch(cfg, Fetched(cfg, s, c, n)) == Fetched(cfg, s, c, n + 1)
  {
    hide Holds, Emit;
    HoldsAt(cfg, s.table, c, n);
    assert s.executed + c.bursts[..n + 1] == s.executed + c.bursts[..n] + [c.bursts[n]];
  }

  lemma GoFetch(cfg: Config, s0: State, s: State)
    requires From(cfg, s0, s) && s.engine.Running? && s.engine.at < |s.table|
    ensures From(cfg, s0, DoFetch(cfg, s))
  {
    hide From, DoFetch;
    Go(cfg, s0, s, ByEngine(Fetch));
  }

  lemma {:induction false} FetchAll(cfg: Config, s0: State, s: State, c: Chunk, n: nat)
    requires From(cfg, s0, s) && s.engine == Running(c.cb, 0, false) && Holds(cfg, s.table, c) && !s.doneBit
    requires n <= |c.bursts| && c.bursts != []
    ensures From(cfg, s0, Fetched(cfg, s, c, n))
  {
    hide From, Emit, Holds, DoFetch;
    if n == 0 {
      FetchNone(cfg, s, c);
    } else {
      FetchAll(cfg, s0, s, c, n - 1);
      FetchOne(cfg, s, c, n - 1);
      GoFetch(cfg, s0, Fetched(cfg, s, c, n - 1));
    }
  }

  /** The engine has run chunk `c` and stopped, with the Done status up. */
  function Ran(s: State, c: Chunk): State {
    s.(engine := Stopped, executed := s.executed + c.bursts, doneBit := true)
  }

  lemma FetchTerminator(cfg: Config, s: State, c: Chunk)
    requires Holds(cfg, s.table, c)
    ensures |c.bursts| < |s.table| && DoFetch(cfg, Fetched(cfg, s, c, |c.bursts|)) == Ran(s, c)
  {
    hide Holds, Emit;
    HoldsAt(cfg, s.table, c, |c.bursts|);
    assert c.bursts[..|c.bursts|] == c.bursts;
  }

  lemma RunsChunk(cfg: Config, s0: State, s: State, c: Chunk)
    requires From(cfg, s0, s) && s.engine == Running(c.cb, 0, false) && Holds(cfg, s.table, c) && !s.doneBit
    requires c.bursts != []
    ensures From(cfg, s0, Ran(s, c))
  {
    hide From, Holds, DoFetch, Fetched, Ran;
    FetchAll(cfg, s0, s, c, |c.bursts|);
    FetchTerminator(cfg, s, c);
    FetchedAt(cfg, s, c);
    GoFetch(cfg, s0, Fetched(cfg, s, c, |c.bursts|));
  }

  lemma FetchedAt(cfg: Config, s: State, c: Chunk)
    ensures var t := Fetched(cfg, s, c, |c.bursts|);
            t.engine.Running? && t.engine.at == |c.bursts| && t.table == s.table
  {
  }

  // ---- the last chunk ----

  lemma LastCompletes(cfg: Config, s0: State, s: State) returns (t: State)
    requires From(cfg, s0, s) && InFlight(cfg, s) && Loaded(cfg, s) && !s.lazyMode
    ensures From(cfg, s0, t) && t.vd.Completed? && Clean(t) && t.launched == s.launched
  {
    hide From, Holds, WellFormed;
    var c := Last(s);
    RunsChunk(cfg, s0, s, c);
    var a := Ran(s, c);
    Go(cfg, s0, a, ByEngine(DoneIsr));
    t := Retire(Account(a.(doneBit := false), c), c);
    assert CompleteDone(cfg, a.(doneBit := false)) == t;
  }

  // ---- filling is possible ----

  lemma FillExists(cfg: Config, lo: nat) returns (hi: nat, bs: seq<Burst>)
    requires WellFormed(cfg) && lo < |cfg.sg| && Chunks.HostFits(cfg.sg, lo, |cfg.sg|)
    ensures lo < hi <= |cfg.sg| && FillsFrom(cfg, lo, [], hi, bs)
    ensures forall s: State :: FillAllowed(cfg, s, lo, [], FillOk(hi, bs, 0))
  {
    hide Bytes, Chunks.Fills, FillAllowed, Chunks.CanStarve;
    RestBounds(cfg, lo);
    var from := Chunks.Cursor(lo, |cfg.sg| - lo, Addr(cfg, lo));
    Chunks.CanFillIff(cfg.dir, cfg.sg, from, [], cfg.llMax);
    var want := Chunks.Wanted(|cfg.sg| - lo, 0, cfg.llMax, cfg.llMax);
    assert Chunks.HostFits(cfg.sg, lo, lo + want);
    assert Chunks.Fillable(cfg.sg, lo, want);
    hi :| Chunks.CanFillTo(cfg.dir, cfg.sg, from, [], cfg.llMax, hi);
    bs :| Chunks.Fills(cfg.dir, cfg.sg, from, [], cfg.llMax, hi, bs);
    FillsWithin(cfg, from, hi, bs);
    forall s: State ensures FillAllowed(cfg, s, lo, [], FillOk(hi, bs, 0)) {
      FillNextAllowed(cfg, s, lo, None, [], hi, bs, 0);
    }
  }

  lemma FillsWithin(cfg: Config, from: Chunks.Cursor, hi: nat, bs: seq<Burst>)
    requires Chunks.Fills(cfg.dir, cfg.sg, from, [], cfg.llMax, hi, bs)
    ensures from.pos < hi <= |cfg.sg|
  {
  }

  // ---- the next chunk in lazy mode ----

  /** Done noticed, the refill queued. */
  function Queued(s: State, c: Chunk): State {
    s.(doneBit := false, lazyState := Pending, lazyQueued := true, xferStarted := false,
       accounted := s.accounted + [c.id])
  }

  /** The refill worker has the chunk and is about to fill it. */
  function Emptied(s: State, c: Chunk): State {
    s.(lazyQueued := false, lazyState := Preparing, active := None, poolFree := s.poolFree + c.held,
       refill := ZFill(FreeBursts(c)))
  }

  lemma LazyDone(cfg: Config, s0: State, s: State)
    requires From(cfg, s0, s) && InFlight(cfg, s) && Loaded(cfg, s) && s.lazyMode && cfg.mode.Lazy?
    ensures From(cfg, s0, Queued(Ran(s, Last(s)), Last(s)))
  {
    hide From, Holds, WellFormed;
    var c := Last(s);
    RunsChunk(cfg, s0, s, c);
    var a := Ran(s, c);
    Go(cfg, s0, a, ByEngine(DoneIsr));
    assert DeferLazyDone(cfg, a.(doneBit := false), c) == Queued(a, c);
  }

  lemma LazyEmpties(cfg: Config, s0: State, s: State, c: Chunk)
    requires From(cfg, s0, s) && s.lazyQueued && s.refill.ZIdle? && s.engine.Stopped? && s.lazyState.Pending?
    requires s.vd.Issued? && s.active == Some(c) && s.lazyMode && s.request.NoRequest? && s.sgRemaining > 0
    ensures From(cfg, s0, Emptied(s, c))
  {
    hide From;
    var a := s.(lazyQueued := false, refill := ZWait);
    Go(cfg, s0, s, ByRefill(LazyBegin));
    var b := a.(refill := ZClaim(true));
    Go(cfg, s0, a, ByRefill(LazyWait(true)));
    LazyClaims(cfg, s0, b, c);
  }

  lemma LazyClaims(cfg: Config, s0: State, b: State, c: Chunk)
    requires From(cfg, s0, b) && b.refill == ZClaim(true) && b.lazyState.Pending?
    requires b.vd.Issued? && b.active == Some(c) && b.lazyMode && b.request.NoRequest? && b.sgRemaining > 0
    ensures From(cfg, s0, b.(lazyState := Preparing, active := None, poolFree := b.poolFree + c.held,
                             refill := ZFill(FreeBursts(c))))
  {
    hide From;
    var d := b.(active := None, lazyState := Preparing, refill := ZRelease(c));
    Go(cfg, s0, b, ByRefill(LazyClaim));
    assert DoLazyClaim(b) == d;
    Go(cfg, s0, d, ByRefill(LazyRelease));
  }

  /** The chunk filled again with entries up to `hi`. */
  function Filled(s: State, c: Chunk, hi: nat, bs: seq<Burst>): Chunk {
    c.(cb := !c.cb, lo := s.sgCur, hi := hi, bursts := bs)
  }

  lemma LazyFills(cfg: Config, s0: State, s: State, c: Chunk, hi: nat, bs: seq<Burst>) returns (t: State)
    requires From(cfg, s0, s) && s.refill == ZFill(c) && c.bursts == [] && |s.host| == |s.table| == cfg.llMax + 1
    requires s.sgCur < hi <= |cfg.sg| && FillAllowed(cfg, s, s.sgCur, [], FillOk(hi, bs, 0))
    ensures From(cfg, s0, t)
    ensures var w := Written(cfg, Filled(s, c, hi, bs), 0);
            t == s.(host := WriteHost(cfg, s, w), doneBit := false, refill := ZCopy(w))
  {
    hide From, FillAllowed, Merge, Splice, Emit;
    var a := s.(refill := ZWrite(Filled(s, c, hi, bs)));
    LazyFillHere(cfg, s, c, hi, bs);
    Go(cfg, s0, s, ByRefill(LazyFill(FillOk(hi, bs, 0))));
    Go(cfg, s0, a, ByRefill(LazyWrite(true, 0)));
    t := LazyWritten(cfg, a, 0);
  }

  lemma LazyFillHere(cfg: Config, s: State, c: Chunk, hi: nat, bs: seq<Burst>)
    requires s.refill == ZFill(c) && s.sgCur < hi <= |cfg.sg| && FillAllowed(cfg, s, s.sgCur, [], FillOk(hi, bs, 0))
    ensures CanFill(cfg, s, s.sgCur, FillOk(hi, bs, 0))
    ensures DoLazyFill(cfg, s, FillOk(hi, bs, 0)) == s.(refill := ZWrite(Filled(s, c, hi, bs)))
  {
    hide FillsFrom, FailsFrom;
  }

  lemma LazyLaunches(cfg: Config, s0: State, s: State, w: Chunk) returns (t: State)
    requires From(cfg, s0, s) && s.refill == ZCopy(w) && Clean(s) && s.request.NoRequest? && !s.doneBit
    requires s.vd.Issued? && s.lazyState.Preparing? && s.lazyMode && w.lo < w.hi <= |cfg.sg|
    requires s.worker.WIdle? && s.shadowNext.None? && !s.lazyQueued && cfg.mode.Lazy?
    ensures From(cfg, s0, t) && InFlight(cfg, t) && t.launched == s.launched + [w]
  {
    hide From, CopyTable, Bytes;
    var a := s.(table := CopyTable(s, |w.bursts|), refill := ZCommit(w, true));
    Go(cfg, s0, s, ByRefill(LazyCopy(true, s.table)));
    assert DoLazyCopy(s, true, s.table) == a;
    Go(cfg, s0, a, ByRefill(LazyCommit));
    t := Refill(cfg, a);
    assert DoLazyCommit(cfg, a) == t;
  }

  lemma NextLazy(cfg: Config, s0: State, s: State) returns (t: State)
    requires From(cfg, s0, s) && InFlight(cfg, s) && Loaded(cfg, s) && s.lazyMode && cfg.mode.Lazy?
    requires Chunks.HostFits(cfg.sg, Last(s).hi, |cfg.sg|)
    ensures From(cfg, s0, t) && InFlight(cfg, t) && Last(s).hi < Last(t).hi <= |cfg.sg|
  {
    hide From, Holds, WellFormed, FillAllowed, Chunks.HostFits, FillsFrom, Merge, WriteHost;
    var c := Last(s);
    LazyDone(cfg, s0, s);
    var a := Queued(Ran(s, c), c);
    LazyEmpties(cfg, s0, a, c);
    var b := Emptied(a, c);
    var hi, bs := FillExists(cfg, c.hi);
    assert FillAllowed(cfg, b, b.sgCur, [], FillOk(hi, bs, 0));
    var d := LazyFills(cfg, s0, b, FreeBursts(c), hi, bs);
    var w := Written(cfg, Filled(b, FreeBursts(c), hi, bs), 0);
    t := LazyLaunches(cfg, s0, d, w);
    assert Last(t) == w;
  }

  // ---- the next chunk in shadow mode ----

  /** The shadow chunk built from entries up to `hi`, and written out. */
  function Built(cfg: Config, s: State, hi: nat, bs: seq<Burst>): Chunk
    requires s.shadowChunk.Some?
  {
    Written(cfg, s.shadowChunk.value.(lo := s.shadowPos, hi := hi, bursts := bs), 0)
  }

  /** The chunk of the build after this one, if entries are left. */
  function Fresh(cfg: Config, s: State, hi: nat): Option<Chunk> {
    if hi < |cfg.sg| then Some(Chunk(s.nextId, false, 0, 0, [], 0)) else None
  }

  lemma ShadowFills(cfg: Config, s0: State, s: State, hi: nat, bs: seq<Burst>) returns (t: State)
    requires From(cfg, s0, s) && s.shadowQueued && s.worker.WIdle? && s.shadowState.Building? && s.shadowChunk.Some?
    requires s.shadowChunk.value.bursts == [] && s.shadowPos < hi <= |cfg.sg|
    requires forall x: State :: FillAllowed(cfg, x, s.shadowPos, [], FillOk(hi, bs, 0))
    ensures From(cfg, s0, t)
    ensures t == s.(shadowQueued := false, worker := WAlloc(s.shadowChunk.value.id), shadowPos := hi,
                    hasMore := hi < |cfg.sg|, shadowAllocSz := Counted(cfg, s, hi),
                    shadowChunk := Some(Built(cfg, s, hi, bs)), host := WriteHost(cfg, s, Built(cfg, s, hi, bs)))
  {
    hide From, FillAllowed, Merge, Splice, Emit, Bytes;
    var c := s.shadowChunk.value;
    var a := s.(shadowQueued := false, worker := WFill(c.id));
    Go(cfg, s0, s, ByBuild(ShadowBegin));
    assert DoShadowBegin(s) == a;
    assert FillAllowed(cfg, a, s.shadowPos, [], FillOk(hi, bs, 0));
    ShadowFillHere(cfg, a, hi, bs);
    Go(cfg, s0, a, ByBuild(ShadowFill(FillOk(hi, bs, 0))));
    var b := ShadowFilled(cfg, a, hi, bs, 0);
    Go(cfg, s0, b, ByBuild(ShadowPrebuild(true, 0)));
    t := ShadowWritten(cfg, b, 0);
  }

  lemma ShadowFillHere(cfg: Config, s: State, hi: nat, bs: seq<Burst>)
    requires s.worker.WFill? && s.shadowChunk.Some? && s.shadowPos < hi <= |cfg.sg|
    requires FillAllowed(cfg, s, s.shadowPos, [], FillOk(hi, bs, 0))
    ensures CanFill(cfg, s, s.shadowPos, FillOk(hi, bs, 0))
    ensures DoShadowFill(cfg, s, FillOk(hi, bs, 0)) == ShadowFilled(cfg, s, hi, bs, 0)
  {
    hide FillsFrom, FailsFrom, Counted;
  }

  /** Published, with the worker at rest again. */
  lemma ShadowReady(cfg: Config, s0: State, s: State, id: nat, next: Option<Chunk>) returns (t: State)
    requires From(cfg, s0, s) && s.worker == WAlloc(id) && s.shadowState.Building? && s.engine.Running?
    requires next == if s.hasMore then Some(Chunk(s.nextId, false, 0, 0, [], 0)) else None
    ensures From(cfg, s0, t)
    ensures t == s.(nextId := t.nextId, shadowState := Ready, shadowNext := next, worker := WIdle)
  {
    hide From;
    var a := s.(nextId := if next.Some? then s.nextId + 1 else s.nextId, worker := WPublish(id, next));
    Go(cfg, s0, s, ByBuild(ShadowAlloc(true)));
    assert DoShadowAlloc(s, true) == a;
    t := ShadowPublishes(cfg, s0, a, id, next);
  }

  lemma ShadowPublishes(cfg: Config, s0: State, a: State, id: nat, next: Option<Chunk>) returns (t: State)
    requires From(cfg, s0, a) && a.worker == WPublish(id, next) && a.shadowState.Building? && a.engine.Running?
    ensures From(cfg, s0, t) && t == a.(shadowState := Ready, shadowNext := next, worker := WIdle)
  {
    hide From;
    var b := a.(shadowState := Ready, shadowNext := next, worker := WStopCheck(id));
    Go(cfg, s0, a, ByBuild(ShadowPublish));
    assert DoShadowPublish(a) == b;
    t := ShadowRests(cfg, s0, b, id);
  }

  lemma ShadowRests(cfg: Config, s0: State, b: State, id: nat) returns (t: State)
    requires From(cfg, s0, b) && b.worker == WStopCheck(id) && b.shadowState.Ready? && b.engine.Running?
    ensures From(cfg, s0, t) && t == b.(worker := WIdle)
  {
    hide From;
    var c := b.(worker := WRecheck(id));
    Go(cfg, s0, b, ByHand(ShadowStopCheck));
    assert DoShadowStopCheck(b) == c;
    t := c.(worker := WIdle);
    Go(cfg, s0, c, ByHand(ShadowRecheck));
    assert DoShadowRecheck(c) == t;
  }

  /** The running chunk ends, which queues another pass. */
  lemma ShadowDone(cfg: Config, s0: State, s: State, c: Chunk) returns (t: State)
    requires From(cfg, s0, s) && s.doneBit && s.xferStarted && s.vd.Issued? && s.active == Some(c)
    requires s.lazyMode && s.request.NoRequest? && s.shadowState.Ready?
    ensures From(cfg, s0, t)
    ensures t == s.(doneBit := false, xferStarted := false, accounted := s.accounted + [c.id],
                    shadowState := IsrPending, shadowQueued := true)
  {
    hide From, CompleteDone;
    Go(cfg, s0, s, ByEngine(DoneIsr));
    t := s.(doneBit := false, xferStarted := false, accounted := s.accounted + [c.id], shadowState := IsrPending,
            shadowQueued := true);
    DoneWaits(cfg, s, c);
  }

  lemma DoneWaits(cfg: Config, s: State, c: Chunk)
    requires s.vd.Issued? && s.active == Some(c) && s.lazyMode && s.request.NoRequest? && s.shadowState.Ready?
    ensures CompleteDone(cfg, s.(doneBit := false))
         == s.(doneBit := false, xferStarted := false, accounted := s.accounted + [c.id], shadowState := IsrPending,
               shadowQueued := true)
  {
  }

  /** The built chunk is taken up and copied. */
  lemma ShadowTakes(cfg: Config, s0: State, s: State, w: Chunk) returns (t: State)
    requires From(cfg, s0, s) && s.engine.Stopped? && s.shadowQueued && s.worker.WIdle?
    requires s.shadowState.IsrPending? && s.shadowChunk == Some(w) && w.bursts != [] && !s.overrun
    ensures From(cfg, s0, t)
    ensures t == s.(shadowNext := None, shadowQueued := false, table := t.table,
                    worker := WLaunch(w.id, s.shadowNext))
  {
    hide From, CopyTable, DoShadowBegin;
    var b := s.(shadowQueued := false, shadowNext := None, worker := WPrecopy(w.id, s.shadowNext));
    Go(cfg, s0, s, ByBuild(ShadowBegin));
    BeginsTaking(s, w);
    ShadowCopies(cfg, s0, b);
    t := CopiedStopped(b);
  }

  lemma BeginsTaking(s: State, w: Chunk)
    requires s.shadowState.IsrPending? && s.shadowChunk == Some(w) && w.bursts != []
    ensures DoShadowBegin(s) == s.(shadowQueued := false, shadowNext := None, worker := WPrecopy(w.id, s.shadowNext))
  {
  }

  function CopiedStopped(s: State): State
    requires s.worker.WPrecopy? && s.shadowChunk.Some?
  {
    s.(table := CopyTable(s, |s.shadowChunk.value.bursts|), worker := WLaunch(s.worker.id, s.worker.next))
  }

  lemma SamePrecopy(s: State)
    requires s.worker.WPrecopy? && s.shadowChunk.Some? && s.engine.Stopped? && !s.overrun
    ensures Precopied(s) == CopiedStopped(s)
  {
    hide CopyTable;
  }

  lemma ShadowCopies(cfg: Config, s0: State, s: State)
    requires From(cfg, s0, s) && s.worker.WPrecopy? && s.shadowChunk.Some? && s.engine.Stopped? && !s.overrun
    ensures From(cfg, s0, CopiedStopped(s))
  {
    hide From, Precopied, CopiedStopped;
    SamePrecopy(s);
    Go(cfg, s0, s, ByHand(ShadowPrecopy(true, false, s.table)));
  }

  lemma ShadowLaunches(cfg: Config, s0: State, s: State, w: Chunk) returns (t: State)
    requires From(cfg, s0, s) && s.worker.WLaunch? && s.shadowChunk == Some(w) && s.shadowState.IsrPending?
    requires Clean(s) && s.request.NoRequest? && s.vd.Issued? && s.lazyState.NotLazy? && s.refill.ZIdle?
    requires !s.lazyQueued
    requires s.shadowNext.None? && cfg.mode.Shadow? && (s.hasMore ==> s.worker.next.Some?)
    ensures From(cfg, s0, t) && InFlight(cfg, t) && t.launched == s.launched + [w]
    ensures s.hasMore ==> t.lazyMode == s.lazyMode
  {
    hide From;
    Go(cfg, s0, s, ByHand(ShadowLaunch(true)));
    if s.hasMore {
      var a := LaunchedOne(s);
      Requeues(cfg, s0, s);
      t := a.(shadowQueued := true, worker := WIdle);
      OneInFlight(cfg, s, w);
    } else {
      t := LaunchedLast(s);
      assert DoShadowLaunch(s, true) == t;
      LastInFlight(cfg, s, w);
    }
  }

  lemma Requeues(cfg: Config, s0: State, s: State)
    requires s.worker.WLaunch? && s.shadowChunk.Some? && !CancelSeen(s) && s.hasMore && s.worker.next.Some?
    requires From(cfg, s0, DoShadowLaunch(s, true))
    ensures From(cfg, s0, LaunchedOne(s).(shadowQueued := true, worker := WIdle))
  {
    hide From;
    var a := LaunchedOne(s);
    assert DoShadowLaunch(s, true) == a;
    Go(cfg, s0, a, ByHand(ShadowRequeue));
  }

  lemma OneInFlight(cfg: Config, s: State, w: Chunk)
    requires s.worker.WLaunch? && s.shadowChunk == Some(w) && s.hasMore && s.worker.next.Some?
    requires Clean(s) && s.request.NoRequest? && s.vd.Issued? && s.lazyState.NotLazy? && s.refill.ZIdle?
    requires !s.lazyQueued
    ensures var t := LaunchedOne(s).(shadowQueued := true, worker := WIdle);
            InFlight(cfg, t) && t.launched == s.launched + [w] && t.lazyMode == s.lazyMode
  {
  }

  lemma LastInFlight(cfg: Config, s: State, w: Chunk)
    requires s.worker.WLaunch? && s.shadowChunk == Some(w) && s.shadowNext.None?
    requires Clean(s) && s.request.NoRequest? && s.vd.Issued? && s.lazyState.NotLazy? && s.refill.ZIdle?
    requires !s.lazyQueued
    ensures var t := LaunchedLast(s); InFlight(cfg, t) && t.launched == s.launched + [w]
  {
  }

  lemma NextShadow(cfg: Config, s0: State, s: State) returns (t: State)
    requires From(cfg, s0, s) && InFlight(cfg, s) && Loaded(cfg, s) && s.lazyMode && cfg.mode.Shadow? && !s.overrun
    requires Chunks.HostFits(cfg.sg, Last(s).hi, |cfg.sg|)
    ensures From(cfg, s0, t) && InFlight(cfg, t) && Last(s).hi < Last(t).hi <= |cfg.sg|
  {
    hide From, Holds, WellFormed, FillAllowed, Chunks.HostFits, FillsFrom, Merge, WriteHost, Counted, CopyTable;
    var hi, bs := FillExists(cfg, Last(s).hi);
    t := NextShadowTo(cfg, s0, s, hi, bs);
  }

  lemma NextShadowTo(cfg: Config, s0: State, s: State, hi: nat, bs: seq<Burst>) returns (t: State)
    requires From(cfg, s0, s) && InFlight(cfg, s) && Loaded(cfg, s) && s.lazyMode && cfg.mode.Shadow? && !s.overrun
    requires Last(s).hi < hi <= |cfg.sg| && FillsFrom(cfg, Last(s).hi, [], hi, bs)
    requires forall x: State :: FillAllowed(cfg, x, Last(s).hi, [], FillOk(hi, bs, 0))
    ensures From(cfg, s0, t) && InFlight(cfg, t) && Last(t).hi == hi && (hi < |cfg.sg| ==> t.lazyMode)
  {
    hide From, Holds, WellFormed, FillAllowed, FillsFrom, Merge, WriteHost, Counted, CopyTable;
    var c := Last(s);
    var a := ShadowFills(cfg, s0, s, hi, bs);
    var w := a.shadowChunk.value;
    var b := ShadowReady(cfg, s0, a, w.id, Fresh(cfg, a, hi));
    RunsChunk(cfg, s0, b, c);
    BuiltNonEmpty(cfg, s, hi, bs);
    var d := ShadowDone(cfg, s0, Ran(b, c), c);
    var e := ShadowTakes(cfg, s0, d, w);
    t := ShadowLaunches(cfg, s0, e, w);
    assert Last(t) == w;
  }

  lemma BuiltNonEmpty(cfg: Config, s: State, hi: nat, bs: seq<Burst>)
    requires s.shadowChunk.Some? && WellFormed(cfg) && FillsFrom(cfg, s.shadowPos, [], hi, bs)
    ensures Built(cfg, s, hi, bs).bursts != [] && Built(cfg, s, hi, bs).hi == hi
  {
    hide WellFormed, FillsFrom, FilledFrom, Merge;
    FreshFill(cfg, s.shadowPos, hi, bs);
    FilledExact(cfg, s.shadowPos, hi, bs);
    var c := s.shadowChunk.value.(lo := s.shadowPos, hi := hi, bursts := bs);
    WrittenGood(cfg, c, 0);
  }

  // ---- the first chunk ----

  lemma FirstPrepared(cfg: Config, s0: State) returns (t: State)
    requires Init(cfg, s0)
    ensures From(cfg, s0, t)
    ensures var c := Written(cfg, s0.active.value, 0);
            t == s0.(vd := Issued, busy := true, active := Some(c), host := WriteHost(cfg, s0, c), launch := LCopy(0))
  {
    hide From, Merge, Splice, Emit, FilledFrom, Bytes;
    Started(cfg, s0);
    var a := s0.(vd := Issued, busy := true, pending := Some(0), launchQueued := true);
    Go(cfg, s0, s0, ByLaunch(Issue));
    assert DoIssue(s0) == a;
    var b := a.(launchQueued := false, pending := None, launch := LWrite(0));
    Go(cfg, s0, a, ByLaunch(LaunchBegin(true)));
    assert DoLaunchBegin(a, true) == b;
    Go(cfg, s0, b, ByLaunch(LaunchWrite(true, 0)));
    t := LaunchWritten(cfg, b, 0);
  }

  lemma FirstLaunches(cfg: Config, s0: State) returns (t: State)
    requires Init(cfg, s0)
    ensures From(cfg, s0, t) && InFlight(cfg, t) && t.launched != [] && Last(t).hi == s0.active.value.hi <= |cfg.sg|
    ensures t.lazyMode == s0.lazyMode == !cfg.mode.Single? && (t.lazyMode ==> Last(t).hi < |cfg.sg|)
  {
    hide From, Merge, Splice, Emit, FilledFrom, Bytes, CopyTable;
    var a := FirstPrepared(cfg, s0);
    var c := a.active.value;
    var b := a.(table := CopyTable(a, |c.bursts|), launch := LCommit(0, true));
    Go(cfg, s0, a, ByLaunch(LaunchCopy(true, a.table)));
    assert DoLaunchCopy(a, true, a.table) == b;
    Go(cfg, s0, b, ByLaunch(LaunchCommit(true)));
    t := LaunchRung(b);
    assert DoLaunchCommit(b, true) == t;
  }

  // ---- and all of them ----

  lemma {:induction false} Finishes(cfg: Config, s0: State, s: State) returns (t: State)
    requires From(cfg, s0, s) && InFlight(cfg, s) && s.launched != [] && Last(s).hi <= |cfg.sg|
    requires Chunks.HostFits(cfg.sg, Last(s).hi, |cfg.sg|)
    ensures From(cfg, s0, t) && t.vd.Completed? && Clean(t)
    decreases |cfg.sg| - Last(s).hi
  {
    hide From, Inv, InFlight, Loaded;
    FromKeeps(cfg, s0, s);
    FlightLoaded(cfg, s);
    if !s.lazyMode {
      t := LastCompletes(cfg, s0, s);
    } else {
      LoadedMode(cfg, s);
      var n := Continues(cfg, s0, s);
      t := Finishes(cfg, s0, n);
    }
  }

  lemma LoadedMode(cfg: Config, s: State)
    requires Loaded(cfg, s) && s.lazyMode
    ensures !cfg.mode.Single?
  {
  }

  lemma Continues(cfg: Config, s0: State, s: State) returns (t: State)
    requires From(cfg, s0, s) && InFlight(cfg, s) && Loaded(cfg, s) && s.lazyMode && !cfg.mode.Single? && !s.overrun
    requires s.launched != [] && Last(s).hi <= |cfg.sg| && Chunks.HostFits(cfg.sg, Last(s).hi, |cfg.sg|)
    ensures From(cfg, s0, t) && InFlight(cfg, t) && t.launched != []
    ensures Last(s).hi < Last(t).hi <= |cfg.sg| && Chunks.HostFits(cfg.sg, Last(t).hi, |cfg.sg|)
  {
    hide From, Loaded;
    if cfg.mode.Lazy? { t := NextLazy(cfg, s0, s); } else { t := NextShadow(cfg, s0, s); }
  }

  /**
   From every prepared descriptor whose entries behind the first chunk are addressable, whatever the mode and whenever
   the engine raises Done, some run with safe copies in which nothing fails completes the cookie without abort, stop or
   error.
   */
  lemma EveryTransferCanComplete(cfg: Config, s0: State)
    requires Init(cfg, s0) && Chunks.HostFits(cfg.sg, s0.active.value.hi, |cfg.sg|)
    ensures exists t :: From(cfg, s0, t) && t.vd.Completed? && Clean(t)
  {
    hide From, Init, InFlight;
    var s := FirstLaunches(cfg, s0);
    var t := Finishes(cfg, s0, s);
  }

  // ---- a Done that comes while the worker is busy ----

  /** The last build is published, and the chunk before it ends, before the worker looks again. */
  lemma LateDone(cfg: Config, s0: State, s: State, id: nat, c: Chunk) returns (t: State)
    requires From(cfg, s0, s) && s.worker == WAlloc(id) && s.shadowState.Building? && !s.hasMore
    requires s.engine == Running(c.cb, 0, false) && Holds(cfg, s.table, c) && !s.doneBit && c.bursts != []
    requires s.xferStarted && s.vd.Issued? && s.active == Some(c) && s.lazyMode && s.request.NoRequest?
    ensures From(cfg, s0, t)
    ensures t == s.(shadowState := IsrPending, shadowNext := None, worker := WRecheck(id), shadowQueued := true,
                    xferStarted := false, accounted := s.accounted + [c.id], engine := Stopped,
                    executed := s.executed + c.bursts)
  {
    hide From, Holds;
    var a := s.(worker := WPublish(id, None));
    Go(cfg, s0, s, ByBuild(ShadowAlloc(true)));
    assert DoShadowAlloc(s, true) == a;
    var b := a.(shadowState := Ready, shadowNext := None, worker := WStopCheck(id));
    Go(cfg, s0, a, ByBuild(ShadowPublish));
    assert DoShadowPublish(a) == b;
    t := LateStop(cfg, s0, b, id, c);
  }

  lemma LateStop(cfg: Config, s0: State, b: State, id: nat, c: Chunk) returns (t: State)
    requires From(cfg, s0, b) && b.worker == WStopCheck(id) && b.shadowState.Ready?
    requires b.engine == Running(c.cb, 0, false) && Holds(cfg, b.table, c) && !b.doneBit && c.bursts != []
    requires b.xferStarted && b.vd.Issued? && b.active == Some(c) && b.lazyMode && b.request.NoRequest?
    ensures From(cfg, s0, t)
    ensures t == b.(shadowState := IsrPending, worker := WRecheck(id), shadowQueued := true, xferStarted := false,
                    accounted := b.accounted + [c.id], engine := Stopped, executed := b.executed + c.bursts)
  {
    hide From, Holds;
    var d := b.(worker := WRecheck(id));
    Go(cfg, s0, b, ByHand(ShadowStopCheck));
    assert DoShadowStopCheck(b) == d;
    RunsChunk(cfg, s0, d, c);
    t := ShadowDone(cfg, s0, Ran(d, c), c);
  }

  /** The worker takes the chunk up at once and launches it; the pass that was queued is left over. */
  lemma LateLaunch(cfg: Config, s0: State, s: State, w: Chunk) returns (t: State)
    requires From(cfg, s0, s) && s.worker == WRecheck(w.id) && s.shadowState.IsrPending? && s.shadowQueued && !s.hasMore
    requires s.shadowChunk == Some(w) && s.lazyMode && s.shadowNext.None? && s.engine.Stopped? && !s.overrun
    requires Clean(s) && s.request.NoRequest? && s.vd.Issued?
    ensures From(cfg, s0, t) && t.shadowQueued && t.worker.WIdle? && t.shadowChunk.None? && t.xferStarted
    ensures t.vd.Issued?
  {
    hide From, CopyTable;
    var a := s.(worker := WPrecopy(w.id, None));
    Go(cfg, s0, s, ByHand(ShadowRecheck));
    assert DoShadowRecheck(s) == a;
    ShadowCopies(cfg, s0, a);
    t := LeftOver(cfg, s0, CopiedStopped(a));
  }

  lemma LeftOver(cfg: Config, s0: State, s: State) returns (t: State)
    requires From(cfg, s0, s) && s.worker.WLaunch? && s.shadowChunk.Some? && s.shadowQueued && !s.hasMore
    requires Clean(s) && s.request.NoRequest? && s.vd.Issued? && s.shadowState.IsrPending?
    ensures From(cfg, s0, t) && t.shadowQueued && t.worker.WIdle? && t.shadowChunk.None? && t.xferStarted
    ensures t.vd.Issued?
  {
    hide From;
    Go(cfg, s0, s, ByHand(ShadowLaunch(true)));
    t := LaunchedLast(s);
    assert DoShadowLaunch(s, true) == t;
  }

  lemma {:induction false} RunsIntoSurplus(cfg: Config, s0: State, s: State) returns (t: State)
    requires From(cfg, s0, s) && InFlight(cfg, s) && s.launched != [] && Last(s).hi < |cfg.sg| && s.lazyMode
    requires Chunks.HostFits(cfg.sg, Last(s).hi, |cfg.sg|) && cfg.mode.Shadow?
    ensures From(cfg, s0, t) && t.shadowQueued && t.worker.WIdle? && t.shadowChunk.None? && t.xferStarted
    ensures t.vd.Issued?
    decreases |cfg.sg| - Last(s).hi
  {
    hide From, Inv, Holds, WellFormed, FillAllowed, FillsFrom, Merge, WriteHost, Counted, CopyTable;
    FromKeeps(cfg, s0, s);
    FlightLoaded(cfg, s);
    var c := Last(s);
    var hi, bs := FillExists(cfg, c.hi);
    if hi < |cfg.sg| {
      var n := NextShadowTo(cfg, s0, s, hi, bs);
      t := RunsIntoSurplus(cfg, s0, n);
    } else {
      var a := ShadowFills(cfg, s0, s, hi, bs);
      var w := a.shadowChunk.value;
      var b := LateDone(cfg, s0, a, w.id, c);
      t := LateLaunch(cfg, s0, b, w);
    }
  }

  /**
   In shadow mode every such transfer can fail although nothing does: some run leads to a pass, queued by the Done that
   came while the worker was busy, which begins with the last chunk already launched and in flight, and raises an error.
   */
  lemma HealthyTransferCanFail(cfg: Config, s0: State)
    requires Init(cfg, s0) && Chunks.HostFits(cfg.sg, s0.active.value.hi, |cfg.sg|) && cfg.mode.Shadow?
    ensures exists s ::
              && From(cfg, s0, s) && s.xferStarted && s.vd.Issued? && Clean(s)
              && Enabled(cfg, s, ByBuild(ShadowBegin)) && Apply(cfg, s, ByBuild(ShadowBegin)).hwErr
  {
    hide From, Init, InFlight, Fine;
    var a := FirstLaunches(cfg, s0);
    var s := RunsIntoSurplus(cfg, s0, a);
    FromClean(cfg, s0, s);
    SurplusFails(cfg, s);
    assert From(cfg, s0, s) && Apply(cfg, s, ByBuild(ShadowBegin)).hwErr;
  }

  lemma FromClean(cfg: Config, s0: State, s: State)
    requires From(cfg, s0, s)
    ensures Clean(s)
  {
    hide IsRun, Fine, SafeCopies, Faultless;
    var states, actions :| RunsTo(cfg, s0, s, states, actions);
    FaultlessFine(cfg, states, actions, |actions|);
    FineClean(cfg, s);
  }

  lemma SurplusFails(cfg: Config, s: State)
    requires s.shadowQueued && s.worker.WIdle? && s.shadowChunk.None?
    ensures Enabled(cfg, s, ByBuild(ShadowBegin)) && Apply(cfg, s, ByBuild(ShadowBegin)).hwErr
  {
    hide DoShadowBegin;
    BeginSurplus(s);
  }

  lemma BeginSurplus(s: State)
    requires s.shadowChunk.None?
    ensures DoShadowBegin(s).hwErr
  {
  }
}
