/**
 Concrete runs of a streamed list.  The first chunk is launched, the second one built meanwhile, and the Done status
 of the first one arrives while the engine has still to read its terminator.  From there
 - a stop request, or an abort, makes the worker leave the built chunk behind, where another pass can fill it once
   more;
 - or the copy of the second table, taken too early, moves bytes twice.
 */
module StreamingWitness {
  import opened Basics
  import opened Copy
  import opened DescriptorTable
  import Chunks
  import opened Streaming
  import opened StreamingInvariant
  import opened StreamingFacts
  import opened StreamingSafety
  import opened StreamingTheorems
  import opened StreamingOverrun
  import StreamingProgress

  /** Reached by a run whose copies were safe. */
  ghost predicate Reachable(cfg: Config, s: State) {
    exists states: seq<State>, actions: seq<Action> ::
      IsRun(cfg, states, actions) && SafeCopies(states, actions, |actions|) && states[|actions|] == s
  }

  lemma Start(cfg: Config, s: State)
    requires Init(cfg, s)
    ensures Reachable(cfg, s)
  {
    hide Init;
    var states: seq<State>, actions: seq<Action> := [s], [];
    assert IsRun(cfg, states, actions) && SafeCopies(states, actions, |actions|) && states[|actions|] == s;
  }

  lemma Next(cfg: Config, s: State, a: Action)
    requires Reachable(cfg, s) && Enabled(cfg, s, a) && SafeCopy(s, a)
    ensures Reachable(cfg, Apply(cfg, s, a))
  {
    hide Init, Enabled, Apply, SafeCopy;
    var states, actions :|
      IsRun(cfg, states, actions) && SafeCopies(states, actions, |actions|) && states[|actions|] == s;
    var states', actions' := states + [Apply(cfg, s, a)], actions + [a];
    assert IsRun(cfg, states', actions') && SafeCopies(states', actions', |actions'|)
        && states'[|actions'|] == Apply(cfg, s, a);
  }

  // ---- a list streamed in chunks `0..mid` and `mid..end` ----

  datatype Case = Case(sg: seq<Sg>, llMax: nat, mid: nat, bs0: seq<Burst>, end: nat, bs1: seq<Burst>)

  function Cfg(k: Case): Config {
    Config(k.sg, 100, Write, k.llMax, 0, 0, Shadow, false)
  }

  /** Both chunks are what the fill produces, the first one full, and neither is changed by the merge pass. */
  ghost predicate Streams(k: Case) {
    && WellFormed(Cfg(k)) && 0 < k.mid < k.end <= |k.sg| && 0 < k.llMax && 1 <= |k.bs1| <= k.llMax
    && FillsFrom(Cfg(k), 0, [], k.mid, k.bs0) && |k.bs0| == k.llMax && Merge(Write, k.bs0) == k.bs0
    && FillsFrom(Cfg(k), k.mid, [], k.end, k.bs1) && Merge(Write, k.bs1) == k.bs1
  }

  function First(k: Case): Chunk { Chunk(0, true, 0, k.mid, k.bs0, 0) }
  function Second(k: Case): Chunk { Chunk(1, false, k.mid, k.end, k.bs1, 0) }

  /** The chunk of the build after the second one, if entries are left. */
  function Third(k: Case): Option<Chunk> {
    if k.end < |k.sg| then Some(Chunk(2, false, 0, 0, [], 0)) else None
  }

  function Size32(k: Case, lo: nat, hi: nat): nat
    requires lo <= hi <= |k.sg|
  {
    Bytes(k.sg[lo..hi]) % WORD
  }

  function Memory(k: Case): seq<Elem> {
    seq(k.llMax + 1, _ => GenLlp(true, 0))
  }

  function S0(k: Case): State
    requires 0 < k.mid < |k.sg|
  {
    State(false, false, NoRequest, false, false, None, false, LIdle,
          Submitted, true, Some(First(k)), k.mid, |k.sg| - k.mid, Size32(k, 0, k.mid),
          Building, Some(Chunk(1, false, 0, 0, [], 0)), None, k.mid, true, false, 0, false, WIdle,
          NotLazy, false, ZIdle, NotFreeing,
          Memory(k), Memory(k), Stopped, false,
          0, 2, multiset{}, 0, multiset{},
          [], [], [], false, false)
  }

  /** The first chunk launched. */
  function S1(k: Case): State
    requires 0 < k.mid < |k.sg|
  {
    S0(k).(vd := Issued, busy := true, host := Emit(k.bs0, true, 0), table := Emit(k.bs0, true, 0),
           engine := Running(true, 0, false), xferStarted := true, launched := [First(k)], shadowQueued := true)
  }

  /** The second one filled. */
  function S2(k: Case): State
    requires 0 < k.mid < k.end <= |k.sg|
  {
    S1(k).(shadowQueued := false, shadowChunk := Some(Second(k)), shadowPos := k.end, hasMore := k.end < |k.sg|,
           shadowAllocSz := Size32(k, k.mid, k.end), worker := WPrebuild(1))
  }

  /** Written out and published, the worker about to look again. */
  function S3(k: Case): State
    requires 0 < k.mid < k.end <= |k.sg|
  {
    S2(k).(host := Splice(Emit(k.bs1, false, 0), Emit(k.bs0, true, 0)), nextId := if k.end < |k.sg| then 3 else 2,
           shadowState := Ready, shadowNext := Third(k), worker := WRecheck(1))
  }

  /**
   The first chunk done, its terminator not yet read; the interrupt queued a pass, and the running one takes the built
   chunk.
   */
  function S4(k: Case): State
    requires 0 < k.mid < k.end <= |k.sg|
  {
    S3(k).(engine := Running(true, |k.bs0|, true), executed := k.bs0, xferStarted := false, accounted := [0],
           shadowState := IsrPending, shadowQueued := true, shadowNext := None, worker := WPrecopy(1, Third(k)))
  }

  lemma InitS0(k: Case)
    requires Streams(k)
    ensures Init(Cfg(k), S0(k))
  {
    hide FilledFrom, FillsFrom, Bytes, Merge;
    FreshFill(Cfg(k), 0, k.mid, k.bs0);
  }

  lemma SpliceFull(a: seq<Elem>, mem: seq<Elem>)
    requires |a| == |mem|
    ensures Splice(a, mem) == a && a[..|a|] == a
  {
  }

  lemma WrittenSame(k: Case, c: Chunk)
    requires Merge(Write, c.bursts) == c.bursts
    ensures Written(Cfg(k), c, 0) == c
  {
    hide Merge;
    assert c.(bursts := c.bursts, held := c.held) == c;
  }

  /** Submission to the start of the launch. */
  lemma Phase1(k: Case, b: State)
    requires Streams(k) && b == S0(k).(vd := Issued, busy := true, launch := LWrite(0))
    ensures Reachable(Cfg(k), b)
  {
    hide Reachable, Init, FillsFrom, WellFormed, Merge, Emit, Memory;
    InitS0(k);
    Start(Cfg(k), S0(k));
    var a := S0(k).(vd := Issued, busy := true, pending := Some(0), launchQueued := true);
    Next(Cfg(k), S0(k), ByLaunch(Issue));
    assert DoIssue(S0(k)) == a;
    Next(Cfg(k), a, ByLaunch(LaunchBegin(true)));
    assert DoLaunchBegin(a, true) == b;
  }

  /** To the doorbell. */
  lemma Phase1b(k: Case)
    requires Streams(k)
    ensures Reachable(Cfg(k), S1(k))
  {
    hide Reachable, Init, FillsFrom, WellFormed, Emit, Merge, Splice;
    var b := S0(k).(vd := Issued, busy := true, launch := LWrite(0));
    Phase1(k, b);
    var e := Emit(k.bs0, true, 0);
    WrittenSame(k, First(k));
    SpliceFull(e, b.host);
    SpliceFull(e, b.table);
    var c := b.(host := e, launch := LCopy(0));
    Next(Cfg(k), b, ByLaunch(LaunchWrite(true, 0)));
    assert LaunchWritten(Cfg(k), b, 0) == c;
    var d := c.(table := e, launch := LCommit(0, true));
    Next(Cfg(k), c, ByLaunch(LaunchCopy(true, c.table)));
    assert DoLaunchCopy(c, true, c.table) == d;
    Next(Cfg(k), d, ByLaunch(LaunchCommit(true)));
    assert LaunchRung(d) == S1(k);
  }

  /** The second chunk is filled. */
  lemma Phase2(k: Case)
    requires Streams(k)
    ensures Reachable(Cfg(k), S2(k))
  {
    hide Reachable, Init, FillsFrom, WellFormed, Emit, Merge, Bytes;
    Phase1b(k);
    var a := S1(k).(shadowQueued := false, worker := WFill(1));
    Next(Cfg(k), S1(k), ByBuild(ShadowBegin));
    assert DoShadowBegin(S1(k)) == a;
    FillsSecond(k, a);
    Next(Cfg(k), a, ByBuild(ShadowFill(FillOk(k.end, k.bs1, 0))));
  }

  lemma FillsSecond(k: Case, a: State)
    requires 0 < k.mid < k.end <= |k.sg| && a == S1(k).(shadowQueued := false, worker := WFill(1))
    ensures ShadowFilled(Cfg(k), a, k.end, k.bs1, 0) == S2(k)
  {
    hide Bytes, Emit;
  }

  /** It is written out and published. */
  lemma Phase3(k: Case)
    requires Streams(k)
    ensures Reachable(Cfg(k), S3(k))
  {
    hide Reachable, Init, FillsFrom, WellFormed, Emit, Merge, Bytes, Splice;
    Phase2(k);
    WrittenSame(k, Second(k));
    var a := S2(k).(host := Splice(Emit(k.bs1, false, 0), Emit(k.bs0, true, 0)), worker := WAlloc(1));
    Next(Cfg(k), S2(k), ByBuild(ShadowPrebuild(true, 0)));
    assert ShadowWritten(Cfg(k), S2(k), 0) == a;
    var b := a.(nextId := if k.end < |k.sg| then 3 else 2, worker := WPublish(1, Third(k)));
    Next(Cfg(k), a, ByBuild(ShadowAlloc(true)));
    assert DoShadowAlloc(a, true) == b;
    var c := b.(shadowState := Ready, shadowNext := Third(k), worker := WStopCheck(1));
    Next(Cfg(k), b, ByBuild(ShadowPublish));
    assert DoShadowPublish(b) == c;
    Next(Cfg(k), c, ByHand(ShadowStopCheck));
    assert DoShadowStopCheck(c) == S3(k);
  }

  /** `s` after `n` bursts of `c` were fetched; the last one raises Done. */
  function Fetched(s: State, c: Chunk, n: nat): State
    requires n <= |c.bursts|
  {
    s.(engine := Running(c.cb, n, n == |c.bursts|), executed := s.executed + c.bursts[..n], doneBit := n == |c.bursts|)
  }

  lemma NextFetch(cfg: Config, s: State)
    requires Reachable(cfg, s) && s.engine.Running? && s.engine.at < |s.table|
    ensures Reachable(cfg, DoFetch(cfg, s))
  {
    hide Reachable, DoFetch;
    Next(cfg, s, ByEngine(Fetch));
  }

  lemma FetchNone(s: State, c: Chunk)
    requires s.engine == Running(c.cb, 0, false) && !s.doneBit && c.bursts != []
    ensures Fetched(s, c, 0) == s
  {
    assert s.executed + c.bursts[..0] == s.executed;
  }

  lemma FetchOne(cfg: Config, s: State, c: Chunk, n: nat)
    requires !cfg.stopBeforeDone && Holds(cfg, s.table, c) && n < |c.bursts|
    ensures n < |s.table| && DoFetch(cfg, Fetched(s, c, n)) == Fetched(s, c, n + 1)
  {
    hide Holds, Emit;
    HoldsAt(cfg, s.table, c, n);
    assert s.executed + c.bursts[..n + 1] == s.executed + c.bursts[..n] + [c.bursts[n]];
  }

  lemma {:induction false} FetchAll(cfg: Config, s: State, c: Chunk, n: nat)
    requires Reachable(cfg, s) && !cfg.stopBeforeDone && s.engine == Running(c.cb, 0, false) && Holds(cfg, s.table, c)
    requires !s.doneBit
    requires n <= |c.bursts| && c.bursts != []
    ensures Reachable(cfg, Fetched(s, c, n))
  {
    hide Reachable, Emit, Holds, DoFetch;
    if n == 0 {
      FetchNone(s, c);
    } else {
      FetchAll(cfg, s, c, n - 1);
      FetchOne(cfg, s, c, n - 1);
      NextFetch(cfg, Fetched(s, c, n - 1));
    }
  }

  /** The engine runs the first chunk, up to the terminator. */
  lemma Phase4a(k: Case, a: State)
    requires Streams(k) && a == S3(k).(engine := Running(true, |k.bs0|, true), executed := k.bs0, doneBit := true)
    ensures Reachable(Cfg(k), a)
  {
    hide Reachable, Init, FillsFrom, WellFormed, Emit, Merge, Bytes, Splice;
    Phase3(k);
    Full(k);
    FetchAll(Cfg(k), S3(k), First(k), |k.bs0|);
    assert [] + k.bs0[..|k.bs0|] == k.bs0;
  }

  /** The Done interrupt is taken, and the worker sees it. */
  lemma Phase4(k: Case)
    requires Streams(k)
    ensures Reachable(Cfg(k), S4(k))
  {
    hide Reachable, Init, FillsFrom, WellFormed, Emit, Merge, Bytes, Splice;
    var a := S3(k).(engine := Running(true, |k.bs0|, true), executed := k.bs0, doneBit := true);
    Phase4a(k, a);
    var b := a.(doneBit := false, xferStarted := false, accounted := [0], shadowState := IsrPending,
                shadowQueued := true);
    Next(Cfg(k), a, ByEngine(DoneIsr));
    assert CompleteDone(Cfg(k), a.(doneBit := false)) == b;
    Next(Cfg(k), b, ByHand(ShadowRecheck));
    assert DoShadowRecheck(b) == S4(k);
  }

  lemma Full(k: Case)
    requires Streams(k)
    ensures k.bs0 != [] && Holds(Cfg(k), Emit(k.bs0, true, 0), First(k))
  {
    hide FillsFrom, Merge;
    assert Emit(k.bs0, true, 0)[..|k.bs0| + 1] == Emit(k.bs0, true, 0);
  }

  // ---- the endings ----

  /** The engine reads the terminator of the first chunk and stops. */
  lemma ReadsTerminator(k: Case, s: State)
    requires Streams(k) && Reachable(Cfg(k), s) && s.engine == Running(true, |k.bs0|, true)
    requires s.table == Emit(k.bs0, true, 0) && !s.doneBit
    ensures Reachable(Cfg(k), s.(engine := Stopped))
  {
    hide Reachable, FillsFrom, WellFormed, Merge, Emit, Holds;
    Full(k);
    HoldsAt(Cfg(k), s.table, First(k), |k.bs0|);
    NextFetch(Cfg(k), s);
    assert DoFetch(Cfg(k), s) == s.(engine := Stopped);
  }

  /** The worker copies the second table while the engine is stopped. */
  lemma CopiesStopped(cfg: Config, s: State)
    requires Reachable(cfg, s) && s.worker.WPrecopy? && s.shadowChunk.Some? && s.engine.Stopped? && !s.overrun
    ensures Reachable(cfg, StreamingProgress.CopiedStopped(s))
  {
    hide Reachable, Precopied, StreamingProgress.CopiedStopped;
    StreamingProgress.SamePrecopy(s);
    Next(cfg, s, ByHand(ShadowPrecopy(true, false, s.table)));
  }

  /** After a stop request the worker leaves the built chunk behind. */
  function Left(k: Case): State
    requires 0 < k.mid < k.end <= |k.sg|
  {
    var s := S4(k);
    s.(request := StopRequest, stopSeen := true, engine := Stopped, table := CopyTable(s, |k.bs1|),
       shadowState := Idle, worker := WIdle, freed := FreedIds(Third(k)))
  }

  lemma StopLeaves(k: Case)
    requires Streams(k)
    ensures Reachable(Cfg(k), Left(k))
  {
    hide Reachable, Init, FillsFrom, WellFormed, Emit, Merge, Bytes, Splice;
    Phase4(k);
    var a := S4(k).(request := StopRequest, stopSeen := true);
    Next(Cfg(k), S4(k), ByLaunch(Stop));
    assert DoStop(S4(k)) == a;
    ReadsTerminator(k, a);
    StopLeavesThen(k, a.(engine := Stopped));
  }

  lemma StopLeavesThen(k: Case, b: State)
    requires Streams(k) && b == S4(k).(request := StopRequest, stopSeen := true, engine := Stopped)
    requires Reachable(Cfg(k), b)
    ensures Reachable(Cfg(k), Left(k))
  {
    hide Reachable, Init, FillsFrom, WellFormed, Emit, Merge, Bytes, Splice;
    CopiesStopped(Cfg(k), b);
    var c := b.(table := CopyTable(b, |k.bs1|), worker := WLaunch(1, Third(k)));
    assert CopyTable(b, |k.bs1|) == CopyTable(S4(k), |k.bs1|);
    Next(Cfg(k), c, ByHand(ShadowLaunch(true)));
    assert multiset{} + FreedIds(Third(k)) == FreedIds(Third(k));
    assert Abandon(c, Third(k)) == Left(k);
  }

  /** A pass that finds the second chunk built and waiting for nobody can fill it again. */
  lemma LeftFillsAgain(k: Case, s: State)
    requires Streams(k) && k.end < |k.sg| && |k.bs1| + 2 <= k.llMax && Chunks.HostFits(k.sg, k.end, |k.sg|)
    requires s.worker.WIdle? && s.shadowChunk == Some(Second(k)) && !s.shadowState.IsrPending? && s.shadowPos == k.end
    ensures FillsAgain(Cfg(k), DoShadowBegin(s))
  {
    hide FillsFrom, WellFormed, Merge, FillsAgain, DoShadowBegin, NextFillable, Chunks.HostFits;
    BeginTakes(Cfg(k), s);
    FillableNeeds(Cfg(k), DoShadowBegin(s));
    FillPossible(Cfg(k), DoShadowBegin(s));
  }

  /** Or the worker comes to rest before the Done interrupt, and an abort follows that. */
  function Dropped(k: Case): State
    requires 0 < k.mid < k.end <= |k.sg|
  {
    S3(k).(engine := Halted(|k.bs0|), executed := k.bs0, xferStarted := false, accounted := [0], shadowQueued := true,
           worker := WIdle, shadowState := Cancelled, aborted := true, busy := false, vd := Completed)
  }

  lemma AbortLeaves(k: Case)
    requires Streams(k)
    ensures Reachable(Cfg(k), Dropped(k))
  {
    hide Reachable, Init, FillsFrom, WellFormed, Emit, Merge, Bytes, Splice;
    Phase3(k);
    var a := S3(k).(worker := WIdle);
    Next(Cfg(k), S3(k), ByHand(ShadowRecheck));
    assert DoShadowRecheck(S3(k)) == a;
    Full(k);
    FetchAll(Cfg(k), a, First(k), |k.bs0|);
    assert [] + k.bs0[..|k.bs0|] == k.bs0;
    AbortLeavesThen(k, a.(engine := Running(true, |k.bs0|, true), executed := k.bs0, doneBit := true));
  }

  lemma AbortLeavesThen(k: Case, b: State)
    requires Streams(k) && Reachable(Cfg(k), b)
    requires b == S3(k).(worker := WIdle, engine := Running(true, |k.bs0|, true), executed := k.bs0, doneBit := true)
    ensures Reachable(Cfg(k), Dropped(k))
  {
    hide Reachable, Init, FillsFrom, WellFormed, Emit, Merge, Bytes, Splice;
    var c := b.(doneBit := false, xferStarted := false, accounted := [0], shadowState := IsrPending,
                shadowQueued := true);
    Next(Cfg(k), b, ByEngine(DoneIsr));
    assert CompleteDone(Cfg(k), b.(doneBit := false)) == c;
    Next(Cfg(k), c, ByEngine(AbortIsr));
    assert DoAbortIsr(c) == Dropped(k);
  }

  // ---- lists of one-byte entries ----

  predicate Ones(sg: seq<Sg>) {
    forall i :: 0 <= i < |sg| ==> sg[i].len == 1 && sg[i].addr < 1000
  }

  lemma {:induction false} OnesBytes(sg: seq<Sg>)
    requires Ones(sg)
    ensures Bytes(sg) == |sg|
  {
    if sg != [] { OnesBytes(sg[1..]); }
  }

  /** What the fill makes of entries `lo..lo + n`. */
  ghost predicate Adds(sg: seq<Sg>, lo: nat, n: nat, bs: seq<Burst>) {
    lo + n <= |sg| && bs == Chunks.AddAll(Write, [], sg[lo..lo + n], 100 + lo)
  }

  lemma AddsNone(sg: seq<Sg>, lo: nat)
    requires lo <= |sg|
    ensures Adds(sg, lo, 0, [])
  {
    assert sg[lo..lo] == [];
  }

  lemma AddsNext(sg: seq<Sg>, lo: nat, n: nat, bs: seq<Burst>, bs': seq<Burst>)
    requires Ones(sg) && |sg| < 1000 && Adds(sg, lo, n, bs) && lo + n < |sg|
    requires bs' == Chunks.AddSg(Write, bs, sg[lo + n], 100 + lo + n)
    ensures Adds(sg, lo, n + 1, bs')
  {
    hide Chunks.AddAll, Chunks.AddSg, Bytes;
    OnesBytes(sg[lo..lo + n]);
    Chunks.AddAllSnoc(Write, [], sg, lo, lo + n, 100 + lo);
  }

  /** The next entry gets a burst of its own. */
  lemma AddsNew(sg: seq<Sg>, lo: nat, n: nat, bs: seq<Burst>, host: u64)
    requires Ones(sg) && |sg| < 1000 && Adds(sg, lo, n, bs) && lo + n < |sg| && sg[lo + n].addr == host
    requires bs == [] || bs[|bs| - 1].dar + bs[|bs| - 1].sz != host
    ensures Adds(sg, lo, n + 1, bs + [Burst(100 + lo + n, host, 1)])
  {
    hide Adds;
    AddsNext(sg, lo, n, bs, bs + [Burst(100 + lo + n, host, 1)]);
  }

  /** Or grows the only one. */
  lemma AddsMore(sg: seq<Sg>, lo: nat, n: nat, b: Burst)
    requires Ones(sg) && |sg| < 1000 && Adds(sg, lo, n, [b]) && lo + n < |sg| && b.sz < 1000
    requires b.dar + b.sz == sg[lo + n].addr && b.sar + b.sz == 100 + lo + n
    ensures Adds(sg, lo, n + 1, [b.(sz := b.sz + 1)])
  {
    hide Adds;
    assert [b][..0] + [b.(sz := b.sz + 1)] == [b.(sz := b.sz + 1)];
    AddsNext(sg, lo, n, [b], [b.(sz := b.sz + 1)]);
  }

  /** It fills the chunk, or takes all there is. */
  lemma AddsFill(k: Case, lo: nat, hi: nat, bs: seq<Burst>)
    requires Ones(k.sg) && lo < hi <= |k.sg| < 1000 && Adds(k.sg, lo, hi - lo, bs)
    requires hi - lo == Chunks.Wanted(|k.sg| - lo, 0, k.llMax, k.llMax)
    ensures FillsFrom(Cfg(k), lo, [], hi, bs)
  {
    hide Chunks.AddAll, Bytes;
    OnesBytes(k.sg[..lo]);
    OnesBytes(k.sg[lo..hi]);
  }

  // ---- room for another fill: seven entries, three bursts in the first chunk, one in the second, one entry left ----

  function Roomy(): Case {
    Case([Sg(10, 1), Sg(20, 1), Sg(30, 1), Sg(40, 1), Sg(41, 1), Sg(42, 1), Sg(60, 1)], 3,
         3, [Burst(100, 10, 1), Burst(101, 20, 1), Burst(102, 30, 1)],
         6, [Burst(103, 40, 3)])
  }

  lemma RoomyFirst()
    ensures Adds(Roomy().sg, 0, 3, Roomy().bs0)
  {
    hide Adds;
    var sg := Roomy().sg;
    AddsNone(sg, 0);
    AddsNew(sg, 0, 0, [], 10);
    AddsNew(sg, 0, 1, [] + [Burst(100, 10, 1)], 20);
    AddsNew(sg, 0, 2, [] + [Burst(100, 10, 1)] + [Burst(101, 20, 1)], 30);
    assert Roomy().bs0 == [] + [Burst(100, 10, 1)] + [Burst(101, 20, 1)] + [Burst(102, 30, 1)];
  }

  lemma RoomySecond()
    ensures Adds(Roomy().sg, 3, 3, Roomy().bs1)
  {
    hide Adds;
    var sg := Roomy().sg;
    AddsNone(sg, 3);
    AddsNew(sg, 3, 0, [], 40);
    assert [] + [Burst(103, 40, 1)] == [Burst(103, 40, 1)];
    AddsMore(sg, 3, 1, Burst(103, 40, 1));
    AddsMore(sg, 3, 2, Burst(103, 40, 2));
  }

  lemma RoomyStreams()
    ensures Streams(Roomy())
  {
    hide Adds, FillsFrom, Bytes, Merge;
    var k := Roomy();
    RoomyFirst();
    RoomySecond();
    AddsFill(k, 0, 3, k.bs0);
    AddsFill(k, 3, 6, k.bs1);
    MergeUnchanged(Write, k.bs0);
    MergeUnchanged(Write, k.bs1);
    OnesBytes(k.sg);
  }

  /**
   With an engine that raises Done before it has read the terminator, a stop request can leave a filled chunk behind
   on which the next pass can make another successful fill, in a run without abort.
   */
  lemma StopCanFillAgain()
    ensures exists cfg: Config, s: State ::
              Reachable(cfg, s) && s.shadowQueued && s.worker.WIdle? && !s.aborted && s.stopSeen
              && FillsAgain(cfg, DoShadowBegin(s))
  {
    hide Reachable, Streams, FillsAgain, DoShadowBegin, CopyTable;
    var k := Roomy();
    RoomyStreams();
    StopLeaves(k);
    LeftFillsAgain(k, Left(k));
    assert Reachable(Cfg(k), Left(k)) && FillsAgain(Cfg(k), DoShadowBegin(Left(k)));
  }

  /** So can an abort, in a run without stop request. */
  lemma AbortCanFillAgain()
    ensures exists cfg: Config, s: State ::
              Reachable(cfg, s) && s.shadowQueued && s.worker.WIdle? && s.aborted && !s.stopSeen
              && FillsAgain(cfg, DoShadowBegin(s))
  {
    hide Reachable, Streams, FillsAgain, DoShadowBegin;
    var k := Roomy();
    RoomyStreams();
    AbortLeaves(k);
    LeftFillsAgain(k, Dropped(k));
    assert Reachable(Cfg(k), Dropped(k)) && FillsAgain(Cfg(k), DoShadowBegin(Dropped(k)));
  }

  // ---- two chunks of two bursts each ----

  function Even(): Case {
    Case([Sg(10, 1), Sg(20, 1), Sg(30, 1), Sg(40, 1)], 2,
         2, [Burst(100, 10, 1), Burst(101, 20, 1)],
         4, [Burst(102, 30, 1), Burst(103, 40, 1)])
  }

  lemma EvenFills()
    ensures Adds(Even().sg, 0, 2, Even().bs0) && Adds(Even().sg, 2, 2, Even().bs1)
  {
    hide Adds;
    var sg := Even().sg;
    AddsNone(sg, 0);
    AddsNew(sg, 0, 0, [], 10);
    AddsNew(sg, 0, 1, [] + [Burst(100, 10, 1)], 20);
    assert Even().bs0 == [] + [Burst(100, 10, 1)] + [Burst(101, 20, 1)];
    AddsNone(sg, 2);
    AddsNew(sg, 2, 0, [], 30);
    AddsNew(sg, 2, 1, [] + [Burst(102, 30, 1)], 40);
    assert Even().bs1 == [] + [Burst(102, 30, 1)] + [Burst(103, 40, 1)];
  }

  lemma EvenStreams()
    ensures Streams(Even())
  {
    hide Adds, FillsFrom, Bytes, Merge;
    var k := Even();
    EvenFills();
    AddsFill(k, 0, 2, k.bs0);
    AddsFill(k, 2, 4, k.bs1);
    MergeUnchanged(Write, k.bs0);
    MergeUnchanged(Write, k.bs1);
    OnesBytes(k.sg);
  }

  lemma EvenEndangered()
    ensures var s := S4(Even());
            Endangered(s) && s.shadowChunk.value.bursts != [] && s.shadowChunk.value.bursts[0].sz > 0
  {
    hide Emit, Splice, Bytes;
  }

  lemma RunOf(cfg: Config, s: State) returns (states: seq<State>, actions: seq<Action>)
    requires Reachable(cfg, s)
    ensures IsRun(cfg, states, actions) && SafeCopies(states, actions, |actions|) && |states| == |actions| + 1
    ensures states[|actions|] == s
  {
    hide Init, Enabled, Apply;
    states, actions :| IsRun(cfg, states, actions) && SafeCopies(states, actions, |actions|) && states[|actions|] == s;
  }

  /** Some run moves bytes that are not those of the copy. */
  ghost predicate MovesWrong(cfg: Config) {
    exists states: seq<State>, actions: seq<Action> ::
      && IsRun(cfg, states, actions) && |actions| < |states|
      && !Prefix(Denote(states[|actions|].executed), CopyOf(cfg.dir, cfg.sg, cfg.base))
  }

  lemma EndangeredMovesWrong(cfg: Config, s: State)
    requires Reachable(cfg, s) && Endangered(s) && s.shadowChunk.value.bursts != []
    requires s.shadowChunk.value.bursts[0].sz > 0
    ensures MovesWrong(cfg)
  {
    hide IsRun, SafeCopies, Endangered, Denote, CopyOf, Prefix;
    var states, actions := RunOf(cfg, s);
    var more := RepeatingRun(cfg, states, actions);
    var states', actions' := states + more, actions + Again(s);
    assert states'[|actions'|] == more[4];
    assert IsRun(cfg, states', actions');
  }

  /** With such an engine, a copy taken too early makes it move bytes twice. */
  lemma EarlyCopyMovesTwice()
    ensures exists cfg: Config :: WellFormed(cfg) && MovesWrong(cfg)
  {
    hide Reachable, Endangered, MovesWrong, S4;
    var k := Even();
    EvenStreams();
    Phase4(k);
    EvenEndangered();
    EndangeredMovesWrong(Cfg(k), S4(k));
    assert WellFormed(Cfg(k)) && MovesWrong(Cfg(k));
  }
}
