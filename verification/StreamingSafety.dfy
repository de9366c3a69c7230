/** What holds over whole runs of the streaming protocol. */
module StreamingSafety {
  import opened Basics
  import opened Copy
  import opened DescriptorTable
  import opened Streaming
  import opened StreamingInvariant
  import opened StreamingFacts
  import StreamingLaunch
  import StreamingShadow
  import StreamingRefill

  // ---- every reachable state satisfies the invariant ----

  lemma InitConserves(cfg: Config, s: State)
    requires Init(cfg, s)
    ensures Conserved(cfg, s)
  {
    hide WellFormed, FilledFrom;
    forall x: nat ensures OwnedOnce(s, x) {}
  }

  lemma InitInv(cfg: Config, s: State)
    requires Init(cfg, s)
    ensures Inv(cfg, s)
  {
    hide Bytes, FilledFrom, Exact, Holds, Conserved;
    InitConserves(cfg, s);
    FilledExact(cfg, 0, s.active.value.hi, s.active.value.bursts);
    GoodNonEmpty(cfg, s.active.value);
    TotalJoin(cfg, 0, 0, s.sgCur);
    TotalJoin(cfg, 0, 0, 0);
  }

  lemma LaunchStepKeeps(cfg: Config, s: State, a: LaunchAction)
    requires Inv(cfg, s) && LaunchEnabled(cfg, s, a)
    ensures Kept(cfg, s, LaunchStep(cfg, s, a))
  {
    hide Inv, Kept, DoIssue, DoLaunchBegin, LaunchWritten, DoLaunchCopy, DoLaunchCommit, DoStop;
    match a
    case Issue => StreamingLaunch.IssueKeeps(cfg, s);
    case LaunchBegin(live) => StreamingLaunch.LaunchBeginKeeps(cfg, s, live);
    case LaunchWrite(ok, back) =>
      if ok {
        StreamingLaunch.LaunchWrittenKeeps(cfg, s, back);
      } else {
        StreamingLaunch.LaunchNotWrittenKeeps(cfg, s);
      }
    case LaunchCopy(ok, junk) => StreamingLaunch.LaunchCopyKeeps(cfg, s, ok, junk);
    case LaunchCommit(live) => StreamingLaunch.LaunchCommitKeeps(cfg, s, live);
    case Stop => StreamingLaunch.StopKeeps(cfg, s);
  }

  /** Both ways a completion is noticed. */
  lemma DoneStepKeeps(cfg: Config, s: State)
    requires Inv(cfg, s) && s.xferStarted && (s.doneBit || s.engine.Stopped?)
    ensures Kept(cfg, s, CompleteDone(cfg, s.(doneBit := false)))
  {
    hide Holds, Flat, AllGood, Alternates, TurnOk, LazyOk, ShadowOk, StopOk, AccountOk, Conserved, OrderOk, CoverOk,
         ReleaseOk, CompleteDone;
    var t := s.(doneBit := false);
    StreamingLaunch.DoneClearedKeeps(cfg, s);
    assert StreamingLaunch.Ended(cfg, t);
    StreamingLaunch.CompleteDoneKeeps(cfg, t);
  }

  lemma EngineStepKeeps(cfg: Config, s: State, a: EngineAction)
    requires Inv(cfg, s) && EngineEnabled(cfg, s, a)
    ensures Kept(cfg, s, EngineStep(cfg, s, a))
  {
    hide Inv, Kept, DoFetch, CompleteDone, DoAbortIsr;
    match a
    case Fetch => StreamingLaunch.FetchKeeps(cfg, s);
    case DoneIsr =>
      if s.xferStarted { DoneStepKeeps(cfg, s); } else { StreamingLaunch.DoneClearedKeeps(cfg, s); }
    case DoneReplay => DoneStepKeeps(cfg, s);
    case AbortIsr => StreamingLaunch.AbortIsrKeeps(cfg, s);
    case HwError => StreamingLaunch.HwErrorKeeps(cfg, s);
  }

  lemma BuildStepKeeps(cfg: Config, s: State, a: BuildAction)
    requires Inv(cfg, s) && BuildEnabled(cfg, s, a)
    ensures Kept(cfg, s, BuildStep(cfg, s, a))
  {
    hide Inv, Kept, DoShadowBegin, DoShadowFill, DoShadowClear, DoShadowPrebuild, DoShadowAlloc, DoShadowPublish,
         FillAllowed;
    match a
    case ShadowBegin => StreamingShadow.ShadowBeginKeeps(cfg, s);
    case ShadowFill(r) => StreamingShadow.ShadowFillKeeps(cfg, s, r);
    case ShadowClear => StreamingShadow.ShadowClearKeeps(cfg, s);
    case ShadowPrebuild(ok, back) => StreamingShadow.ShadowPrebuildKeeps(cfg, s, ok, back);
    case ShadowAlloc(ok) => StreamingShadow.ShadowAllocKeeps(cfg, s, ok);
    case ShadowPublish => StreamingShadow.ShadowPublishKeeps(cfg, s);
  }

  lemma HandStepKeeps(cfg: Config, s: State, a: HandAction)
    requires Inv(cfg, s) && HandEnabled(cfg, s, a)
    ensures if a.ShadowPrecopy? then Copied(cfg, s, HandStep(cfg, s, a)) else Kept(cfg, s, HandStep(cfg, s, a))
  {
    hide Inv, Kept, Copied, DoShadowStopCheck, DoShadowHandoff, DoShadowRecheck, DoShadowPrecopy, DoShadowDrop,
         DoShadowLaunch;
    match a
    case ShadowStopCheck => StreamingShadow.ShadowStopCheckKeeps(cfg, s);
    case ShadowClearDone => StreamingShadow.ShadowClearDoneKeeps(cfg, s);
    case ShadowClearStarted => StreamingShadow.ShadowClearStartedKeeps(cfg, s);
    case ShadowHandoff => StreamingShadow.ShadowHandoffKeeps(cfg, s);
    case ShadowRecheck => StreamingShadow.ShadowRecheckKeeps(cfg, s);
    case ShadowPrecopy(ok, ecanceled, junk) => StreamingShadow.ShadowPrecopyKeeps(cfg, s, ok, ecanceled, junk);
    case ShadowDrop => StreamingShadow.ShadowDropKeeps(cfg, s);
    case ShadowLaunch(live) => StreamingShadow.ShadowLaunchKeeps(cfg, s, live);
    case ShadowRequeue => StreamingShadow.ShadowRequeueKeeps(cfg, s);
    case ShadowAlarm => StreamingShadow.ShadowAlarmKeeps(cfg, s);
  }

  lemma RefillStepKeeps(cfg: Config, s: State, a: RefillAction)
    requires Inv(cfg, s) && RefillEnabled(cfg, s, a)
    ensures Kept(cfg, s, RefillStep(cfg, s, a))
  {
    hide Inv, Kept, DoLazyClaim, DoLazyRelease, DoLazyFill, DoLazyWrite, DoLazyCopy, DoLazyCommit, FillAllowed;
    match a
    case LazyBegin => StreamingRefill.LazyBeginKeeps(cfg, s);
    case LazyWait(ok) => StreamingRefill.LazyWaitKeeps(cfg, s, ok);
    case LazyClaim => StreamingRefill.LazyClaimKeeps(cfg, s);
    case LazyRelease => StreamingRefill.LazyReleaseKeeps(cfg, s);
    case LazyFill(r) => StreamingRefill.LazyFillKeeps(cfg, s, r);
    case LazyWrite(ok, back) => StreamingRefill.LazyWriteKeeps(cfg, s, ok, back);
    case LazyCopy(ok, junk) => StreamingRefill.LazyCopyKeeps(cfg, s, ok, junk);
    case LazyCommit => StreamingRefill.LazyCommitKeeps(cfg, s);
  }

  lemma ReleaseStepKeeps(cfg: Config, s: State, a: ReleaseAction)
    requires Inv(cfg, s) && ReleaseEnabled(cfg, s, a)
    ensures Kept(cfg, s, ReleaseStep(cfg, s, a))
  {
    hide Inv, Kept, DoFreeShadow, DoCleanup;
    match a
    case FreeBegin => StreamingRefill.FreeBeginKeeps(cfg, s);
    case FreeShadow => StreamingRefill.FreeShadowKeeps(cfg, s);
    case FreeRest => StreamingRefill.FreeRestKeeps(cfg, s);
    case Cleanup => StreamingLaunch.CleanupKeeps(cfg, s);
  }

  /** The copy of the shadow table into the device table. */
  predicate IsCopy(a: Action) {
    a.ByHand? && a.hand.ShadowPrecopy?
  }

  /** Every action of every actor keeps the invariant, and touches the table only when it is idle. */
  lemma StepKeeps(cfg: Config, s: State, a: Action)
    requires Inv(cfg, s) && Enabled(cfg, s, a)
    ensures if IsCopy(a) then Copied(cfg, s, Apply(cfg, s, a)) else Kept(cfg, s, Apply(cfg, s, a))
  {
    hide Inv, Kept, Copied, LaunchEnabled, LaunchStep, EngineEnabled, EngineStep, BuildEnabled, BuildStep,
         HandEnabled, HandStep, RefillEnabled, RefillStep, ReleaseEnabled, ReleaseStep;
    match a
    case ByLaunch(x) => LaunchStepKeeps(cfg, s, x);
    case ByEngine(x) => EngineStepKeeps(cfg, s, x);
    case ByBuild(x) => BuildStepKeeps(cfg, s, x);
    case ByHand(x) => HandStepKeeps(cfg, s, x);
    case ByRefill(x) => RefillStepKeeps(cfg, s, x);
    case ByRelease(x) => ReleaseStepKeeps(cfg, s, x);
  }

  lemma {:induction false} RunKeeps(cfg: Config, states: seq<State>, actions: seq<Action>, i: nat)
    requires IsRun(cfg, states, actions) && i < |states|
    ensures Inv(cfg, states[i])
  {
    hide Inv, Enabled, Apply, Init;
    if i == 0 {
      InitInv(cfg, states[0]);
    } else {
      RunKeeps(cfg, states, actions, i - 1);
      StepKeeps(cfg, states[i - 1], actions[i - 1]);
    }
  }

  // ---- safe copies ----

  /**
   A copy of the shadow table is safe if the engine does not read the table any more; if it succeeds and the chunk it
   writes and the one the engine is at the end of differ in their number of bursts; or if it fails and what it leaves
   behind still stops the engine, as the table does that it has not touched.
   */
  predicate SafeCopy(s: State, a: Action) {
    IsCopy(a) && s.engine.Running? ==>
      if a.hand.ok
      then s.launched != [] && s.shadowChunk.Some? && |s.shadowChunk.value.bursts| != |Last(s).bursts|
      else !Overruns(s, a.hand.junk)
  }

  /** Every copy among the first `n` steps is safe. */
  predicate SafeCopies(states: seq<State>, actions: seq<Action>, n: nat) {
    n <= |actions| < |states| && forall i :: 0 <= i < n ==> SafeCopy(states[i], actions[i])
  }

  /**
   Before a copy under a running engine: the engine has fetched its whole chunk, and the new one has the opposite
   change bit.
   */
  lemma CopyState(cfg: Config, s: State)
    requires Inv(cfg, s) && s.worker.WPrecopy? && s.engine.Running? && !s.overrun
    ensures s.launched != [] && s.engine == Running(Last(s).cb, |Last(s).bursts|, true)
    ensures Stops(s.table, Last(s).cb, |Last(s).bursts|)
    ensures s.shadowChunk.Some? && s.shadowChunk.value.cb == !Last(s).cb && Holds(cfg, s.host, s.shadowChunk.value)
    ensures |s.host| == |s.table| == cfg.llMax + 1
  {
    hide WellFormed, Exact, Holds, Flat, AllGood, Alternates, LazyOk, AccountOk, StopOk, Conserved, OrderOk, CoverOk,
         ReleaseOk;
  }

  /** A successful copy under a running engine lets it run on exactly when both chunks have equally many bursts. */
  lemma CopyOverrunsIff(cfg: Config, s: State)
    requires Inv(cfg, s) && s.worker.WPrecopy? && s.shadowChunk.Some? && s.engine.Running? && !s.overrun
    ensures s.launched != []
    ensures Overruns(s, CopyTable(s, |s.shadowChunk.value.bursts|)) <==>
              |s.shadowChunk.value.bursts| == |Last(s).bursts|
  {
    hide Inv, Emit, Holds;
    CopyState(cfg, s);
    var c, n := s.shadowChunk.value, |Last(s).bursts|;
    CopyHolds(cfg, s, c);
    var table := CopyTable(s, |c.bursts|);
    if n <= |c.bursts| {
      HoldsAt(cfg, table, c, n);
    } else {
      HoldsLength(cfg, s.host, c);
      assert table[n] == s.table[n];
    }
  }

  lemma HoldsLength(cfg: Config, mem: seq<Elem>, c: Chunk)
    requires Holds(cfg, mem, c)
    ensures |c.bursts| + 1 <= |mem|
  {
  }

  /** What a copy writes. */
  function Copying(s: State, a: Action): seq<Elem>
    requires IsCopy(a) && s.shadowChunk.Some?
  {
    if a.hand.ok then CopyTable(s, |s.shadowChunk.value.bursts|) else a.hand.junk
  }

  lemma TableCopied(cfg: Config, s: State, a: Action)
    requires IsCopy(a) && Enabled(cfg, s, a)
    ensures s.worker.WPrecopy? && s.shadowChunk.Some? && Apply(cfg, s, a).table == Copying(s, a)
  {
    hide CopyTable, PrecopyFailed, Precopied, LaunchEnabled, LaunchStep, EngineEnabled, EngineStep, BuildEnabled,
         BuildStep, RefillEnabled, RefillStep, ReleaseEnabled, ReleaseStep;
    if a.hand.ok { CopiedTable(s); } else { FailedTable(s, a.hand.ecanceled, a.hand.junk); }
  }

  lemma CopiedTable(s: State)
    requires s.worker.WPrecopy? && s.shadowChunk.Some?
    ensures Precopied(s).table == CopyTable(s, |s.shadowChunk.value.bursts|)
  {
    hide CopyTable, Overruns;
  }

  lemma FailedTable(s: State, ecanceled: bool, junk: seq<Elem>)
    requires s.worker.WPrecopy? && s.shadowChunk.Some?
    ensures PrecopyFailed(s, ecanceled, junk).table == junk
  {
    hide Overruns;
  }

  /** A step lets the engine run on exactly if it is a copy that is not safe. */
  lemma SafeStep(cfg: Config, s: State, a: Action)
    requires Inv(cfg, s) && Enabled(cfg, s, a) && !s.overrun
    ensures Apply(cfg, s, a).overrun <==> !SafeCopy(s, a)
  {
    hide Inv, Overruns, Enabled, Apply, CopyTable, Effect;
    StepKeeps(cfg, s, a);
    if IsCopy(a) {
      TableCopied(cfg, s, a);
      if !s.engine.Running? {
        NotRunning(s, Copying(s, a));
      } else if a.hand.ok {
        CopyOverrunsIff(cfg, s);
      }
    }
  }

  lemma NotRunning(s: State, table: seq<Elem>)
    requires !s.engine.Running?
    ensures !Overruns(s, table)
  {
  }

  /** The engine has never run on exactly if every copy was safe. */
  lemma {:induction false} SafeRun(cfg: Config, states: seq<State>, actions: seq<Action>, i: nat)
    requires IsRun(cfg, states, actions) && i < |states|
    ensures SafeCopies(states, actions, i) <==> !states[i].overrun
  {
    hide Inv, Enabled, Apply, SafeCopy, Effect;
    if i > 0 {
      SafeRun(cfg, states, actions, i - 1);
      RunKeeps(cfg, states, actions, i - 1);
      StepKeeps(cfg, states[i - 1], actions[i - 1]);
      if !states[i - 1].overrun { SafeStep(cfg, states[i - 1], actions[i - 1]); }
    }
  }

  /**
   Copies are safe by themselves in every run outside shadow mode, and in shadow mode if Done is raised only by a
   stopped engine.
   */
  lemma StoppedCopiesAreSafe(cfg: Config, states: seq<State>, actions: seq<Action>)
    requires IsRun(cfg, states, actions) && (!cfg.mode.Shadow? || cfg.stopBeforeDone)
    ensures SafeCopies(states, actions, |actions|)
  {
    hide Inv, Apply, Init, Enabled;
    forall i | 0 <= i < |actions| ensures SafeCopy(states[i], actions[i]) {
      RunKeeps(cfg, states, actions, i);
      StoppedCopy(cfg, states[i], actions[i]);
    }
  }

  lemma StoppedCopy(cfg: Config, s: State, a: Action)
    requires Inv(cfg, s) && Enabled(cfg, s, a) && (!cfg.mode.Shadow? || cfg.stopBeforeDone)
    ensures SafeCopy(s, a)
  {
    hide WellFormed, Exact, Holds, Flat, AllGood, Alternates, LazyOk, ShadowOk, AccountOk, StopOk, Conserved, OrderOk,
         CoverOk, ReleaseOk, LaunchEnabled, EngineEnabled, BuildEnabled, RefillEnabled, ReleaseEnabled;
  }

  // ---- the transfer is exact ----

  lemma {:induction false} ChainDenotes(cfg: Config, cs: seq<Chunk>)
    requires WellFormed(cfg) && cs != [] && Chain(cs) && AllGood(cfg, cs)
    ensures var hi := cs[|cs| - 1].hi; hi <= |cfg.sg| && Denote(Flat(cs)) == CopyOf(cfg.dir, cfg.sg[..hi], cfg.base)
  {
    hide CopyOf, Bytes, Denote, Placed, Size;
    var n := |cs| - 1;
    var c, front := cs[n], cs[..n];
    assert Good(cfg, c);
    DenoteAppend(Flat(front), c.bursts);
    if n == 0 {
      assert Flat(front) == [] && c.lo == 0;
      assert cfg.sg[0..c.hi] == cfg.sg[..c.hi];
      FirstDenotes(cfg, c);
    } else {
      assert Chain(front) && AllGood(cfg, front);
      ChainDenotes(cfg, front);
      NextDenotes(cfg, c);
    }
  }

  lemma FirstDenotes(cfg: Config, c: Chunk)
    requires Good(cfg, c) && c.lo == 0
    ensures Denote([]) + Denote(c.bursts) == CopyOf(cfg.dir, cfg.sg[0..c.hi], cfg.base)
  {
    hide CopyOf, Placed, Size;
    assert cfg.sg[..0] == [];
    assert Denote([]) == [];
  }

  lemma NextDenotes(cfg: Config, c: Chunk)
    requires Good(cfg, c)
    ensures CopyOf(cfg.dir, cfg.sg[..c.lo], cfg.base) + Denote(c.bursts) == CopyOf(cfg.dir, cfg.sg[..c.hi], cfg.base)
  {
    hide CopyOf, Bytes, Denote, Placed, Size;
    CopySplit(cfg.dir, cfg.sg, 0, c.lo, c.hi, cfg.base);
    assert cfg.sg[0..c.lo] == cfg.sg[..c.lo] && cfg.sg[0..c.hi] == cfg.sg[..c.hi];
  }

  lemma CompletedExecuted(cfg: Config, s: State)
    requires Inv(cfg, s) && s.vd.Completed? && Clean(s)
    ensures s.launched != [] && (!s.overrun ==> s.executed == Flat(s.launched))
    ensures Chain(s.launched) && AllGood(cfg, s.launched) && Last(s).hi == |cfg.sg|
    ensures s.allocSz == Total(cfg, 0, |cfg.sg|) && !Outstanding(s)
  {
    hide Holds, Flat, LazyOk, Conserved, ReleaseOk, Chain, AllGood, Alternates, Accounts, Total, LazyCover,
         ShadowCover;
    if !s.overrun { AllExecuted(cfg, s); }
  }

  /**
   In every run that completes the cookie without abort, stop request or hardware error, and whose copies are safe,
   whatever the interleaving, the engine has executed exactly the copy between the list and the device range, once and
   in order.
   */
  lemma CompletedTransferIsExact(cfg: Config, states: seq<State>, actions: seq<Action>)
    requires IsRun(cfg, states, actions) && SafeCopies(states, actions, |actions|)
    requires var s := states[|actions|]; s.vd.Completed? && Clean(s)
    ensures Denote(states[|actions|].executed) == CopyOf(cfg.dir, cfg.sg, cfg.base)
  {
    hide IsRun, SafeCopies, Denote, CopyOf, Inv;
    RunLength(cfg, states, actions);
    var s := states[|actions|];
    RunKeeps(cfg, states, actions, |actions|);
    SafeRun(cfg, states, actions, |actions|);
    CompletedExecuted(cfg, s);
    InvWellFormed(cfg, s);
    ChainDenotes(cfg, s.launched);
    assert cfg.sg[..|cfg.sg|] == cfg.sg;
  }

  lemma RunLength(cfg: Config, states: seq<State>, actions: seq<Action>)
    requires IsRun(cfg, states, actions)
    ensures |states| == |actions| + 1
  {
  }

  lemma InvWellFormed(cfg: Config, s: State)
    requires Inv(cfg, s)
    ensures WellFormed(cfg)
  {
  }
}
