/** Errors have causes: what a run in which nothing fails can, and cannot, report. */
module StreamingErrors {
  import opened Basics
  import opened Copy
  import opened DescriptorTable
  import opened Streaming
  import opened StreamingInvariant
  import opened StreamingFacts
  import opened StreamingSafety
  import opened StreamingDecisions

  /** Something outside the protocol fails in this step, or the transfer is stopped or aborted from outside. */
  predicate Faulty(a: Action) {
    match a
    case ByLaunch(x) =>
      (match x
       case LaunchBegin(live) => !live
       case LaunchWrite(ok, _) => !ok
       case LaunchCopy(ok, _) => !ok
       case LaunchCommit(live) => !live
       case Stop => true
       case Issue => false)
    case ByEngine(x) => x.AbortIsr? || x.HwError?
    case ByBuild(x) =>
      (match x
       case ShadowFill(r) => r.FillFail?
       case ShadowPrebuild(ok, _) => !ok
       case ShadowAlloc(ok) => !ok
       case _ => false)
    case ByHand(x) =>
      (match x
       case ShadowPrecopy(ok, _, _) => !ok
       case ShadowLaunch(live) => !live
       case _ => false)
    case ByRefill(x) =>
      (match x
       case LazyWait(ok) => !ok
       case LazyFill(r) => r.FillFail?
       case LazyWrite(ok, _) => !ok
       case LazyCopy(ok, _) => !ok
       case _ => false)
    case ByRelease(_) => false
  }

  /** A chunk for the build after the current one is at hand wherever it will be needed. */
  predicate Supplied(s: State) {
    s.hasMore ==>
      && (s.worker.WPublish? || s.worker.WPrecopy? || s.worker.WLaunch? ==> s.worker.next.Some?)
      && (IsFilled(s.shadowChunk) && (s.worker.WIdle? || Waiting(s.worker)) ==> s.shadowNext.Some?)
  }

  /** Nothing has failed, and nothing is under way that would report a failure. */
  predicate Fine(cfg: Config, s: State) {
    && Clean(s) && s.request.NoRequest? && Supplied(s)
    && (s.launch.LCommit? ==> s.launch.ok)
    && !s.worker.WFreed? && !s.worker.WDrop? && !s.worker.WAlarm? && (s.worker.WRequeue? ==> s.shadowChunk.Some?)
    && (s.refill.ZClaim? ==> s.refill.ok) && (s.refill.ZCommit? ==> s.refill.ok)
    && (cfg.mode.Shadow? && s.lazyMode && !s.vd.Completed? ==> Open(s.shadowState))
    && (!s.lazyState.NotLazy? && s.vd.Issued? ==> s.lazyMode && (s.lazyState.Pending? ==> s.active.Some?))
  }

  lemma InitFine(cfg: Config, s: State)
    requires Init(cfg, s)
    ensures Fine(cfg, s)
  {
    hide WellFormed, FilledFrom, Bytes;
  }

  /** A pass that begins although the last chunk was launched already. */
  predicate Surplus(s: State, a: Action) {
    a == ByBuild(ShadowBegin) && s.shadowChunk.None?
  }

  lemma FineFailsNot(cfg: Config, s: State, a: Action)
    requires Inv(cfg, s) && Fine(cfg, s) && Enabled(cfg, s, a) && !Faulty(a)
    ensures (MayFail(cfg, s, a) <==> Surplus(s, a)) && !MayAbort(s, a)
  {
    hide WellFormed, Exact, Holds, Flat, AllGood, Alternates, Accounts, Chain, Total, Conserved, EngineOk, StopOk,
         AccountOk, OrderOk, ReleaseOk, FillAllowed;
  }

  lemma IssueFine(cfg: Config, s: State)
    requires Inv(cfg, s) && Fine(cfg, s) && s.vd.Submitted?
    ensures Fine(cfg, DoIssue(s))
  {
    hide WellFormed, Exact, Holds, Flat, AllGood, Alternates, Accounts, Chain, Total, Conserved, EngineOk, StopOk,
         AccountOk, OrderOk, ReleaseOk;
  }

  lemma LaunchBeginFine(cfg: Config, s: State)
    requires Inv(cfg, s) && Fine(cfg, s) && s.launchQueued
    ensures Fine(cfg, DoLaunchBegin(s, true))
  {
    hide WellFormed, Exact, Holds, Flat, AllGood, Alternates, Accounts, Chain, Total, Conserved, EngineOk, StopOk,
         AccountOk, OrderOk, ReleaseOk;
  }

  lemma LaunchWriteFine(cfg: Config, s: State, back: nat)
    requires Inv(cfg, s) && Fine(cfg, s) && s.launch.LWrite? && s.active.Some? && back <= s.active.value.held
    ensures Fine(cfg, DoLaunchWrite(cfg, s, true, back))
  {
    hide WellFormed, Exact, Holds, Flat, AllGood, Alternates, Accounts, Chain, Total, Conserved, EngineOk, StopOk,
         AccountOk, OrderOk, ReleaseOk, Written, WriteHost;
  }

  lemma LaunchCopyFine(cfg: Config, s: State, junk: seq<Elem>)
    requires Inv(cfg, s) && Fine(cfg, s) && s.launch.LCopy? && s.active.Some?
    ensures Fine(cfg, DoLaunchCopy(s, true, junk))
  {
    hide WellFormed, Exact, Holds, Flat, AllGood, Alternates, Accounts, Chain, Total, Conserved, EngineOk, StopOk,
         AccountOk, OrderOk, ReleaseOk, CopyTable;
  }

  lemma LaunchCommitFine(cfg: Config, s: State)
    requires Inv(cfg, s) && Fine(cfg, s) && s.launch.LCommit?
    ensures Fine(cfg, DoLaunchCommit(s, true))
  {
    hide WellFormed, Exact, Holds, Flat, AllGood, Alternates, Accounts, Chain, Total, Conserved, EngineOk, StopOk,
         AccountOk, OrderOk, ReleaseOk;
  }

  /** A fetch changes nothing but the engine, its status and its history. */
  predicate OnlyEngine(s: State, t: State) {
    t == s.(engine := t.engine, doneBit := t.doneBit, executed := t.executed)
  }

  lemma FetchOnlyEngine(cfg: Config, s: State)
    requires s.engine.Running? && s.engine.at < |s.table|
    ensures OnlyEngine(s, DoFetch(cfg, s))
  {
    hide FetchedEnd, FetchedBurst, FetchedLink, OnlyEngine;
    var e := s.table[s.engine.at];
    EndOnly(cfg, s);
    if e.Lli? { BurstOnly(cfg, s, e); } else { LinkOnly(cfg, s, e); }
  }

  lemma EndOnly(cfg: Config, s: State)
    requires s.engine.Running?
    ensures OnlyEngine(s, FetchedEnd(cfg, s))
  {
  }

  lemma BurstOnly(cfg: Config, s: State, e: Elem)
    requires s.engine.Running? && e.Lli?
    ensures OnlyEngine(s, FetchedBurst(cfg, s, e))
  {
  }

  lemma LinkOnly(cfg: Config, s: State, e: Elem)
    requires s.engine.Running? && e.Llp?
    ensures OnlyEngine(s, FetchedLink(cfg, s, e))
  {
  }

  lemma FetchFine(cfg: Config, s: State)
    requires Fine(cfg, s) && s.engine.Running? && s.engine.at < |s.table|
    ensures Fine(cfg, DoFetch(cfg, s))
  {
    hide DoFetch;
    FetchOnlyEngine(cfg, s);
  }

  lemma DoneLastFine(cfg: Config, s: State)
    requires Inv(cfg, s) && Fine(cfg, s) && s.xferStarted && s.vd.Issued? && s.active.Some? && !s.lazyMode
    ensures Fine(cfg, CompleteDone(cfg, s.(doneBit := false)))
  {
    hide WellFormed, Exact, Holds, Flat, AllGood, Alternates, Accounts, Chain, Total, Conserved, EngineOk, StopOk,
         AccountOk, OrderOk, ReleaseOk, DeferLazyDone;
  }

  lemma DoneShadowFine(cfg: Config, s: State)
    requires Inv(cfg, s) && Fine(cfg, s) && s.xferStarted && s.vd.Issued? && s.active.Some? && s.lazyMode
    requires s.shadowState.Ready? || s.shadowState.Building?
    ensures Fine(cfg, DeferLazyDone(cfg, s.(doneBit := false), s.active.value))
  {
    hide WellFormed, Exact, Holds, Flat, AllGood, Alternates, Accounts, Chain, Total, Conserved, EngineOk, StopOk,
         AccountOk, OrderOk, ReleaseOk, Retire;
  }

  lemma DoneLazyFine(cfg: Config, s: State)
    requires Inv(cfg, s) && Fine(cfg, s) && s.xferStarted && s.vd.Issued? && s.active.Some? && s.lazyMode
    requires s.shadowState.Idle?
    ensures Fine(cfg, DeferLazyDone(cfg, s.(doneBit := false), s.active.value))
  {
    hide WellFormed, Exact, Holds, Flat, AllGood, Alternates, Accounts, Chain, Total, Conserved, EngineOk, StopOk,
         AccountOk, OrderOk, ReleaseOk, Retire;
  }

  lemma DoneFacts(cfg: Config, s: State)
    requires Inv(cfg, s) && Fine(cfg, s) && s.xferStarted
    ensures s.vd.Issued? && s.active.Some?
    ensures s.lazyMode ==> s.shadowState.Ready? || s.shadowState.Building? || s.shadowState.Idle?
  {
    hide WellFormed, Exact, Holds, Flat, AllGood, Alternates, Accounts, Chain, Total, Conserved, EngineOk, StopOk,
         AccountOk, OrderOk, ReleaseOk;
  }

  lemma DoneFine(cfg: Config, s: State)
    requires Inv(cfg, s) && Fine(cfg, s) && s.xferStarted
    ensures Fine(cfg, CompleteDone(cfg, s.(doneBit := false)))
  {
    hide Inv, Fine, DeferLazyDone, Retire, Account, Finish;
    DoneFacts(cfg, s);
    if !s.lazyMode { DoneLastFine(cfg, s); }
    else if s.shadowState.Idle? { DoneLazyFine(cfg, s); }
    else { DoneShadowFine(cfg, s); }
  }

  lemma BeginTakesFine(cfg: Config, s: State)
    requires Inv(cfg, s) && Fine(cfg, s) && s.worker.WIdle? && s.shadowState.IsrPending? && IsFilled(s.shadowChunk)
    ensures Fine(cfg, TakeBuilt(s.(shadowQueued := false)))
  {
    hide WellFormed, Exact, Holds, Flat, AllGood, Alternates, Accounts, Chain, Total, Conserved, EngineOk, StopOk,
         AccountOk, OrderOk, ReleaseOk;
  }

  lemma BeginFillsFine(cfg: Config, s: State)
    requires Inv(cfg, s) && Fine(cfg, s) && s.worker.WIdle? && s.shadowChunk.Some?
    ensures Fine(cfg, s.(shadowQueued := false, worker := WFill(s.shadowChunk.value.id)))
  {
    hide WellFormed, Exact, Holds, Flat, AllGood, Alternates, Accounts, Chain, Total, Conserved, EngineOk, StopOk,
         AccountOk, OrderOk, ReleaseOk;
  }

  lemma BeginFine(cfg: Config, s: State)
    requires Inv(cfg, s) && Fine(cfg, s) && s.worker.WIdle? && s.shadowChunk.Some?
    ensures Fine(cfg, DoShadowBegin(s))
  {
    hide Inv, Fine, TakeBuilt;
    BeginFillsFine(cfg, s);
    if s.shadowState.IsrPending? && IsFilled(s.shadowChunk) { BeginTakesFine(cfg, s); }
  }

  lemma FillFine(cfg: Config, s: State, hi: nat, bs: seq<Burst>, taken: nat)
    requires Inv(cfg, s) && Fine(cfg, s) && s.worker.WFill? && s.shadowChunk.Some? && s.shadowPos < hi <= |cfg.sg|
    requires taken <= s.poolFree
    ensures Fine(cfg, ShadowFilled(cfg, s, hi, bs, taken))
  {
    hide WellFormed, Exact, Holds, Flat, AllGood, Alternates, Accounts, Chain, Total, Conserved, EngineOk, StopOk,
         AccountOk, OrderOk, ReleaseOk, Counted;
  }

  lemma PrebuildFine(cfg: Config, s: State, back: nat)
    requires Inv(cfg, s) && Fine(cfg, s) && s.worker.WPrebuild? && s.shadowChunk.Some?
    requires back <= s.shadowChunk.value.held
    ensures Fine(cfg, ShadowWritten(cfg, s, back))
  {
    hide WellFormed, Exact, Holds, Flat, AllGood, Alternates, Accounts, Chain, Total, Conserved, EngineOk, StopOk,
         AccountOk, OrderOk, ReleaseOk, Written, WriteHost;
  }

  lemma AllocFine(cfg: Config, s: State)
    requires Inv(cfg, s) && Fine(cfg, s) && s.worker.WAlloc?
    ensures Fine(cfg, DoShadowAlloc(s, true))
  {
    hide WellFormed, Exact, Holds, Flat, AllGood, Alternates, Accounts, Chain, Total, Conserved, EngineOk, StopOk,
         AccountOk, OrderOk, ReleaseOk;
  }

  lemma PublishReadyFine(cfg: Config, s: State)
    requires Inv(cfg, s) && Fine(cfg, s) && s.worker.WPublish? && s.shadowState.Building?
    ensures Fine(cfg, DoShadowPublish(s))
  {
    hide WellFormed, Exact, Holds, Flat, AllGood, Alternates, Accounts, Chain, Total, Conserved, EngineOk, StopOk,
         AccountOk, OrderOk, ReleaseOk, Abandon;
  }

  lemma PublishPendingFine(cfg: Config, s: State)
    requires Inv(cfg, s) && Fine(cfg, s) && s.worker.WPublish? && s.shadowState.IsrPending?
    ensures Fine(cfg, DoShadowPublish(s))
  {
    hide WellFormed, Exact, Holds, Flat, AllGood, Alternates, Accounts, Chain, Total, Conserved, EngineOk, StopOk,
         AccountOk, OrderOk, ReleaseOk, Abandon;
  }

  lemma PublishFacts(cfg: Config, s: State)
    requires Inv(cfg, s) && Fine(cfg, s) && s.worker.WPublish?
    ensures s.shadowState.Building? || s.shadowState.IsrPending?
  {
    hide WellFormed, Exact, Holds, Flat, AllGood, Alternates, Accounts, Chain, Total, Conserved, EngineOk, StopOk,
         AccountOk, OrderOk, ReleaseOk;
  }

  lemma PublishFine(cfg: Config, s: State)
    requires Inv(cfg, s) && Fine(cfg, s) && s.worker.WPublish?
    ensures Fine(cfg, DoShadowPublish(s))
  {
    hide Inv, Fine, DoShadowPublish;
    PublishFacts(cfg, s);
    if s.shadowState.Building? { PublishReadyFine(cfg, s); } else { PublishPendingFine(cfg, s); }
  }

  lemma StopCheckFine(cfg: Config, s: State)
    requires Inv(cfg, s) && Fine(cfg, s) && s.worker.WStopCheck?
    ensures Fine(cfg, DoShadowStopCheck(s))
  {
    hide WellFormed, Exact, Holds, Flat, AllGood, Alternates, Accounts, Chain, Total, Conserved, EngineOk, StopOk,
         AccountOk, OrderOk, ReleaseOk;
  }

  lemma HandedOffFine(cfg: Config, s: State)
    requires Inv(cfg, s) && Fine(cfg, s) && s.worker.WHandoff? && s.shadowState.Ready? && s.active.Some?
    requires s.shadowChunk.Some?
    ensures Fine(cfg, HandedOff(s))
  {
    hide WellFormed, Exact, Holds, Flat, AllGood, Alternates, Accounts, Chain, Total, Conserved, EngineOk, StopOk,
         AccountOk, OrderOk, ReleaseOk;
    GoodNonEmpty(cfg, s.shadowChunk.value);
  }

  lemma NotHandedOffFine(cfg: Config, s: State)
    requires Inv(cfg, s) && Fine(cfg, s) && s.worker.WHandoff?
    ensures Fine(cfg, s.(worker := WRecheck(s.worker.id)))
  {
    hide WellFormed, Exact, Holds, Flat, AllGood, Alternates, Accounts, Chain, Total, Conserved, EngineOk, StopOk,
         AccountOk, OrderOk, ReleaseOk;
  }

  lemma HandoffFine(cfg: Config, s: State)
    requires Inv(cfg, s) && Fine(cfg, s) && s.worker.WHandoff?
    ensures Fine(cfg, DoShadowHandoff(s))
  {
    hide Inv, Fine, HandedOff;
    NotHandedOffFine(cfg, s);
    if s.shadowState.Ready? && s.active.Some? && s.shadowChunk.Some? { HandedOffFine(cfg, s); }
  }

  lemma RecheckFine(cfg: Config, s: State)
    requires Inv(cfg, s) && Fine(cfg, s) && s.worker.WRecheck?
    ensures Fine(cfg, DoShadowRecheck(s))
  {
    hide WellFormed, Exact, Holds, Flat, AllGood, Alternates, Accounts, Chain, Total, Conserved, EngineOk, StopOk,
         AccountOk, OrderOk, ReleaseOk;
    if s.shadowState.IsrPending? { GoodNonEmpty(cfg, s.shadowChunk.value); }
  }

  lemma PrecopyFine(cfg: Config, s: State, junk: seq<Elem>)
    requires Inv(cfg, s) && Fine(cfg, s) && s.worker.WPrecopy? && s.shadowChunk.Some?
    ensures Fine(cfg, Precopied(s))
  {
    hide WellFormed, Exact, Holds, Flat, AllGood, Alternates, Accounts, Chain, Total, Conserved, EngineOk, StopOk,
         AccountOk, OrderOk, ReleaseOk, CopyTable, Overruns;
  }

  lemma ShadowLaunchFine(cfg: Config, s: State)
    requires Inv(cfg, s) && Fine(cfg, s) && s.worker.WLaunch? && s.shadowChunk.Some?
    ensures Fine(cfg, DoShadowLaunch(s, true))
  {
    hide WellFormed, Exact, Holds, Flat, AllGood, Alternates, Accounts, Chain, Total, Conserved, EngineOk, StopOk,
         AccountOk, OrderOk, ReleaseOk;
  }

  lemma ClaimLateFine(cfg: Config, s: State)
    requires Inv(cfg, s) && Fine(cfg, s) && s.refill.ZClaim? && !s.lazyState.Pending?
    ensures Fine(cfg, DoLazyClaim(s))
  {
    hide WellFormed, Exact, Holds, Flat, AllGood, Alternates, Accounts, Chain, Total, Conserved, EngineOk, StopOk,
         AccountOk, OrderOk, ReleaseOk, RefillStopped, RefillFailed, Claimed;
  }

  lemma ClaimGoneFine(cfg: Config, s: State)
    requires Inv(cfg, s) && Fine(cfg, s) && s.refill.ZClaim? && s.lazyState.Pending? && !s.vd.Issued?
    ensures Fine(cfg, DoLazyClaim(s))
  {
    hide WellFormed, Exact, Holds, Flat, AllGood, Alternates, Accounts, Chain, Total, Conserved, EngineOk, StopOk,
         AccountOk, OrderOk, ReleaseOk, RefillStopped, RefillFailed, Claimed;
  }

  lemma ClaimTakesFine(cfg: Config, s: State)
    requires Inv(cfg, s) && Fine(cfg, s) && s.refill.ZClaim? && s.active.Some? && s.lazyMode
    ensures Fine(cfg, Claimed(s))
  {
    hide WellFormed, Exact, Holds, Flat, AllGood, Alternates, Accounts, Chain, Total, Conserved, EngineOk, StopOk,
         AccountOk, OrderOk, ReleaseOk;
  }

  lemma ClaimFacts(cfg: Config, s: State)
    requires Inv(cfg, s) && Fine(cfg, s) && s.refill.ZClaim? && s.lazyState.Pending? && s.vd.Issued?
    ensures s.refill.ok && s.active.Some? && s.lazyMode && s.request.NoRequest? && s.sgRemaining > 0
  {
    hide WellFormed, Exact, Holds, Flat, AllGood, Alternates, Accounts, Chain, Total, Conserved, EngineOk, StopOk,
         AccountOk, OrderOk, ReleaseOk;
  }

  lemma ClaimFine(cfg: Config, s: State)
    requires Inv(cfg, s) && Fine(cfg, s) && s.refill.ZClaim?
    ensures Fine(cfg, DoLazyClaim(s))
  {
    hide Inv, Fine, RefillStopped, RefillFailed, Claimed;
    if !s.lazyState.Pending? { ClaimLateFine(cfg, s); }
    else if !s.vd.Issued? { ClaimGoneFine(cfg, s); }
    else {
      ClaimFacts(cfg, s);
      ClaimTakesFine(cfg, s);
    }
  }

  lemma ReleaseChunkFine(cfg: Config, s: State)
    requires Inv(cfg, s) && Fine(cfg, s) && s.refill.ZRelease?
    ensures Fine(cfg, DoLazyRelease(s))
  {
    hide WellFormed, Exact, Holds, Flat, AllGood, Alternates, Accounts, Chain, Total, Conserved, EngineOk, StopOk,
         AccountOk, OrderOk, ReleaseOk;
  }

  lemma LazyFillFine(cfg: Config, s: State, hi: nat, bs: seq<Burst>, taken: nat)
    requires Inv(cfg, s) && Fine(cfg, s) && s.refill.ZFill? && taken <= s.poolFree
    ensures Fine(cfg, LazyFilled(cfg, s, hi, bs, taken))
  {
    hide WellFormed, Exact, Holds, Flat, AllGood, Alternates, Accounts, Chain, Total, Conserved, EngineOk, StopOk,
         AccountOk, OrderOk, ReleaseOk;
  }

  lemma LazyWriteFine(cfg: Config, s: State, back: nat)
    requires Inv(cfg, s) && Fine(cfg, s) && s.refill.ZWrite? && back <= s.refill.c.held
    ensures Fine(cfg, LazyWritten(cfg, s, back))
  {
    hide WellFormed, Exact, Holds, Flat, AllGood, Alternates, Accounts, Chain, Total, Conserved, EngineOk, StopOk,
         AccountOk, OrderOk, ReleaseOk, Written, WriteHost;
  }

  lemma LazyCopyFine(cfg: Config, s: State, junk: seq<Elem>)
    requires Inv(cfg, s) && Fine(cfg, s) && s.refill.ZCopy?
    ensures Fine(cfg, DoLazyCopy(s, true, junk))
  {
    hide WellFormed, Exact, Holds, Flat, AllGood, Alternates, Accounts, Chain, Total, Conserved, EngineOk, StopOk,
         AccountOk, OrderOk, ReleaseOk, CopyTable;
  }

  lemma RefillFreedFine(cfg: Config, s: State, l: LazyState)
    requires Inv(cfg, s) && Fine(cfg, s) && s.refill.ZCommit? && (l == s.lazyState || l.NotLazy?)
    ensures Fine(cfg, RefillFreed(s, s.refill.c, l))
  {
    hide WellFormed, Exact, Holds, Flat, AllGood, Alternates, Accounts, Chain, Total, Conserved, EngineOk, StopOk,
         AccountOk, OrderOk, ReleaseOk;
  }

  lemma RefillFine(cfg: Config, s: State)
    requires Inv(cfg, s) && Fine(cfg, s) && s.refill.ZCommit? && s.vd.Issued? && s.lazyState.Preparing?
    ensures Fine(cfg, Refill(cfg, s))
  {
    hide WellFormed, Exact, Holds, Flat, AllGood, Alternates, Accounts, Chain, Total, Conserved, EngineOk, StopOk,
         AccountOk, OrderOk, ReleaseOk, Bytes;
  }

  lemma CommitFacts(cfg: Config, s: State)
    requires Inv(cfg, s) && Fine(cfg, s) && s.refill.ZCommit? && s.vd.Issued? && s.lazyState.Preparing?
    ensures s.refill.ok && s.lazyMode && s.request.NoRequest? && Clean(s)
  {
    hide WellFormed, Exact, Holds, Flat, AllGood, Alternates, Accounts, Chain, Total, Conserved, EngineOk, StopOk,
         AccountOk, OrderOk, ReleaseOk;
  }

  lemma LazyCommitFine(cfg: Config, s: State)
    requires Inv(cfg, s) && Fine(cfg, s) && s.refill.ZCommit?
    ensures Fine(cfg, DoLazyCommit(cfg, s))
  {
    hide Inv, Fine, RefillStopped, RefillFailed, Refill, RefillFreed, Defer;
    RefillFreedFine(cfg, s, NotLazy);
    RefillFreedFine(cfg, s, s.lazyState);
    if s.vd.Issued? && s.lazyState.Preparing? {
      CommitFacts(cfg, s);
      RefillFine(cfg, s);
    }
  }

  lemma FreeFine(cfg: Config, s: State)
    requires Inv(cfg, s) && Fine(cfg, s) && s.vd.Completed?
    ensures Fine(cfg, s.(shadowState := Cancel(s.shadowState), freeing := Marked))
  {
    hide WellFormed, Exact, Holds, Flat, AllGood, Alternates, Accounts, Chain, Total, Conserved, EngineOk, StopOk,
         AccountOk, OrderOk, ReleaseOk;
  }

  lemma FreeShadowFine(cfg: Config, s: State)
    requires Inv(cfg, s) && Fine(cfg, s) && s.freeing.Marked? && s.worker.WIdle?
    ensures Fine(cfg, DoFreeShadow(s))
  {
    hide WellFormed, Exact, Holds, Flat, AllGood, Alternates, Accounts, Chain, Total, Conserved, EngineOk, StopOk,
         AccountOk, OrderOk, ReleaseOk;
  }

  lemma LaunchStepFine(cfg: Config, s: State, a: LaunchAction)
    requires Inv(cfg, s) && Fine(cfg, s) && LaunchEnabled(cfg, s, a) && !Faulty(ByLaunch(a))
    ensures Fine(cfg, LaunchStep(cfg, s, a))
  {
    hide Inv, Fine, DoIssue, DoLaunchBegin, DoLaunchWrite, DoLaunchCopy, DoLaunchCommit;
    match a
    case Issue => IssueFine(cfg, s);
    case LaunchBegin(_) => LaunchBeginFine(cfg, s);
    case LaunchWrite(_, back) => LaunchWriteFine(cfg, s, back);
    case LaunchCopy(_, junk) => LaunchCopyFine(cfg, s, junk);
    case LaunchCommit(_) => LaunchCommitFine(cfg, s);
    case Stop =>
  }

  lemma EngineStepFine(cfg: Config, s: State, a: EngineAction)
    requires Inv(cfg, s) && Fine(cfg, s) && EngineEnabled(cfg, s, a) && !Faulty(ByEngine(a))
    ensures Fine(cfg, EngineStep(cfg, s, a))
  {
    hide Inv, DoFetch, CompleteDone, Supplied;
    match a
    case Fetch => FetchFine(cfg, s);
    case DoneIsr => if s.xferStarted { DoneFine(cfg, s); } else { DoneClearedFine(cfg, s); }
    case DoneReplay => DoneFine(cfg, s);
    case _ =>
  }

  lemma DoneClearedFine(cfg: Config, s: State)
    requires Fine(cfg, s)
    ensures Fine(cfg, s.(doneBit := false))
  {
  }

  lemma BuildStepFine(cfg: Config, s: State, a: BuildAction)
    requires Inv(cfg, s) && Fine(cfg, s) && BuildEnabled(cfg, s, a) && !Faulty(ByBuild(a)) && !Surplus(s, ByBuild(a))
    ensures Fine(cfg, BuildStep(cfg, s, a))
  {
    hide Inv, Supplied, DoShadowBegin, ShadowFilled, ShadowWritten, DoShadowAlloc, DoShadowPublish, FillsFrom,
         FailsFrom;
    match a
    case ShadowBegin => BeginFine(cfg, s);
    case ShadowFill(r) => FillFine(cfg, s, r.hi, r.bursts, r.taken);
    case ShadowPrebuild(_, back) => PrebuildFine(cfg, s, back);
    case ShadowAlloc(_) => AllocFine(cfg, s);
    case ShadowPublish => PublishFine(cfg, s);
    case ShadowClear =>
  }

  lemma HandStepFine(cfg: Config, s: State, a: HandAction)
    requires Inv(cfg, s) && Fine(cfg, s) && HandEnabled(cfg, s, a) && !Faulty(ByHand(a))
    ensures Fine(cfg, HandStep(cfg, s, a))
  {
    hide Inv, DoShadowStopCheck, DoShadowHandoff, DoShadowRecheck, Precopied, DoShadowLaunch;
    match a
    case ShadowStopCheck => StopCheckFine(cfg, s);
    case ShadowHandoff => HandoffFine(cfg, s);
    case ShadowRecheck => RecheckFine(cfg, s);
    case ShadowPrecopy(_, _, junk) => PrecopyFine(cfg, s, junk);
    case ShadowLaunch(_) => ShadowLaunchFine(cfg, s);
    case ShadowRequeue => RequeueFine(cfg, s);
    case _ =>
  }

  lemma RequeueFine(cfg: Config, s: State)
    requires Inv(cfg, s) && Fine(cfg, s) && s.worker.WRequeue?
    ensures Fine(cfg, s.(shadowQueued := true, worker := WIdle))
  {
    hide WellFormed, Exact, Holds, Flat, AllGood, Alternates, Accounts, Chain, Total, Conserved, EngineOk, StopOk,
         AccountOk, OrderOk, ReleaseOk;
  }

  lemma RefillStepFine(cfg: Config, s: State, a: RefillAction)
    requires Inv(cfg, s) && Fine(cfg, s) && RefillEnabled(cfg, s, a) && !Faulty(ByRefill(a))
    ensures Fine(cfg, RefillStep(cfg, s, a))
  {
    hide Inv, Supplied, DoLazyClaim, DoLazyRelease, LazyFilled, LazyWritten, DoLazyCopy, DoLazyCommit, FillsFrom,
         FailsFrom;
    match a
    case LazyClaim => ClaimFine(cfg, s);
    case LazyRelease => ReleaseChunkFine(cfg, s);
    case LazyFill(r) => LazyFillFine(cfg, s, r.hi, r.bursts, r.taken);
    case LazyWrite(_, back) => LazyWriteFine(cfg, s, back);
    case LazyCopy(_, junk) => LazyCopyFine(cfg, s, junk);
    case LazyCommit => LazyCommitFine(cfg, s);
    case LazyBegin => LazyBeginFine(cfg, s);
    case LazyWait(_) => LazyWaitFine(cfg, s);
  }

  lemma LazyBeginFine(cfg: Config, s: State)
    requires Fine(cfg, s)
    ensures Fine(cfg, s.(lazyQueued := false, refill := ZWait))
  {
  }

  lemma LazyWaitFine(cfg: Config, s: State)
    requires Fine(cfg, s)
    ensures Fine(cfg, s.(refill := ZClaim(true)))
  {
  }

  lemma ReleaseStepFine(cfg: Config, s: State, a: ReleaseAction)
    requires Inv(cfg, s) && Fine(cfg, s) && ReleaseEnabled(cfg, s, a)
    ensures Fine(cfg, ReleaseStep(cfg, s, a))
  {
    hide Inv, Supplied, DoFreeShadow, DoCleanup;
    match a
    case FreeBegin => FreeFine(cfg, s);
    case FreeShadow => FreeShadowFine(cfg, s);
    case FreeRest => FreeRestFine(cfg, s);
    case Cleanup => CleanupFine(cfg, s);
  }

  lemma FreeRestFine(cfg: Config, s: State)
    requires Inv(cfg, s) && Fine(cfg, s) && s.freeing.ShadowGone?
    ensures Fine(cfg, Free(s, s.active).(lazyQueued := false, active := None, freeing := Released))
  {
    hide WellFormed, Exact, Holds, Flat, AllGood, Alternates, Accounts, Chain, Total, Conserved, EngineOk, StopOk,
         AccountOk, OrderOk, ReleaseOk;
  }

  lemma CleanupFine(cfg: Config, s: State)
    requires Fine(cfg, s)
    ensures Fine(cfg, DoCleanup(s))
  {
  }

  lemma StepFine(cfg: Config, s: State, a: Action)
    requires Inv(cfg, s) && Fine(cfg, s) && Enabled(cfg, s, a) && !Faulty(a) && !Surplus(s, a)
    ensures Fine(cfg, Apply(cfg, s, a))
  {
    hide Inv, Fine, Faulty, LaunchEnabled, LaunchStep, EngineEnabled, EngineStep, BuildEnabled, BuildStep,
         HandEnabled, HandStep, RefillEnabled, RefillStep, ReleaseEnabled, ReleaseStep;
    match a
    case ByLaunch(x) => LaunchStepFine(cfg, s, x);
    case ByEngine(x) => EngineStepFine(cfg, s, x);
    case ByBuild(x) => BuildStepFine(cfg, s, x);
    case ByHand(x) => HandStepFine(cfg, s, x);
    case ByRefill(x) => RefillStepFine(cfg, s, x);
    case ByRelease(x) => ReleaseStepFine(cfg, s, x);
  }

  /** None of the first `n` steps fails, and none of them is a surplus pass. */
  ghost predicate Faultless(states: seq<State>, actions: seq<Action>, n: nat) {
    n <= |actions| < |states| && forall i :: 0 <= i < n ==> !Faulty(actions[i]) && !Surplus(states[i], actions[i])
  }

  lemma {:induction false} FaultlessFine(cfg: Config, states: seq<State>, actions: seq<Action>, i: nat)
    requires IsRun(cfg, states, actions) && i < |states| && Faultless(states, actions, i)
    ensures Fine(cfg, states[i])
  {
    hide Inv, Fine, Faulty, Surplus, Enabled, Apply, Init;
    if i == 0 {
      InitFine(cfg, states[0]);
    } else {
      FaultlessFine(cfg, states, actions, i - 1);
      RunKeeps(cfg, states, actions, i - 1);
      StepFine(cfg, states[i - 1], actions[i - 1]);
    }
  }

  /** Where a surplus pass begins, the whole list has been launched. */
  lemma SurplusLate(cfg: Config, s: State, a: Action)
    requires Inv(cfg, s) && Fine(cfg, s) && Enabled(cfg, s, a) && Surplus(s, a) && !s.vd.Completed?
    ensures cfg.mode.Shadow? && s.launched != [] && Last(s).hi == |cfg.sg|
  {
    hide WellFormed, Exact, Holds, Flat, AllGood, Alternates, Accounts, Chain, Total, Conserved, EngineOk, StopOk,
         AccountOk, OrderOk, ReleaseOk, LazyOk;
  }

  /**
   Errors have causes: in every run in which nothing has failed and nobody has asked for a stop, the next step that does
   not fail itself raises an error or an abort if and only if it is a pass of the shadow worker that begins with no
   chunk left; in an unfinished transfer that is in shadow mode, and after the whole list was launched.
   */
  lemma ErrorsAreCaused(cfg: Config, states: seq<State>, actions: seq<Action>, i: nat)
    requires IsRun(cfg, states, actions) && i < |actions| && Faultless(states, actions, i) && !Faulty(actions[i])
    ensures |states| == |actions| + 1 && Clean(states[i])
    ensures states[i + 1].hwErr || states[i + 1].aborted <==> Surplus(states[i], actions[i])
    ensures Surplus(states[i], actions[i]) && !states[i].vd.Completed? ==>
              cfg.mode.Shadow? && states[i].launched != [] && Last(states[i]).hi == |cfg.sg|
  {
    hide Inv, Faulty, Enabled, Apply, Init, MayFail, MayAbort, MayLaunch, MayComplete;
    FaultlessFine(cfg, states, actions, i);
    RunKeeps(cfg, states, actions, i);
    StepDecides(cfg, states[i], actions[i]);
    FineFailsNot(cfg, states[i], actions[i]);
    if Surplus(states[i], actions[i]) && !states[i].vd.Completed? { SurplusLate(cfg, states[i], actions[i]); }
  }

  // ---- when there is no surplus pass ----

  /** A Done that queues a pass finds the shadow worker at rest. */
  predicate DoneAtRest(s: State, a: Action) {
    a == ByEngine(DoneIsr) || a == ByEngine(DoneReplay) ==> s.worker.WIdle?
  }

  /** A queued pass will find a worker at rest and a chunk to work on. */
  predicate Expected(s: State) {
    s.shadowQueued ==> s.worker.WIdle? && s.shadowChunk.Some?
  }

  lemma QueueFacts(cfg: Config, s: State, a: Action)
    requires Inv(cfg, s) && Fine(cfg, s) && Enabled(cfg, s, a) && MayQueue(s, a) && DoneAtRest(s, a)
    ensures if a.ByHand? then s.worker.WRequeue? && s.shadowChunk.Some? else s.worker.WIdle? && s.shadowChunk.Some?
  {
    hide WellFormed, Exact, Holds, Flat, AllGood, Alternates, Accounts, Chain, Total, Conserved, EngineOk, StopOk,
         AccountOk, OrderOk, ReleaseOk, LazyOk, CoverOk;
  }

  lemma BeginTakesExpected(s: State)
    requires s.shadowState.IsrPending? && IsFilled(s.shadowChunk)
    ensures !DoShadowBegin(s).shadowQueued
  {
  }

  lemma BeginNoneExpected(s: State)
    requires s.shadowChunk.None?
    ensures !DoShadowBegin(s).shadowQueued
  {
  }

  lemma BeginFillsExpected(s: State)
    requires !(s.shadowState.IsrPending? && IsFilled(s.shadowChunk)) && s.shadowChunk.Some?
    ensures !DoShadowBegin(s).shadowQueued
  {
  }

  lemma BeginExpected(cfg: Config, s: State)
    requires s.shadowQueued && s.worker.WIdle?
    ensures Expected(Apply(cfg, s, ByBuild(ShadowBegin)))
  {
    hide DoShadowBegin;
    if s.shadowState.IsrPending? && IsFilled(s.shadowChunk) { BeginTakesExpected(s); }
    else if s.shadowChunk.None? { BeginNoneExpected(s); }
    else { BeginFillsExpected(s); }
  }

  lemma RequeueExpected(cfg: Config, s: State)
    requires s.worker.WRequeue? && s.shadowChunk.Some?
    ensures Expected(Apply(cfg, s, ByHand(ShadowRequeue)))
  {
  }

  lemma OtherExpected(cfg: Config, s: State, a: Action, t: State)
    requires Decided(cfg, s, a, t) && Expected(s) && a != ByBuild(ShadowBegin)
    requires MayQueue(s, a) ==> s.worker.WIdle? && s.shadowChunk.Some?
    ensures Expected(t)
  {
    hide MayFail, MayAbort, MayLaunch, MayComplete, MayQueue;
  }

  lemma StepExpected(cfg: Config, s: State, a: Action)
    requires Inv(cfg, s) && Fine(cfg, s) && Enabled(cfg, s, a) && Expected(s) && DoneAtRest(s, a)
    ensures Expected(Apply(cfg, s, a))
  {
    hide Inv, Fine, Decided, Expected, Apply, MayQueue;
    if MayQueue(s, a) { QueueFacts(cfg, s, a); }
    if a == ByBuild(ShadowBegin) {
      BeginExpected(cfg, s);
    } else if a == ByHand(ShadowRequeue) {
      RequeueHas(cfg, s);
      RequeueExpected(cfg, s);
    } else {
      StepDecides(cfg, s, a);
      if MayQueue(s, a) { NotByHand(s, a); }
      OtherExpected(cfg, s, a, Apply(cfg, s, a));
    }
  }

  lemma RequeueHas(cfg: Config, s: State)
    requires Fine(cfg, s) && s.worker.WRequeue?
    ensures s.shadowChunk.Some?
  {
  }

  lemma NotByHand(s: State, a: Action)
    requires MayQueue(s, a) && a != ByHand(ShadowRequeue)
    ensures !a.ByHand?
  {
  }

  /**
   If in addition every Done finds the shadow worker at rest, there is no surplus pass, and so no error at all: in every
   such run, up to any length, nothing is reported.
   */
  lemma {:induction false} NoErrorAtRest(cfg: Config, states: seq<State>, actions: seq<Action>, i: nat)
    requires IsRun(cfg, states, actions) && i < |states|
    requires forall k :: 0 <= k < i ==> !Faulty(actions[k]) && DoneAtRest(states[k], actions[k])
    ensures Clean(states[i]) && Faultless(states, actions, i) && Fine(cfg, states[i]) && Expected(states[i])
  {
    hide Inv, Fine, Faulty, Enabled, Apply, Init, Expected, DoneAtRest;
    if i == 0 {
      InitFine(cfg, states[0]);
      InitExpected(cfg, states[0]);
    } else {
      NoErrorAtRest(cfg, states, actions, i - 1);
      var s, a := states[i - 1], actions[i - 1];
      RunKeeps(cfg, states, actions, i - 1);
      NotSurplus(cfg, s, a);
      StepFine(cfg, s, a);
      StepExpected(cfg, s, a);
    }
    FineClean(cfg, states[i]);
  }

  lemma FineClean(cfg: Config, s: State)
    requires Fine(cfg, s)
    ensures Clean(s)
  {
  }

  lemma NotSurplus(cfg: Config, s: State, a: Action)
    requires Expected(s) && Enabled(cfg, s, a)
    ensures !Surplus(s, a)
  {
  }

  lemma InitExpected(cfg: Config, s: State)
    requires Init(cfg, s)
    ensures Expected(s)
  {
    hide WellFormed, FilledFrom, Bytes;
  }
}
