/** Launch worker, engine and interrupts keep the protocol invariant. */
module StreamingLaunch {
  import opened Basics
  import opened Copy
  import opened DescriptorTable
  import opened Streaming
  import opened StreamingInvariant
  import opened StreamingFacts

  lemma IssueKeeps(cfg: Config, s: State)
    requires Inv(cfg, s) && s.vd.Submitted?
    ensures Kept(cfg, s, DoIssue(s))
  {
    hide WellFormed, Exact, Holds, Flat, AllGood, Alternates, Accounts, Chain, Total, Conserved;
    var t := DoIssue(s);
    SameOwners(cfg, s, t);
  }

  lemma LaunchBeginKeeps(cfg: Config, s: State, live: bool)
    requires Inv(cfg, s) && s.launchQueued && s.launch.LIdle?
    ensures Kept(cfg, s, DoLaunchBegin(s, live))
  {
    hide WellFormed, Exact, Holds, Flat, AllGood, Alternates, Accounts, Chain, Total, Conserved;
    var t := DoLaunchBegin(s, live);
    SameOwners(cfg, s, t);
  }

  lemma LaunchWrittenKeeps(cfg: Config, s: State, back: nat)
    requires Inv(cfg, s) && s.launch.LWrite? && s.active.Some? && back <= s.active.value.held
    ensures Kept(cfg, s, LaunchWritten(cfg, s, back))
  {
    hide WellFormed, Exact, Holds, Flat, AllGood, Alternates, Accounts, Chain, Total, Written, WriteHost;
    var t := LaunchWritten(cfg, s, back);
    WrittenFacts(cfg, s, s.active.value, back);
    forall x: nat ensures OwnedOnce(t, x) { assert OwnedOnce(s, x); }
  }

  lemma LaunchNotWrittenKeeps(cfg: Config, s: State)
    requires Inv(cfg, s) && s.launch.LWrite?
    ensures Kept(cfg, s, LaunchNotWritten(s))
  {
    hide WellFormed, Exact, Holds, Flat, AllGood, Alternates, Accounts, Chain, Total, Conserved;
    var t := LaunchNotWritten(s);
    SameOwners(cfg, s, t);
  }

  lemma LaunchCopyKeeps(cfg: Config, s: State, ok: bool, junk: seq<Elem>)
    requires Inv(cfg, s) && s.launch.LCopy? && s.active.Some? && |junk| == |s.table|
    ensures Kept(cfg, s, DoLaunchCopy(s, ok, junk))
  {
    hide WellFormed, Exact, Holds, Flat, AllGood, Alternates, Accounts, Chain, Total, Conserved;
    var t := DoLaunchCopy(s, ok, junk);
    CopyHolds(cfg, s, s.active.value);
    SameOwners(cfg, s, t);
  }

  lemma LaunchGivenUpKeeps(cfg: Config, s: State, error: bool, clear: bool)
    requires Inv(cfg, s) && s.launch.LCommit?
    ensures Kept(cfg, s, LaunchGivenUp(s, error, clear))
  {
    hide WellFormed, Exact, Holds, Flat, AllGood, Alternates, Accounts, Chain, Total, Conserved;
    var t := LaunchGivenUp(s, error, clear);
    SameOwners(cfg, s, t);
  }

  lemma LaunchRungKeeps(cfg: Config, s: State)
    requires Inv(cfg, s) && s.launch.LCommit? && s.launch.ok && s.vd.Issued? && s.active.Some?
    ensures Kept(cfg, s, LaunchRung(s))
  {
    hide WellFormed, Exact, Holds, Flat, AllGood, Alternates, Accounts, Chain, Total, Conserved;
    var t := LaunchRung(s);
    GoodNonEmpty(cfg, s.active.value);
    TakeAll(s.active.value.bursts);
    assert s.launched == [] && s.launched + [s.active.value] == [s.active.value];
    RingFacts(cfg, s.launched, s.active.value);
    AccountsGrows(s.accounted, s.launched, s.active.value);
    SameOwners(cfg, s, t);
  }

  lemma LaunchCommitKeeps(cfg: Config, s: State, live: bool)
    requires Inv(cfg, s) && s.launch.LCommit?
    ensures Kept(cfg, s, DoLaunchCommit(s, live))
  {
    hide Inv, Kept, LaunchGivenUp, LaunchRung;
    if !s.launch.ok { LaunchGivenUpKeeps(cfg, s, true, false); }
    else if LaunchBlocked(s, live) { LaunchGivenUpKeeps(cfg, s, false, true); }
    else if !s.vd.Issued? || IdOf(s.active) != Some(s.launch.id) { LaunchGivenUpKeeps(cfg, s, true, true); }
    else { LaunchRungKeeps(cfg, s); }
  }

  lemma FetchedEndKeeps(cfg: Config, s: State)
    requires Inv(cfg, s) && !s.overrun && s.engine.Running? && s.engine.irq
    ensures Kept(cfg, s, FetchedEnd(cfg, s))
  {
    hide WellFormed, Exact, Holds, Flat, AllGood, Alternates, Accounts, Chain, Total, Conserved;
    var t := FetchedEnd(cfg, s);
    FlatLast(s);
    TakeAll(Last(s).bursts);
    SameOwners(cfg, s, t);
  }

  lemma FetchedBurstKeeps(cfg: Config, s: State, e: Elem)
    requires Inv(cfg, s)
    requires !s.overrun && s.engine.Running? && s.launched != [] && s.engine.at < |Last(s).bursts|
    requires e == GenLli(Last(s).cb, Last(s).bursts[s.engine.at], |Last(s).bursts| - 1 - s.engine.at)
    ensures Kept(cfg, s, FetchedBurst(cfg, s, e))
  {
    hide WellFormed, Exact, Holds, Flat, AllGood, Alternates, Accounts, Chain, Total, Conserved;
    var t := FetchedBurst(cfg, s, e);
    HoldsAt(cfg, s.table, Last(s), s.engine.at + 1);
    SameOwners(cfg, s, t);
  }

  /** Once an overrun is recorded, nothing depends on what the engine fetches. */
  lemma OverrunFetchKeeps(cfg: Config, s: State, e: Engine, done: bool, executed: seq<Burst>)
    requires Inv(cfg, s) && s.overrun && s.engine.Running? && (e.Running? || e.Stopped?)
    ensures Kept(cfg, s, s.(engine := e, doneBit := done, executed := executed))
  {
    hide WellFormed, Exact, Holds, Flat, AllGood, Alternates, Accounts, Chain, Total, Conserved;
    var t := s.(engine := e, doneBit := done, executed := executed);
    SameOwners(cfg, s, t);
  }

  lemma OverrunEndKeeps(cfg: Config, s: State)
    requires Inv(cfg, s) && s.overrun && s.engine.Running?
    ensures Kept(cfg, s, FetchedEnd(cfg, s))
  {
    hide Inv, Kept;
    OverrunFetchKeeps(cfg, s, Stopped, FetchedEnd(cfg, s).doneBit, s.executed);
  }

  lemma OverrunBurstKeeps(cfg: Config, s: State, e: Elem)
    requires Inv(cfg, s) && s.overrun && s.engine.Running? && e.Lli?
    ensures Kept(cfg, s, FetchedBurst(cfg, s, e))
  {
    hide Inv, Kept;
    var t := FetchedBurst(cfg, s, e);
    OverrunFetchKeeps(cfg, s, t.engine, t.doneBit, t.executed);
  }

  lemma OverrunLinkKeeps(cfg: Config, s: State, e: Elem)
    requires Inv(cfg, s) && s.overrun && s.engine.Running? && e.Llp?
    ensures Kept(cfg, s, FetchedLink(cfg, s, e))
  {
    hide Inv, Kept;
    OverrunFetchKeeps(cfg, s, FetchedLink(cfg, s, e).engine, s.doneBit, s.executed);
  }

  lemma OverrunKeeps(cfg: Config, s: State)
    requires Inv(cfg, s) && s.overrun && s.engine.Running? && s.engine.at < |s.table|
    ensures Kept(cfg, s, DoFetch(cfg, s))
  {
    hide Inv, Kept, FetchedEnd, FetchedBurst, FetchedLink;
    var e := s.table[s.engine.at];
    if e.cb != s.engine.ccs { OverrunEndKeeps(cfg, s); }
    else if e.Lli? { OverrunBurstKeeps(cfg, s, e); }
    else { OverrunLinkKeeps(cfg, s, e); }
  }

  lemma FetchKeeps(cfg: Config, s: State)
    requires Inv(cfg, s) && s.engine.Running? && s.engine.at < |s.table|
    ensures Kept(cfg, s, DoFetch(cfg, s))
  {
    hide Emit, Flat, Bytes, TurnOk, LazyOk, ShadowOk, StopOk, AccountOk, OwnOk, OrderOk, CoverOk, Kept, FetchedEnd,
         FetchedBurst;
    if s.overrun {
      OverrunKeeps(cfg, s);
    } else if s.engine.irq {
      FetchedEndKeeps(cfg, s);
    } else {
      HoldsAt(cfg, s.table, Last(s), s.engine.at);
      FetchedBurstKeeps(cfg, s, s.table[s.engine.at]);
    }
  }

  /** What a Done status, or a stopped engine, tells about the chunk in flight. */
  predicate Ended(cfg: Config, s: State) {
    s.xferStarted && (!s.overrun && s.engine.Running? ==> s.engine.irq && !cfg.stopBeforeDone)
  }

  /** The active chunk of the current descriptor is done. */
  predicate Finished(cfg: Config, s: State) {
    Ended(cfg, s) && s.vd.Issued? && s.active.Some?
  }

  /** And it is to be followed by another one. */
  predicate Continues(cfg: Config, s: State) {
    Finished(cfg, s) && s.lazyMode && s.request.NoRequest?
  }

  /** A state that differs in the Done bit, a raised error and the allocator only. */
  function Touched(s: State, done: bool, err: bool, pool: nat, cleanup: multiset<nat>, held: nat,
                   freed: multiset<nat>): State {
    s.(doneBit := done, hwErr := s.hwErr || err, poolFree := pool, cleanup := cleanup, cleanupHeld := held,
       freed := freed)
  }

  lemma TouchedTurn(cfg: Config, s: State, done: bool, err: bool, pool: nat, cleanup: multiset<nat>, held: nat,
                    freed: multiset<nat>)
    requires TurnOk(cfg, s) && LazyOk(cfg, s)
    ensures var t := Touched(s, done, err, pool, cleanup, held, freed); TurnOk(cfg, t) && LazyOk(cfg, t)
  {
    hide Exact, Holds;
  }

  lemma TouchedShadow(cfg: Config, s: State, done: bool, err: bool, pool: nat, cleanup: multiset<nat>, held: nat,
                      freed: multiset<nat>)
    requires ShadowOk(cfg, s) && StopOk(cfg, s) && AccountOk(s) && OrderOk(cfg, s) && CoverOk(cfg, s)
    ensures var t := Touched(s, done, err, pool, cleanup, held, freed);
            ShadowOk(cfg, t) && StopOk(cfg, t) && AccountOk(t) && OrderOk(cfg, t) && CoverOk(cfg, t)
  {
    hide Exact, Holds, Accounts, Chain, Total;
  }

  lemma TouchedKeeps(cfg: Config, s: State, done: bool, err: bool, pool: nat, cleanup: multiset<nat>, held: nat,
                     freed: multiset<nat>)
    requires Inv(cfg, s) && (done ==> s.doneBit)
    requires var t := Touched(s, done, err, pool, cleanup, held, freed); Conserved(cfg, t)
    ensures Kept(cfg, s, Touched(s, done, err, pool, cleanup, held, freed))
  {
    hide WellFormed, Holds, Flat, AllGood, Alternates, TurnOk, LazyOk, ShadowOk, StopOk, AccountOk, OrderOk, CoverOk,
         Conserved;
    TouchedTurn(cfg, s, done, err, pool, cleanup, held, freed);
    TouchedShadow(cfg, s, done, err, pool, cleanup, held, freed);
  }

  lemma DoneClearedKeeps(cfg: Config, s: State)
    requires Inv(cfg, s)
    ensures Kept(cfg, s, s.(doneBit := false))
  {
    hide WellFormed, EngineOk, TurnOk, LazyOk, ShadowOk, StopOk, AccountOk, OrderOk, CoverOk, ReleaseOk, Conserved,
         Kept;
    SameOwners(cfg, s, s.(doneBit := false));
    TouchedKeeps(cfg, s, false, false, s.poolFree, s.cleanup, s.cleanupHeld, s.freed);
  }

  lemma HwErrorKeeps(cfg: Config, s: State)
    requires Inv(cfg, s)
    ensures Kept(cfg, s, s.(hwErr := true))
  {
    hide WellFormed, EngineOk, TurnOk, LazyOk, ShadowOk, StopOk, AccountOk, OrderOk, CoverOk, ReleaseOk, Conserved,
         Kept;
    SameOwners(cfg, s, s.(hwErr := true));
    TouchedKeeps(cfg, s, s.doneBit, true, s.poolFree, s.cleanup, s.cleanupHeld, s.freed);
  }

  lemma CleanupConserves(cfg: Config, s: State)
    requires Conserved(cfg, s)
    ensures Conserved(cfg, DoCleanup(s))
  {
    var t := DoCleanup(s);
    forall x: nat ensures OwnedOnce(t, x) { assert OwnedOnce(s, x); }
  }

  lemma CleanupKeeps(cfg: Config, s: State)
    requires Inv(cfg, s)
    ensures Kept(cfg, s, DoCleanup(s))
  {
    hide WellFormed, EngineOk, TurnOk, LazyOk, ShadowOk, StopOk, AccountOk, OrderOk, CoverOk, ReleaseOk, Conserved,
         Kept;
    CleanupConserves(cfg, s);
    TouchedKeeps(cfg, s, s.doneBit, false, s.poolFree + s.cleanupHeld, multiset{}, 0, s.freed + s.cleanup);
  }

  lemma LateDoneKeeps(cfg: Config, s: State)
    requires Inv(cfg, s) && Ended(cfg, s) && !s.vd.Issued?
    ensures Kept(cfg, s, s.(xferStarted := false))
  {
    hide WellFormed, Exact, Holds, Flat, AllGood, Alternates, Accounts, Chain, Total, Conserved;
    var t := s.(xferStarted := false);
    SameOwners(cfg, s, t);
  }

  lemma RetireConserves(cfg: Config, s: State)
    requires Conserved(cfg, s) && s.active.Some?
    ensures Conserved(cfg, Retire(Account(s, s.active.value), s.active.value))
  {
    var t := Retire(Account(s, s.active.value), s.active.value);
    forall x: nat ensures OwnedOnce(t, x) { assert OwnedOnce(s, x); }
  }

  lemma RetireKeeps(cfg: Config, s: State)
    requires Inv(cfg, s) && Finished(cfg, s) && !s.lazyMode
    ensures Kept(cfg, s, Retire(Account(s, s.active.value), s.active.value))
  {
    hide WellFormed, Exact, Holds, Flat, AllGood, Alternates, Accounts, Chain, Total, Conserved;
    var t := Retire(Account(s, s.active.value), s.active.value);
    AccountsGrows(s.accounted, s.launched, s.active.value);
    RetireConserves(cfg, s);
  }

  lemma StopRetireConserves(cfg: Config, s: State)
    requires Conserved(cfg, s) && s.active.Some? && s.lazyMode && s.request.StopRequest?
    ensures Conserved(cfg,
                      Retire(Account(s.(lazyMode := false, shadowState := Cancel(s.shadowState)), s.active.value),
                             s.active.value))
  {
    var t := Retire(Account(s.(lazyMode := false, shadowState := Cancel(s.shadowState)), s.active.value),
                    s.active.value);
    forall x: nat ensures OwnedOnce(t, x) { assert OwnedOnce(s, x); }
  }

  lemma StopRetireKeeps(cfg: Config, s: State)
    requires Inv(cfg, s) && Finished(cfg, s) && s.lazyMode && s.request.StopRequest?
    ensures Kept(cfg, s, Retire(Account(s.(lazyMode := false, shadowState := Cancel(s.shadowState)), s.active.value),
                                s.active.value))
  {
    hide WellFormed, Exact, Holds, Flat, AllGood, Alternates, Accounts, Chain, Total, Conserved;
    var t := Retire(Account(s.(lazyMode := false, shadowState := Cancel(s.shadowState)), s.active.value),
                    s.active.value);
    AccountsGrows(s.accounted, s.launched, s.active.value);
    StopRetireConserves(cfg, s);
  }

  lemma HandToWorkerKeeps(cfg: Config, s: State)
    requires Inv(cfg, s) && Continues(cfg, s) && (s.shadowState.Ready? || s.shadowState.Building?)
    ensures Kept(cfg, s, Account(s.(shadowState := IsrPending, shadowQueued := true), s.active.value))
  {
    hide WellFormed, Exact, Holds, Flat, AllGood, Alternates, Accounts, Chain, Total, Conserved;
    var t := Account(s.(shadowState := IsrPending, shadowQueued := true), s.active.value);
    AccountsGrows(s.accounted, s.launched, s.active.value);
    SameOwners(cfg, s, t);
  }

  lemma AbortRetireTurns(cfg: Config, s: State)
    requires Inv(cfg, s) && Continues(cfg, s) && (s.shadowState.IsrPending? || s.shadowState.Cancelled?)
    ensures var t := Retire(Account(s.(lazyMode := false, aborted := true), s.active.value), s.active.value);
            TurnOk(cfg, t) && ShadowOk(cfg, t)
  {
    hide WellFormed, Exact, Holds, Flat, AllGood, Alternates, Accounts, Chain, Total, Conserved;
  }

  lemma AbortRetireKeeps(cfg: Config, s: State)
    requires Inv(cfg, s) && Continues(cfg, s) && (s.shadowState.IsrPending? || s.shadowState.Cancelled?)
    ensures Kept(cfg, s, Retire(Account(s.(lazyMode := false, aborted := true), s.active.value), s.active.value))
  {
    hide WellFormed, Exact, Holds, Flat, AllGood, Alternates, Accounts, Chain, Total;
    var t := Retire(Account(s.(lazyMode := false, aborted := true), s.active.value), s.active.value);
    AccountsGrows(s.accounted, s.launched, s.active.value);
    AbortRetireTurns(cfg, s);
    forall x: nat ensures OwnedOnce(t, x) { assert OwnedOnce(s, x); }
  }

  lemma ExhaustedRetireKeeps(cfg: Config, s: State)
    requires Inv(cfg, s) && Continues(cfg, s) && s.shadowState.Idle? && s.sgRemaining == 0
    ensures Kept(cfg, s, Retire(Account(s, s.active.value), s.active.value))
  {
    hide WellFormed, Exact, Holds, Flat, AllGood, Alternates, Accounts, Chain, Total, Conserved;
    var t := Retire(Account(s, s.active.value), s.active.value);
    AccountsGrows(s.accounted, s.launched, s.active.value);
    RetireConserves(cfg, s);
  }

  lemma HandToRefillKeeps(cfg: Config, s: State)
    requires Inv(cfg, s) && Continues(cfg, s) && s.shadowState.Idle? && s.sgRemaining != 0 && cfg.mode.Lazy?
    ensures Kept(cfg, s, Account(s.(lazyState := Pending, lazyQueued := true), s.active.value))
  {
    hide WellFormed, Exact, Holds, Flat, AllGood, Alternates, Accounts, Chain, Total, Conserved;
    var t := Account(s.(lazyState := Pending, lazyQueued := true), s.active.value);
    AccountsGrows(s.accounted, s.launched, s.active.value);
    SameOwners(cfg, s, t);
  }

  lemma NoBuilderKeeps(cfg: Config, s: State)
    requires Inv(cfg, s) && Continues(cfg, s) && s.shadowState.Idle? && !cfg.mode.Lazy?
    ensures Kept(cfg, s, Account(s.(lazyState := Pending, lazyMode := false, hwErr := true), s.active.value))
  {
    hide WellFormed, Exact, Holds, Flat, AllGood, Alternates, Accounts, Chain, Total, Conserved;
    var t := Account(s.(lazyState := Pending, lazyMode := false, hwErr := true), s.active.value);
    AccountsGrows(s.accounted, s.launched, s.active.value);
    SameOwners(cfg, s, t);
  }

  lemma DeferLazyDoneKeeps(cfg: Config, s: State)
    requires Inv(cfg, s) && Finished(cfg, s) && s.lazyMode
    ensures Kept(cfg, s, DeferLazyDone(cfg, s, s.active.value))
  {
    hide Inv, Kept, Account, Retire, Ended;
    if s.request.StopRequest? { StopRetireKeeps(cfg, s); }
    else if s.shadowState.Ready? || s.shadowState.Building? { HandToWorkerKeeps(cfg, s); }
    else if !s.shadowState.Idle? { AbortRetireKeeps(cfg, s); }
    else if s.sgRemaining == 0 { ExhaustedRetireKeeps(cfg, s); }
    else if cfg.mode.Lazy? { HandToRefillKeeps(cfg, s); }
    else { NoBuilderKeeps(cfg, s); }
  }

  lemma CompleteDoneKeeps(cfg: Config, s: State)
    requires Inv(cfg, s) && Ended(cfg, s)
    ensures Kept(cfg, s, CompleteDone(cfg, s))
  {
    hide EngineOk, TurnOk, LazyOk, ShadowOk, StopOk, AccountOk, OwnOk, OrderOk, CoverOk, Kept, Account, Retire,
         DeferLazyDone;
    if s.vd.Issued? { HasChunk(cfg, s); }
    if !s.vd.Issued? { LateDoneKeeps(cfg, s); }
    else if s.lazyMode { DeferLazyDoneKeeps(cfg, s); }
    else { RetireKeeps(cfg, s); }
  }

  lemma AbortIsrTurns(cfg: Config, s: State)
    requires Inv(cfg, s) && s.launched != []
    ensures TurnOk(cfg, DoAbortIsr(s)) && ShadowOk(cfg, DoAbortIsr(s))
  {
    hide WellFormed, Exact, Holds, Flat, AllGood, Alternates, Accounts, Chain, Total, Conserved;
  }

  lemma AbortIsrKeeps(cfg: Config, s: State)
    requires Inv(cfg, s) && s.launched != []
    ensures Kept(cfg, s, DoAbortIsr(s))
  {
    hide WellFormed, Exact, Holds, Flat, AllGood, Alternates, Accounts, Chain, Total, Conserved;
    var t := DoAbortIsr(s);
    AbortIsrTurns(cfg, s);
    SameOwners(cfg, s, t);
  }

  lemma StopTurns(cfg: Config, s: State)
    requires Inv(cfg, s) && s.vd.Issued? && s.busy && s.request.NoRequest? && s.launch.LIdle? && !s.engine.Stopped?
    ensures TurnOk(cfg, DoStop(s)) && ShadowOk(cfg, DoStop(s))
  {
    hide WellFormed, Exact, Holds, Flat, AllGood, Alternates, Accounts, Chain, Total, Conserved;
  }

  lemma StopKeeps(cfg: Config, s: State)
    requires Inv(cfg, s) && s.vd.Issued? && s.busy && s.request.NoRequest? && s.launch.LIdle? && !s.engine.Stopped?
    ensures Kept(cfg, s, DoStop(s))
  {
    hide WellFormed, Exact, Holds, Flat, AllGood, Alternates, Accounts, Chain, Total, Conserved;
    var t := DoStop(s);
    StopTurns(cfg, s);
    SameOwners(cfg, s, t);
  }
}
