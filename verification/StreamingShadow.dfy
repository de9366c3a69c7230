/** The shadow pre-build worker keeps the protocol invariant. */
module StreamingShadow {
  import opened Basics
  import opened Copy
  import opened DescriptorTable
  import opened Streaming
  import opened StreamingInvariant
  import opened StreamingFacts

  lemma BeginTakeKeeps(cfg: Config, s: State)
    requires Inv(cfg, s) && s.shadowQueued && s.worker.WIdle? && s.shadowState.IsrPending? && IsFilled(s.shadowChunk)
    ensures Kept(cfg, s, TakeBuilt(s.(shadowQueued := false)))
  {
    hide WellFormed, Exact, Holds, Flat, AllGood, Alternates, Accounts, Chain, Total;
    var t := TakeBuilt(s.(shadowQueued := false));
    forall x: nat ensures OwnedOnce(t, x) { assert OwnedOnce(s, x); }
  }

  lemma BeginEmptyKeeps(cfg: Config, s: State)
    requires Inv(cfg, s) && s.shadowQueued && s.worker.WIdle? && s.shadowChunk.None?
    ensures Kept(cfg, s, s.(shadowQueued := false, hwErr := true))
  {
    hide WellFormed, Exact, Holds, Flat, AllGood, Alternates, Accounts, Chain, Total, Conserved;
    var t := s.(shadowQueued := false, hwErr := true);
    SameOwners(cfg, s, t);
  }

  lemma BeginFillKeeps(cfg: Config, s: State)
    requires Inv(cfg, s)
    requires s.shadowQueued && s.worker.WIdle? && s.shadowChunk.Some?
    requires !(s.shadowState.IsrPending? && IsFilled(s.shadowChunk))
    ensures Kept(cfg, s, s.(shadowQueued := false, worker := WFill(s.shadowChunk.value.id)))
  {
    hide WellFormed, Exact, Holds, Flat, AllGood, Alternates, Accounts, Chain, Total, Conserved;
    var t := s.(shadowQueued := false, worker := WFill(s.shadowChunk.value.id));
    if Good(cfg, s.shadowChunk.value) { GoodNonEmpty(cfg, s.shadowChunk.value); }
    SameOwners(cfg, s, t);
  }

  lemma ShadowBeginKeeps(cfg: Config, s: State)
    requires Inv(cfg, s) && s.shadowQueued && s.worker.WIdle?
    ensures Kept(cfg, s, DoShadowBegin(s))
  {
    hide Inv, Kept, TakeBuilt;
    if s.shadowState.IsrPending? && IsFilled(s.shadowChunk) { BeginTakeKeeps(cfg, s); }
    else if s.shadowChunk.None? { BeginEmptyKeeps(cfg, s); }
    else { BeginFillKeeps(cfg, s); }
  }

  lemma FreeShadowChunkConserves(cfg: Config, s: State, sz: nat)
    requires Conserved(cfg, s) && (s.worker.WFill? || s.worker.WPrebuild?) && s.shadowChunk.Some?
    ensures Conserved(cfg, FreeShadowChunk(s).(shadowAllocSz := sz))
  {
    var t := FreeShadowChunk(s).(shadowAllocSz := sz);
    forall x: nat ensures OwnedOnce(t, x) { assert OwnedOnce(s, x); }
  }

  lemma FreeShadowChunkTurns(cfg: Config, s: State, sz: nat)
    requires Inv(cfg, s) && (s.worker.WFill? || s.worker.WPrebuild?) && s.shadowChunk.Some?
    ensures var t := FreeShadowChunk(s).(shadowAllocSz := sz); TurnOk(cfg, t) && ShadowOk(cfg, t)
  {
    hide WellFormed, Exact, Holds, Flat, AllGood, Alternates, Accounts, Chain, Total, Conserved;
  }

  lemma FreeShadowChunkKeeps(cfg: Config, s: State, sz: nat)
    requires Inv(cfg, s) && (s.worker.WFill? || s.worker.WPrebuild?) && s.shadowChunk.Some?
    ensures Kept(cfg, s, FreeShadowChunk(s).(shadowAllocSz := sz))
  {
    hide WellFormed, Exact, Holds, Flat, AllGood, Alternates, Accounts, Chain, Total, EngineOk, Conserved;
    var t := FreeShadowChunk(s).(shadowAllocSz := sz);
    SameEngine(cfg, s, t);
    FreeShadowChunkTurns(cfg, s, sz);
    FreeShadowChunkConserves(cfg, s, sz);
  }

  lemma ShadowFilledConserves(cfg: Config, s: State, hi: nat, bs: seq<Burst>, taken: nat)
    requires Conserved(cfg, s)
    requires s.worker.WFill? && s.shadowChunk.Some? && s.shadowPos < hi <= |cfg.sg| && 1 <= |bs| <= cfg.llMax
    requires taken <= s.poolFree && (s.shadowChunk.value.bursts == [] ==> FilledFrom(cfg, s.shadowPos, hi, bs))
    ensures Conserved(cfg, ShadowFilled(cfg, s, hi, bs, taken))
  {
    var t := ShadowFilled(cfg, s, hi, bs, taken);
    forall x: nat ensures OwnedOnce(t, x) { assert OwnedOnce(s, x); }
  }

  lemma ShadowFilledTurns(cfg: Config, s: State, hi: nat, bs: seq<Burst>, taken: nat)
    requires Inv(cfg, s)
    requires s.worker.WFill? && s.shadowChunk.Some? && s.shadowPos < hi <= |cfg.sg| && 1 <= |bs| <= cfg.llMax
    requires taken <= s.poolFree && (s.shadowChunk.value.bursts == [] ==> FilledFrom(cfg, s.shadowPos, hi, bs))
    ensures TurnOk(cfg, ShadowFilled(cfg, s, hi, bs, taken)) && ShadowOk(cfg, ShadowFilled(cfg, s, hi, bs, taken))
  {
    hide WellFormed, Exact, Holds, Flat, AllGood, Alternates, Accounts, Chain, Total, Conserved;
    if s.shadowChunk.value.bursts == [] { FilledExact(cfg, s.shadowPos, hi, bs); }
  }

  lemma ShadowFilledKeeps(cfg: Config, s: State, hi: nat, bs: seq<Burst>, taken: nat)
    requires Inv(cfg, s)
    requires s.worker.WFill? && s.shadowChunk.Some? && s.shadowPos < hi <= |cfg.sg| && 1 <= |bs| <= cfg.llMax
    requires taken <= s.poolFree && (s.shadowChunk.value.bursts == [] ==> FilledFrom(cfg, s.shadowPos, hi, bs))
    ensures Kept(cfg, s, ShadowFilled(cfg, s, hi, bs, taken))
  {
    hide WellFormed, Exact, Holds, Flat, AllGood, Alternates, Accounts, Chain, Total, EngineOk, Conserved;
    var t := ShadowFilled(cfg, s, hi, bs, taken);
    SameEngine(cfg, s, t);
    if s.shadowChunk.value.bursts == [] { FilledExact(cfg, s.shadowPos, hi, bs); }
    if s.active.Some? { TotalJoin(cfg, s.active.value.hi, s.shadowPos, hi); }
    ShadowFilledTurns(cfg, s, hi, bs, taken);
    ShadowFilledConserves(cfg, s, hi, bs, taken);
  }

  lemma ShadowFillKeeps(cfg: Config, s: State, r: FillResult)
    requires Inv(cfg, s)
    requires s.worker.WFill? && s.shadowChunk.Some? && FillAllowed(cfg, s, s.shadowPos, s.shadowChunk.value.bursts, r)
    ensures Kept(cfg, s, DoShadowFill(cfg, s, r))
  {
    hide Inv, Kept, FilledFrom, FillsFrom, FailsFrom, ShadowFilled, FreeShadowChunk, Counted;
    if r.FillOk? {
      if s.shadowChunk.value.bursts == [] { FreshFill(cfg, s.shadowPos, r.hi, r.bursts); }
      ShadowFilledKeeps(cfg, s, r.hi, r.bursts, r.taken);
    } else {
      FreeShadowChunkKeeps(cfg, s, Counted(cfg, s, r.hi));
    }
  }

  lemma ShadowClearKeeps(cfg: Config, s: State)
    requires Inv(cfg, s) && s.worker.WFreed?
    ensures Kept(cfg, s, DoShadowClear(s))
  {
    hide WellFormed, Exact, Holds, Flat, AllGood, Alternates, Accounts, Chain, Total, Conserved;
    var t := DoShadowClear(s);
    SameOwners(cfg, s, t);
  }

  lemma ShadowWrittenConserves(cfg: Config, s: State, back: nat)
    requires Conserved(cfg, s) && s.worker.WPrebuild? && s.shadowChunk.Some? && back <= s.shadowChunk.value.held
    ensures Conserved(cfg, ShadowWritten(cfg, s, back))
  {
    var t := ShadowWritten(cfg, s, back);
    forall x: nat ensures OwnedOnce(t, x) { assert OwnedOnce(s, x); }
  }

  lemma ShadowWrittenKeeps(cfg: Config, s: State, back: nat)
    requires Inv(cfg, s) && s.worker.WPrebuild? && s.shadowChunk.Some? && back <= s.shadowChunk.value.held
    ensures Kept(cfg, s, ShadowWritten(cfg, s, back))
  {
    hide WellFormed, Exact, Holds, Flat, AllGood, Alternates, Accounts, Chain, Total, Conserved, Written, WriteHost;
    var t := ShadowWritten(cfg, s, back);
    WrittenFacts(cfg, s, s.shadowChunk.value, back);
    ShadowWrittenConserves(cfg, s, back);
  }

  lemma ShadowPrebuildKeeps(cfg: Config, s: State, ok: bool, back: nat)
    requires Inv(cfg, s) && s.worker.WPrebuild? && s.shadowChunk.Some? && back <= s.shadowChunk.value.held
    ensures Kept(cfg, s, DoShadowPrebuild(cfg, s, ok, back))
  {
    hide Inv, Kept, ShadowWritten;
    if ok { ShadowWrittenKeeps(cfg, s, back); } else { FreeShadowChunkKeeps(cfg, s, s.shadowAllocSz); }
  }

  lemma ShadowAllocTurns(cfg: Config, s: State, ok: bool)
    requires Inv(cfg, s) && s.worker.WAlloc?
    ensures TurnOk(cfg, DoShadowAlloc(s, ok)) && ShadowOk(cfg, DoShadowAlloc(s, ok))
  {
    hide WellFormed, Exact, Holds, Flat, AllGood, Alternates, Accounts, Chain, Total, Conserved;
  }

  lemma ShadowAllocKeeps(cfg: Config, s: State, ok: bool)
    requires Inv(cfg, s) && s.worker.WAlloc?
    ensures Kept(cfg, s, DoShadowAlloc(s, ok))
  {
    hide WellFormed, Exact, Holds, Flat, AllGood, Alternates, Accounts, Chain, Total, EngineOk;
    var t := DoShadowAlloc(s, ok);
    SameEngine(cfg, s, t);
    ShadowAllocTurns(cfg, s, ok);
    forall x: nat ensures OwnedOnce(t, x) { assert OwnedOnce(s, x); }
  }

  lemma PublishReadyKeeps(cfg: Config, s: State)
    requires Inv(cfg, s) && s.worker.WPublish? && s.shadowState.Building?
    ensures Kept(cfg, s, s.(shadowState := Ready, shadowNext := s.worker.next, worker := WStopCheck(s.worker.id)))
  {
    hide WellFormed, Exact, Holds, Flat, AllGood, Alternates, Accounts, Chain, Total;
    var t := s.(shadowState := Ready, shadowNext := s.worker.next, worker := WStopCheck(s.worker.id));
    forall x: nat ensures OwnedOnce(t, x) { assert OwnedOnce(s, x); }
  }

  lemma PublishTakeKeeps(cfg: Config, s: State)
    requires Inv(cfg, s) && s.worker.WPublish? && s.shadowState.IsrPending?
    ensures Kept(cfg, s, s.(worker := WPrecopy(s.worker.id, s.worker.next)))
  {
    hide WellFormed, Exact, Holds, Flat, AllGood, Alternates, Accounts, Chain, Total, Conserved;
    var t := s.(worker := WPrecopy(s.worker.id, s.worker.next));
    SameOwners(cfg, s, t);
  }

  lemma PublishAbandonKeeps(cfg: Config, s: State)
    requires Inv(cfg, s) && s.worker.WPublish? && !s.shadowState.Building? && !s.shadowState.IsrPending?
    ensures Kept(cfg, s, Abandon(s, s.worker.next))
  {
    hide WellFormed, Exact, Holds, Flat, AllGood, Alternates, Accounts, Chain, Total, EngineOk;
    var t := Abandon(s, s.worker.next);
    SameEngine(cfg, s, t);
    forall x: nat ensures OwnedOnce(t, x) { assert OwnedOnce(s, x); }
  }

  lemma ShadowPublishKeeps(cfg: Config, s: State)
    requires Inv(cfg, s) && s.worker.WPublish?
    ensures Kept(cfg, s, DoShadowPublish(s))
  {
    hide Inv, Kept, Abandon;
    match s.shadowState
    case Building => PublishReadyKeeps(cfg, s);
    case IsrPending => PublishTakeKeeps(cfg, s);
    case _ => PublishAbandonKeeps(cfg, s);
  }

  lemma ShadowStopCheckKeeps(cfg: Config, s: State)
    requires Inv(cfg, s) && s.worker.WStopCheck?
    ensures Kept(cfg, s, DoShadowStopCheck(s))
  {
    hide WellFormed, Exact, Holds, Flat, AllGood, Alternates, Accounts, Chain, Total, Conserved;
    var t := DoShadowStopCheck(s);
    SameOwners(cfg, s, t);
  }

  lemma ShadowClearDoneKeeps(cfg: Config, s: State)
    requires Inv(cfg, s) && s.worker.WClearDone?
    ensures Kept(cfg, s, s.(doneBit := false, worker := WClearStarted(s.worker.id)))
  {
    hide WellFormed, Exact, Holds, Flat, AllGood, Alternates, Accounts, Chain, Total, Conserved;
    var t := s.(doneBit := false, worker := WClearStarted(s.worker.id));
    SameOwners(cfg, s, t);
  }

  lemma ShadowClearStartedKeeps(cfg: Config, s: State)
    requires Inv(cfg, s) && s.worker.WClearStarted?
    ensures Kept(cfg, s, s.(xferStarted := false, worker := WHandoff(s.worker.id)))
  {
    hide WellFormed, Exact, Holds, Flat, AllGood, Alternates, Accounts, Chain, Total, Conserved;
    var t := s.(xferStarted := false, worker := WHandoff(s.worker.id));
    SameOwners(cfg, s, t);
  }

  lemma HandedOffKeeps(cfg: Config, s: State)
    requires Inv(cfg, s) && s.worker.WHandoff? && StillOurs(s, s.worker.id) && s.shadowState.Ready? && s.active.Some?
    ensures Kept(cfg, s, HandedOff(s))
  {
    hide WellFormed, Exact, Holds, Flat, AllGood, Alternates, Accounts, Chain, Total;
    var t := HandedOff(s);
    AccountsGrows(s.accounted, s.launched, s.active.value);
    forall x: nat ensures OwnedOnce(t, x) { assert OwnedOnce(s, x); }
  }

  lemma NotHandedOffKeeps(cfg: Config, s: State)
    requires Inv(cfg, s) && s.worker.WHandoff? && !(StillOurs(s, s.worker.id) && s.shadowState.Ready? && s.active.Some?)
    ensures Kept(cfg, s, s.(worker := WRecheck(s.worker.id)))
  {
    hide WellFormed, Exact, Holds, Flat, AllGood, Alternates, Accounts, Chain, Total, Conserved;
    var t := s.(worker := WRecheck(s.worker.id));
    SameOwners(cfg, s, t);
  }

  lemma ShadowHandoffKeeps(cfg: Config, s: State)
    requires Inv(cfg, s) && s.worker.WHandoff?
    ensures Kept(cfg, s, DoShadowHandoff(s))
  {
    hide Inv, Kept, HandedOff;
    if StillOurs(s, s.worker.id) && s.shadowState.Ready? && s.active.Some? { HandedOffKeeps(cfg, s); }
      else { NotHandedOffKeeps(cfg, s); }
  }

  lemma RecheckTakeKeeps(cfg: Config, s: State)
    requires Inv(cfg, s) && s.worker.WRecheck? && StillOurs(s, s.worker.id) && s.shadowState.IsrPending?
    ensures Kept(cfg, s, TakeBuilt(s))
  {
    hide WellFormed, Exact, Holds, Flat, AllGood, Alternates, Accounts, Chain, Total;
    var t := TakeBuilt(s);
    forall x: nat ensures OwnedOnce(t, x) { assert OwnedOnce(s, x); }
  }

  lemma RecheckEndKeeps(cfg: Config, s: State)
    requires Inv(cfg, s) && s.worker.WRecheck? && !(StillOurs(s, s.worker.id) && s.shadowState.IsrPending?)
    ensures Kept(cfg, s, s.(worker := WIdle))
  {
    hide WellFormed, Exact, Holds, Flat, AllGood, Alternates, Accounts, Chain, Total, Conserved;
    var t := s.(worker := WIdle);
    SameOwners(cfg, s, t);
  }

  lemma ShadowRecheckKeeps(cfg: Config, s: State)
    requires Inv(cfg, s) && s.worker.WRecheck?
    ensures Kept(cfg, s, DoShadowRecheck(s))
  {
    hide Inv, Kept, TakeBuilt;
    if StillOurs(s, s.worker.id) && s.shadowState.IsrPending? { RecheckTakeKeeps(cfg, s); }
      else { RecheckEndKeeps(cfg, s); }
  }

  lemma PrecopiedKeeps(cfg: Config, s: State)
    requires Inv(cfg, s) && s.worker.WPrecopy? && s.shadowChunk.Some?
    ensures Copied(cfg, s, Precopied(s))
  {
    hide WellFormed, Exact, Holds, Flat, AllGood, Alternates, Accounts, Chain, Total, EngineExact, Conserved;
    var t := Precopied(s);
    CopyHolds(cfg, s, s.shadowChunk.value);
    OverwrittenEngine(cfg, s, t);
    SameOwners(cfg, s, t);
  }

  lemma PrecopyFailedConserves(cfg: Config, s: State, ecanceled: bool, junk: seq<Elem>)
    requires Conserved(cfg, s) && s.worker.WPrecopy? && s.shadowChunk.Some? && |junk| == |s.table|
    ensures Conserved(cfg, PrecopyFailed(s, ecanceled, junk))
  {
    var t := PrecopyFailed(s, ecanceled, junk);
    forall x: nat ensures OwnedOnce(t, x) { assert OwnedOnce(s, x); }
  }

  lemma PrecopyFailedTurns(cfg: Config, s: State, ecanceled: bool, junk: seq<Elem>)
    requires Inv(cfg, s) && s.worker.WPrecopy? && s.shadowChunk.Some? && |junk| == |s.table|
    ensures TurnOk(cfg, PrecopyFailed(s, ecanceled, junk)) && ShadowOk(cfg, PrecopyFailed(s, ecanceled, junk))
  {
    hide WellFormed, Exact, Holds, Flat, AllGood, Alternates, Accounts, Chain, Total, Conserved;
  }

  lemma PrecopyFailedRest(cfg: Config, s: State, ecanceled: bool, junk: seq<Elem>)
    requires Inv(cfg, s) && s.worker.WPrecopy? && s.shadowChunk.Some? && |junk| == |s.table|
    ensures var t := PrecopyFailed(s, ecanceled, junk);
            LazyOk(cfg, t) && StopOk(cfg, t) && AccountOk(t) && OrderOk(cfg, t) && CoverOk(cfg, t) && ReleaseOk(t)
  {
    hide WellFormed, Exact, Holds, Flat, AllGood, Alternates, Accounts, Chain, Total, EngineOk, Overruns, Conserved;
  }

  /** A copy is made with no chunk in flight. */
  lemma CopyTurn(cfg: Config, s: State)
    requires TurnOk(cfg, s) && s.worker.WPrecopy?
    ensures cfg.mode.Shadow? && !s.xferStarted
  {
  }

  lemma PrecopyFailedKeeps(cfg: Config, s: State, ecanceled: bool, junk: seq<Elem>)
    requires Inv(cfg, s) && s.worker.WPrecopy? && s.shadowChunk.Some? && |junk| == |s.table|
    ensures Copied(cfg, s, PrecopyFailed(s, ecanceled, junk))
  {
    hide WellFormed, EngineOk, TurnOk, LazyOk, ShadowOk, StopOk, AccountOk, OrderOk, CoverOk, ReleaseOk, Conserved,
         Overruns, Rewritten;
    var t := PrecopyFailed(s, ecanceled, junk);
    CopyTurn(cfg, s);
    OverwrittenEngine(cfg, s, t);
    PrecopyFailedTurns(cfg, s, ecanceled, junk);
    PrecopyFailedRest(cfg, s, ecanceled, junk);
    PrecopyFailedConserves(cfg, s, ecanceled, junk);
  }

  lemma ShadowPrecopyKeeps(cfg: Config, s: State, ok: bool, ecanceled: bool, junk: seq<Elem>)
    requires Inv(cfg, s) && s.worker.WPrecopy? && s.shadowChunk.Some? && |junk| == |s.table|
    ensures Copied(cfg, s, DoShadowPrecopy(s, ok, ecanceled, junk))
  {
    hide Inv, Copied, PrecopyFailed, Precopied;
    if ok { PrecopiedKeeps(cfg, s); } else { PrecopyFailedKeeps(cfg, s, ecanceled, junk); }
  }

  lemma ShadowDropKeeps(cfg: Config, s: State)
    requires Inv(cfg, s) && s.worker.WDrop?
    ensures Kept(cfg, s, DoShadowDrop(s))
  {
    hide WellFormed, Exact, Holds, Flat, AllGood, Alternates, Accounts, Chain, Total, Conserved;
    var t := DoShadowDrop(s);
    SameOwners(cfg, s, t);
  }

  lemma LaunchAbandonKeeps(cfg: Config, s: State)
    requires Inv(cfg, s) && s.worker.WLaunch? && s.shadowChunk.Some? && CancelSeen(s)
    ensures Kept(cfg, s, Abandon(s, s.worker.next))
  {
    hide WellFormed, Exact, Holds, Flat, AllGood, Alternates, Accounts, Chain, Total, EngineOk;
    var t := Abandon(s, s.worker.next);
    SameEngine(cfg, s, t);
    forall x: nat ensures OwnedOnce(t, x) { assert OwnedOnce(s, x); }
  }

  lemma LaunchRefusedKeeps(cfg: Config, s: State)
    requires Inv(cfg, s) && s.worker.WLaunch? && s.shadowChunk.Some? && !CancelSeen(s)
    ensures Kept(cfg, s, LaunchRefused(s))
  {
    hide WellFormed, Exact, Holds, Flat, AllGood, Alternates, Accounts, Chain, Total, EngineOk;
    var t := LaunchRefused(s);
    SameEngine(cfg, s, t);
    forall x: nat ensures OwnedOnce(t, x) { assert OwnedOnce(s, x); }
  }

  lemma LaunchedLastConserves(cfg: Config, s: State)
    requires Conserved(cfg, s) && s.worker.WLaunch? && s.shadowChunk.Some? && !CancelSeen(s) && !s.hasMore
    ensures Conserved(cfg, LaunchedLast(s))
  {
    var t := LaunchedLast(s);
    forall x: nat ensures OwnedOnce(t, x) { assert OwnedOnce(s, x); }
  }

  lemma LaunchedLastTurns(cfg: Config, s: State)
    requires Inv(cfg, s) && s.worker.WLaunch? && s.shadowChunk.Some? && !CancelSeen(s) && !s.hasMore
    ensures TurnOk(cfg, LaunchedLast(s)) && ShadowOk(cfg, LaunchedLast(s))
  {
    hide WellFormed, Exact, Holds, Flat, AllGood, Alternates, Accounts, Chain, Total, Conserved;
    RingFacts(cfg, s.launched, s.shadowChunk.value);
  }

  lemma LaunchedLastKeeps(cfg: Config, s: State)
    requires Inv(cfg, s) && s.worker.WLaunch? && s.shadowChunk.Some? && !CancelSeen(s) && !s.hasMore
    ensures Kept(cfg, s, LaunchedLast(s))
  {
    hide WellFormed, Exact, Holds, Flat, AllGood, Alternates, Accounts, Chain, Total, Conserved;
    var t := LaunchedLast(s);
    RingFacts(cfg, s.launched, s.shadowChunk.value);
    if !s.overrun { AllExecuted(cfg, s); }
    AccountsGrows(s.accounted, s.launched, s.shadowChunk.value);
    if s.active.Some? { TotalJoin(cfg, 0, s.active.value.hi, s.shadowPos); }
    LaunchedLastTurns(cfg, s);
    LaunchedLastConserves(cfg, s);
  }

  lemma LaunchedOneConserves(cfg: Config, s: State)
    requires Conserved(cfg, s) && s.worker.WLaunch? && s.shadowChunk.Some? && !CancelSeen(s) && s.hasMore
    requires s.shadowNext.None?
    ensures Conserved(cfg, LaunchedOne(s))
  {
    var t := LaunchedOne(s);
    forall x: nat ensures OwnedOnce(t, x) { assert OwnedOnce(s, x); }
  }

  lemma LaunchedOneTurns(cfg: Config, s: State)
    requires Inv(cfg, s) && s.worker.WLaunch? && s.shadowChunk.Some? && !CancelSeen(s) && s.hasMore
    ensures TurnOk(cfg, LaunchedOne(s)) && ShadowOk(cfg, LaunchedOne(s))
  {
    hide WellFormed, Exact, Holds, Flat, AllGood, Alternates, Accounts, Chain, Total, Conserved;
    RingFacts(cfg, s.launched, s.shadowChunk.value);
  }

  lemma LaunchedOneKeeps(cfg: Config, s: State)
    requires Inv(cfg, s) && s.worker.WLaunch? && s.shadowChunk.Some? && !CancelSeen(s) && s.hasMore
    ensures Kept(cfg, s, LaunchedOne(s))
  {
    hide WellFormed, Exact, Holds, Flat, AllGood, Alternates, Accounts, Chain, Total, Conserved;
    var t := LaunchedOne(s);
    RingFacts(cfg, s.launched, s.shadowChunk.value);
    if !s.overrun { AllExecuted(cfg, s); }
    AccountsGrows(s.accounted, s.launched, s.shadowChunk.value);
    if s.active.Some? { TotalJoin(cfg, 0, s.active.value.hi, s.shadowPos); }
    LaunchedOneTurns(cfg, s);
    LaunchedOneConserves(cfg, s);
  }

  lemma ShadowLaunchKeeps(cfg: Config, s: State, live: bool)
    requires Inv(cfg, s) && s.worker.WLaunch? && s.shadowChunk.Some?
    ensures Kept(cfg, s, DoShadowLaunch(s, live))
  {
    hide Inv, Kept, Abandon, LaunchRefused, LaunchedLast, LaunchedOne;
    if CancelSeen(s) { LaunchAbandonKeeps(cfg, s); }
    else if !live { LaunchRefusedKeeps(cfg, s); }
    else if s.hasMore { LaunchedOneKeeps(cfg, s); }
    else { LaunchedLastKeeps(cfg, s); }
  }

  lemma ShadowRequeueKeeps(cfg: Config, s: State)
    requires Inv(cfg, s) && s.worker.WRequeue?
    ensures Kept(cfg, s, s.(shadowQueued := true, worker := WIdle))
  {
    hide WellFormed, Exact, Holds, Flat, AllGood, Alternates, Accounts, Chain, Total, Conserved;
    var t := s.(shadowQueued := true, worker := WIdle);
    SameOwners(cfg, s, t);
  }

  lemma ShadowAlarmKeeps(cfg: Config, s: State)
    requires Inv(cfg, s) && s.worker.WAlarm?
    ensures Kept(cfg, s, s.(aborted := true, lazyMode := false, worker := WIdle))
  {
    hide WellFormed, Exact, Holds, Flat, AllGood, Alternates, Accounts, Chain, Total, Conserved;
    var t := s.(aborted := true, lazyMode := false, worker := WIdle);
    SameOwners(cfg, s, t);
  }
}
