/** When the protocol launches, completes and raises errors, step by step over every run. */
module StreamingDecisions {
  import opened Basics
  import opened Copy
  import opened DescriptorTable
  import opened Streaming
  import opened StreamingInvariant
  import opened StreamingFacts
  import opened StreamingSafety
  import opened StreamingTheorems

  // ---- what a step may do ----

  /**
   The doorbell may be rung: no abort and no stop request, and for the first chunk and for a refill no error either;
   where the device can go away the action says that it is live.
   */
  predicate MayLaunch(s: State, a: Action) {
    && s.request.NoRequest? && !s.aborted
    && match a
       case ByLaunch(LaunchCommit(live)) =>
         && live && !s.hwErr && s.busy && s.vd.Issued?
         && s.launch.LCommit? && s.launch.ok && IdOf(s.active) == Some(s.launch.id)
       case ByHand(ShadowLaunch(live)) => live && !s.shadowState.Cancelled?
       case ByRefill(LazyCommit) =>
         !s.hwErr && s.lazyMode && s.vd.Issued? && s.lazyState.Preparing? && s.refill.ZCommit? && s.refill.ok
       case _ => false
  }

  /** A noticed completion of the current chunk finds nothing that should follow it. */
  predicate NothingFollows(s: State) {
    || s.active.None? || !s.lazyMode || s.request.StopRequest? || s.shadowState.IsrPending? || s.shadowState.Cancelled?
    || (s.shadowState.Idle? && s.sgRemaining == 0)
  }

  /** The cookie may be completed: by the last Done, or by the first one after a stop request; or by an abort. */
  predicate MayComplete(s: State, a: Action) {
    match a
    case ByEngine(DoneIsr) => s.xferStarted && NothingFollows(s)
    case ByEngine(DoneReplay) => NothingFollows(s)
    case ByEngine(AbortIsr) => true
    case ByRefill(LazyClaim) =>
      s.request.StopRequest? && s.lazyState.Pending? && s.refill == ZClaim(true) && s.active.Some? && s.lazyMode
    case ByRefill(LazyCommit) => s.request.StopRequest? && s.lazyState.Preparing? && s.refill.ZCommit? && s.refill.ok
    case _ => false
  }

  /** A Done for which the descriptor has entries left and no worker to supply them. */
  predicate Abandoned(cfg: Config, s: State) {
    && s.vd.Issued? && s.active.Some? && s.lazyMode && s.request.NoRequest?
    && s.shadowState.Idle? && s.sgRemaining > 0 && !cfg.mode.Lazy?
  }

  /** An error may be raised. */
  predicate MayFail(cfg: Config, s: State, a: Action) {
    match a
    case ByLaunch(LaunchWrite(ok, _)) => !ok
    case ByLaunch(LaunchCommit(live)) =>
      s.launch.LCommit? &&
      (!s.launch.ok
       || (live && !s.aborted && !s.hwErr && s.request.NoRequest? && s.busy
           && (!s.vd.Issued? || IdOf(s.active) != Some(s.launch.id))))
    case ByEngine(DoneIsr) => s.xferStarted && Abandoned(cfg, s)
    case ByEngine(DoneReplay) => Abandoned(cfg, s)
    case ByEngine(HwError) => true
    case ByBuild(ShadowBegin) => s.shadowChunk.None?
    case ByBuild(ShadowClear) => !s.shadowState.Cancelled? && !s.aborted && s.request.NoRequest?
    case ByHand(ShadowDrop) => s.worker.WDrop? && !s.worker.cancelled
    case ByHand(ShadowLaunch(live)) => !live && s.request.NoRequest? && !s.aborted && !s.shadowState.Cancelled?
    case ByRefill(LazyClaim) =>
      && s.lazyState.Pending? && s.vd.Issued?
      && (s.refill != ZClaim(true) || s.active.None? || !s.lazyMode || (s.request.NoRequest? && s.sgRemaining == 0))
    case ByRefill(LazyWrite(ok, _)) => !ok
    case ByRefill(LazyCommit) => s.vd.Issued? && s.lazyState.Preparing? && s.refill.ZCommit? && !s.refill.ok
    case _ => false
  }

  /**
   An abort may be recorded: by the interrupt, by a Done that comes at the wrong time, or for want of a next chunk.
   */
  predicate MayAbort(s: State, a: Action) {
    var wrong := s.vd.Issued? && s.active.Some? && s.lazyMode && s.request.NoRequest?
                 && (s.shadowState.IsrPending? || s.shadowState.Cancelled?);
    match a
    case ByEngine(AbortIsr) => true
    case ByEngine(DoneIsr) => s.xferStarted && wrong
    case ByEngine(DoneReplay) => wrong
    case ByHand(ShadowAlarm) => true
    case _ => false
  }

  function NextVd(s: State, a: Action): Descriptor {
    if a == ByLaunch(Issue) then Issued else if s.vd.Issued? && MayComplete(s, a) then Completed else s.vd
  }

  /** A pass of the shadow worker may be queued: by the first doorbell, by a Done, or for the next build. */
  predicate MayQueue(s: State, a: Action) {
    match a
    case ByLaunch(LaunchCommit(_)) => s.lazyMode && s.shadowState.Building?
    case ByEngine(DoneIsr) => s.xferStarted && s.lazyMode && (s.shadowState.Ready? || s.shadowState.Building?)
    case ByEngine(DoneReplay) => s.lazyMode && (s.shadowState.Ready? || s.shadowState.Building?)
    case ByHand(ShadowRequeue) => true
    case _ => false
  }

  /** A worker at rest stays so, with the shadow chunk it will find. */
  predicate Rests(s: State, t: State) {
    s.worker.WIdle? ==> t.worker.WIdle? && (s.shadowChunk.Some? && t.shadowQueued ==> t.shadowChunk.Some?)
  }

  /** A chunk reaches the doorbell of the shadow worker, whether the device is live or not. */
  predicate AtDoorbell(s: State, a: Action) {
    a.ByHand? && a.hand.ShadowLaunch? && s.request.NoRequest? && !s.aborted && !s.shadowState.Cancelled?
  }

  /** The channel becomes busy when the descriptor is issued or a further chunk launched, idle when it completes. */
  function NextBusy(s: State, a: Action): bool {
    if a == ByLaunch(Issue) then true
    else if a == ByEngine(AbortIsr) || (s.vd.Issued? && MayComplete(s, a)) then false
    else s.busy || AtDoorbell(s, a) || (a.ByRefill? && MayLaunch(s, a))
  }

  /** A stop request is kept until the cookie completes. */
  function NextRequest(s: State, a: Action): Request {
    if a == ByLaunch(Stop) then StopRequest
    else if a == ByEngine(AbortIsr) || (s.vd.Issued? && MayComplete(s, a)) then NoRequest
    else s.request
  }

  /** A worker, or a Done that finds none, gives up the rest of the list together with the error. */
  predicate GivesUp(cfg: Config, s: State, a: Action) {
    && MayFail(cfg, s, a)
    && (a.ByHand? || a == ByBuild(ShadowClear) || a == ByEngine(DoneIsr) || a == ByEngine(DoneReplay)
        || a == ByRefill(LazyClaim) || a == ByRefill(LazyCommit))
  }

  /** What step `a` from `s` to `t` does to the status of channel and descriptor. */
  predicate Updated(cfg: Config, s: State, a: Action, t: State) {
    && t.busy == NextBusy(s, a) && t.request == NextRequest(s, a)
    && (t.lazyMode ==> s.lazyMode && !GivesUp(cfg, s, a))
    && (a.ByBuild? && a.build.ShadowAlloc? ==> t.worker.WPublish? && (t.worker.next.Some? <==> s.hasMore && a.build.ok))
  }

  /** What step `a` from `s` to `t` decides. */
  predicate Decided(cfg: Config, s: State, a: Action, t: State) {
    && (if MayLaunch(s, a) then |t.launched| == |s.launched| + 1 else t.launched == s.launched)
    && t.vd == NextVd(s, a)
    && t.hwErr == (s.hwErr || MayFail(cfg, s, a))
    && t.aborted == (s.aborted || MayAbort(s, a))
    && (t.shadowQueued ==> s.shadowQueued || MayQueue(s, a))
    && (a != ByBuild(ShadowBegin) ==> Rests(s, t))
    && Updated(cfg, s, a, t)
  }

  // ---- each step does ----

  /** Nothing is decided except, perhaps, an error. */
  predicate Same(s: State, t: State, err: bool) {
    && t.launched == s.launched && t.vd == s.vd && t.hwErr == err && t.aborted == s.aborted
    && t.busy == s.busy && t.request == s.request && (t.lazyMode ==> s.lazyMode)
    && (t.shadowQueued ==> s.shadowQueued) && Rests(s, t)
  }

  /** One launch, and nothing else. */
  predicate One(s: State, t: State) {
    && |t.launched| == |s.launched| + 1 && t.vd == s.vd && t.hwErr == s.hwErr && t.aborted == s.aborted
    && t.busy && t.request == s.request && (t.lazyMode ==> s.lazyMode)
    && (t.shadowQueued ==> s.shadowQueued) && Rests(s, t)
  }

  /** A completion, and nothing else. */
  predicate Completes(s: State, t: State, aborted: bool) {
    && t.launched == s.launched && t.vd.Completed? && t.hwErr == s.hwErr && t.aborted == aborted
    && !t.busy && t.request.NoRequest? && (t.lazyMode ==> s.lazyMode)
    && (t.shadowQueued ==> s.shadowQueued) && Rests(s, t)
  }

  lemma GivenUpSame(s: State, error: bool, clear: bool)
    ensures Same(s, LaunchGivenUp(s, error, clear), s.hwErr || error)
  {
  }

  lemma RungOne(s: State)
    requires s.active.Some?
    ensures var t := LaunchRung(s);
            && |t.launched| == |s.launched| + 1 && t.vd == s.vd && t.hwErr == s.hwErr && t.aborted == s.aborted
            && t.busy == s.busy && t.request == s.request && t.lazyMode == s.lazyMode && Rests(s, t)
            && (t.shadowQueued ==> s.shadowQueued || (s.lazyMode && s.shadowState.Building?))
  {
  }

  /** Nothing changed but, perhaps, the error: that decides a launch that is given up. */
  lemma GivenUpDecides(cfg: Config, s: State, live: bool, t: State)
    requires s.launch.LCommit? && !MayLaunch(s, ByLaunch(LaunchCommit(live)))
    requires Same(s, t, s.hwErr || MayFail(cfg, s, ByLaunch(LaunchCommit(live))))
    ensures Decided(cfg, s, ByLaunch(LaunchCommit(live)), t)
  {
  }

  lemma RungDecides(cfg: Config, s: State, live: bool)
    requires s.active.Some? && MayLaunch(s, ByLaunch(LaunchCommit(live)))
    ensures Decided(cfg, s, ByLaunch(LaunchCommit(live)), LaunchRung(s))
  {
    hide LaunchRung;
    RungOne(s);
  }

  lemma CommitDecides(cfg: Config, s: State, live: bool)
    requires s.launch.LCommit?
    ensures Decided(cfg, s, ByLaunch(LaunchCommit(live)), DoLaunchCommit(s, live))
  {
    hide LaunchGivenUp, LaunchRung, Decided, Same;
    if !s.launch.ok {
      GivenUpSame(s, true, false);
      GivenUpDecides(cfg, s, live, LaunchGivenUp(s, true, false));
    } else if LaunchBlocked(s, live) {
      GivenUpSame(s, false, true);
      GivenUpDecides(cfg, s, live, LaunchGivenUp(s, false, true));
    } else if !s.vd.Issued? || IdOf(s.active) != Some(s.launch.id) {
      GivenUpSame(s, true, true);
      GivenUpDecides(cfg, s, live, LaunchGivenUp(s, true, true));
    } else {
      RungDecides(cfg, s, live);
    }
  }

  lemma WriteDecides(cfg: Config, s: State, ok: bool, back: nat)
    requires s.launch.LWrite? && s.active.Some? && back <= s.active.value.held
    ensures Decided(cfg, s, ByLaunch(LaunchWrite(ok, back)), DoLaunchWrite(cfg, s, ok, back))
  {
    hide Written, WriteHost;
  }

  lemma LaunchDecides(cfg: Config, s: State, a: LaunchAction)
    requires LaunchEnabled(cfg, s, a)
    ensures Decided(cfg, s, ByLaunch(a), LaunchStep(cfg, s, a))
  {
    hide CopyTable, DoLaunchWrite, DoLaunchCommit;
    match a
    case LaunchWrite(ok, back) => WriteDecides(cfg, s, ok, back);
    case LaunchCommit(live) => CommitDecides(cfg, s, live);
    case _ =>
  }

  lemma EndSame(cfg: Config, s: State)
    requires s.engine.Running?
    ensures Same(s, FetchedEnd(cfg, s), s.hwErr)
  {
  }

  lemma BurstSame(cfg: Config, s: State, e: Elem)
    requires s.engine.Running? && e.Lli?
    ensures Same(s, FetchedBurst(cfg, s, e), s.hwErr)
  {
  }

  lemma LinkSame(cfg: Config, s: State, e: Elem)
    requires s.engine.Running? && e.Llp?
    ensures Same(s, FetchedLink(cfg, s, e), s.hwErr)
  {
  }

  lemma FetchSame(cfg: Config, s: State)
    requires s.engine.Running? && s.engine.at < |s.table|
    ensures Same(s, DoFetch(cfg, s), s.hwErr)
  {
    hide FetchedEnd, FetchedBurst, FetchedLink, Same;
    var e := s.table[s.engine.at];
    EndSame(cfg, s);
    if e.Lli? { BurstSame(cfg, s, e); } else { LinkSame(cfg, s, e); }
  }

  lemma RetireCompletes(s: State, c: Chunk)
    ensures Completes(s, Retire(Account(s, c), c), s.aborted)
  {
  }

  lemma FinishCompletes(s: State)
    ensures Completes(s, Finish(s), s.aborted)
  {
  }

  lemma AccountSame(s: State, c: Chunk)
    ensures Same(s, Account(s, c), s.hwErr)
  {
  }

  lemma DeferDecides(cfg: Config, s: State, c: Chunk)
    requires s.vd.Issued? && s.active == Some(c) && s.lazyMode
    ensures var t := DeferLazyDone(cfg, s, c);
            && t.launched == s.launched && t.vd == (if NothingFollows(s) then Completed else s.vd)
            && t.hwErr == (s.hwErr || Abandoned(cfg, s))
            && t.aborted == (s.aborted
                             || (s.request.NoRequest? && (s.shadowState.IsrPending? || s.shadowState.Cancelled?)))
            && (t.shadowQueued ==> s.shadowQueued || s.shadowState.Ready? || s.shadowState.Building?) && Rests(s, t)
  {
    hide Retire, Account;
    RetireCompletes(s.(lazyMode := false, shadowState := Cancel(s.shadowState)), c);
    AccountSame(s.(shadowState := IsrPending, shadowQueued := true), c);
    RetireCompletes(s.(lazyMode := false, aborted := true), c);
    RetireCompletes(s, c);
    AccountSame(s.(lazyState := Pending, lazyQueued := true), c);
    AccountSame(s.(lazyState := Pending, lazyMode := false, hwErr := true), c);
  }

  lemma DeferUpdates(cfg: Config, s: State, c: Chunk)
    requires s.vd.Issued? && s.active == Some(c) && s.lazyMode
    ensures var t := DeferLazyDone(cfg, s, c);
            && t.busy == (s.busy && !NothingFollows(s))
            && t.request == (if NothingFollows(s) then NoRequest else s.request)
            && (t.lazyMode ==> !Abandoned(cfg, s))
  {
    hide Retire, Account;
    RetireCompletes(s.(lazyMode := false, shadowState := Cancel(s.shadowState)), c);
    AccountSame(s.(shadowState := IsrPending, shadowQueued := true), c);
    RetireCompletes(s.(lazyMode := false, aborted := true), c);
    RetireCompletes(s, c);
    AccountSame(s.(lazyState := Pending, lazyQueued := true), c);
    AccountSame(s.(lazyState := Pending, lazyMode := false, hwErr := true), c);
  }

  /** What a completed chunk decides, by interrupt or replay. */
  predicate DoneDecided(cfg: Config, s: State, t: State) {
    Decided(cfg, s, ByEngine(DoneReplay), t) && (s.xferStarted ==> Decided(cfg, s, ByEngine(DoneIsr), t))
  }

  lemma DoneEarly(cfg: Config, s: State)
    requires !s.vd.Issued?
    ensures DoneDecided(cfg, s, CompleteDone(cfg, s.(doneBit := false)))
  {
  }

  lemma DoneEmpty(cfg: Config, s: State)
    requires s.vd.Issued? && s.active.None?
    ensures DoneDecided(cfg, s, CompleteDone(cfg, s.(doneBit := false)))
  {
    hide Finish, DeferLazyDone, Retire, Account, DoneDecided;
    var t := s.(doneBit := false, xferStarted := false);
    FinishCompletes(t);
    CompletedEmpty(cfg, s, Finish(t));
  }

  lemma CompletedEmpty(cfg: Config, s: State, t: State)
    requires s.vd.Issued? && s.active.None? && Completes(s, t, s.aborted)
    ensures DoneDecided(cfg, s, t)
  {
  }

  lemma DoneLazy(cfg: Config, s: State)
    requires s.vd.Issued? && s.active.Some? && s.lazyMode
    ensures DoneDecided(cfg, s, CompleteDone(cfg, s.(doneBit := false)))
  {
    hide DeferLazyDone;
    DeferDecides(cfg, s.(doneBit := false), s.active.value);
    DeferUpdates(cfg, s.(doneBit := false), s.active.value);
  }

  lemma DoneLast(cfg: Config, s: State)
    requires s.vd.Issued? && s.active.Some? && !s.lazyMode
    ensures DoneDecided(cfg, s, CompleteDone(cfg, s.(doneBit := false)))
  {
    hide Retire, Account;
    RetireCompletes(s.(doneBit := false), s.active.value);
  }

  lemma DoneDecides(cfg: Config, s: State)
    ensures DoneDecided(cfg, s, CompleteDone(cfg, s.(doneBit := false)))
  {
    hide CompleteDone, DoneDecided;
    if !s.vd.Issued? { DoneEarly(cfg, s); }
    else if s.active.None? { DoneEmpty(cfg, s); }
    else if s.lazyMode { DoneLazy(cfg, s); }
    else { DoneLast(cfg, s); }
  }

  lemma AbortDecides(cfg: Config, s: State)
    ensures Decided(cfg, s, ByEngine(AbortIsr), DoAbortIsr(s))
  {
  }

  lemma FetchDecides(cfg: Config, s: State)
    requires s.engine.Running? && s.engine.at < |s.table|
    ensures Decided(cfg, s, ByEngine(Fetch), DoFetch(cfg, s))
  {
    hide DoFetch;
    FetchSame(cfg, s);
  }

  lemma DoneIsrDecides(cfg: Config, s: State)
    ensures Decided(cfg, s, ByEngine(DoneIsr), DoDoneIsr(cfg, s))
  {
    hide CompleteDone, Decided;
    if s.xferStarted { DoneDecides(cfg, s); } else { DoneIgnored(cfg, s); }
  }

  lemma DoneIgnored(cfg: Config, s: State)
    requires !s.xferStarted
    ensures Decided(cfg, s, ByEngine(DoneIsr), s.(doneBit := false))
  {
  }

  lemma ErrorDecides(cfg: Config, s: State)
    ensures Decided(cfg, s, ByEngine(HwError), s.(hwErr := true))
  {
  }

  lemma EngineDecides(cfg: Config, s: State, a: EngineAction)
    requires EngineEnabled(cfg, s, a)
    ensures Decided(cfg, s, ByEngine(a), EngineStep(cfg, s, a))
  {
    hide CompleteDone, DoFetch, DoAbortIsr, DoDoneIsr, Decided;
    match a
    case Fetch => FetchDecides(cfg, s);
    case AbortIsr => AbortDecides(cfg, s);
    case HwError => ErrorDecides(cfg, s);
    case DoneIsr => DoneIsrDecides(cfg, s);
    case DoneReplay => DoneDecides(cfg, s);
  }

  lemma BeginTakesDecides(cfg: Config, s: State)
    requires s.shadowState.IsrPending? && IsFilled(s.shadowChunk)
    ensures Decided(cfg, s, ByBuild(ShadowBegin), DoShadowBegin(s))
  {
  }

  lemma BeginNoneDecides(cfg: Config, s: State)
    requires s.shadowChunk.None?
    ensures Decided(cfg, s, ByBuild(ShadowBegin), DoShadowBegin(s))
  {
  }

  lemma BeginFillsDecides(cfg: Config, s: State)
    requires !(s.shadowState.IsrPending? && IsFilled(s.shadowChunk)) && s.shadowChunk.Some?
    ensures Decided(cfg, s, ByBuild(ShadowBegin), DoShadowBegin(s))
  {
  }

  lemma BeginDecides(cfg: Config, s: State)
    ensures Decided(cfg, s, ByBuild(ShadowBegin), DoShadowBegin(s))
  {
    hide DoShadowBegin, Decided;
    if s.shadowState.IsrPending? && IsFilled(s.shadowChunk) { BeginTakesDecides(cfg, s); }
    else if s.shadowChunk.None? { BeginNoneDecides(cfg, s); }
    else { BeginFillsDecides(cfg, s); }
  }

  lemma FilledSame(cfg: Config, s: State, r: FillResult)
    requires s.worker.WFill? && s.shadowChunk.Some? && CanFill(cfg, s, s.shadowPos, r) && r.FillOk?
    ensures Same(s, DoShadowFill(cfg, s, r), s.hwErr)
  {
    hide Counted;
  }

  lemma NotFilledSame(cfg: Config, s: State, r: FillResult)
    requires s.worker.WFill? && s.shadowChunk.Some? && CanFill(cfg, s, s.shadowPos, r) && r.FillFail?
    ensures Same(s, DoShadowFill(cfg, s, r), s.hwErr)
  {
    hide Counted;
  }

  lemma FillDecides(cfg: Config, s: State, r: FillResult)
    requires s.worker.WFill? && s.shadowChunk.Some? && CanFill(cfg, s, s.shadowPos, r)
    ensures Same(s, DoShadowFill(cfg, s, r), s.hwErr)
  {
    hide DoShadowFill, Same;
    if r.FillOk? { FilledSame(cfg, s, r); }
    else { NotFilledSame(cfg, s, r); }
  }

  lemma PrebuildDecides(cfg: Config, s: State, ok: bool, back: nat)
    requires s.worker.WPrebuild? && s.shadowChunk.Some? && back <= s.shadowChunk.value.held
    ensures Same(s, DoShadowPrebuild(cfg, s, ok, back), s.hwErr)
  {
    hide Written, WriteHost;
  }

  lemma PublishReadySame(s: State)
    requires s.worker.WPublish? && s.shadowState.Building?
    ensures Same(s, DoShadowPublish(s), s.hwErr)
  {
  }

  lemma PublishPendingSame(s: State)
    requires s.worker.WPublish? && s.shadowState.IsrPending?
    ensures Same(s, DoShadowPublish(s), s.hwErr)
  {
  }

  lemma AbandonSame(s: State, next: Option<Chunk>)
    ensures Same(s, Abandon(s, next), s.hwErr)
  {
  }

  lemma PublishLeaveSame(s: State)
    requires s.worker.WPublish? && !s.shadowState.Building? && !s.shadowState.IsrPending?
    ensures Same(s, DoShadowPublish(s), s.hwErr)
  {
    hide Abandon, Same;
    AbandonSame(s, s.worker.next);
  }

  lemma PublishDecides(s: State)
    requires s.worker.WPublish?
    ensures Same(s, DoShadowPublish(s), s.hwErr)
  {
    hide DoShadowPublish, Same;
    if s.shadowState.Building? { PublishReadySame(s); }
    else if s.shadowState.IsrPending? { PublishPendingSame(s); }
    else { PublishLeaveSame(s); }
  }

  lemma BuildDecides(cfg: Config, s: State, a: BuildAction)
    requires BuildEnabled(cfg, s, a)
    ensures Decided(cfg, s, ByBuild(a), BuildStep(cfg, s, a))
  {
    hide FillAllowed, DoShadowBegin, DoShadowFill, DoShadowPrebuild, DoShadowPublish;
    match a
    case ShadowBegin => BeginDecides(cfg, s);
    case ShadowFill(r) => FillPossibleHere(cfg, s, r); FillDecides(cfg, s, r);
    case ShadowPrebuild(ok, back) => PrebuildDecides(cfg, s, ok, back);
    case ShadowPublish => PublishDecides(s);
    case _ =>
  }

  lemma FillPossibleHere(cfg: Config, s: State, r: FillResult)
    requires s.shadowChunk.Some? && FillAllowed(cfg, s, s.shadowPos, s.shadowChunk.value.bursts, r)
    ensures CanFill(cfg, s, s.shadowPos, r)
  {
  }

  lemma LaunchedOneOne(s: State)
    requires s.worker.WLaunch? && s.shadowChunk.Some?
    ensures One(s, LaunchedOne(s))
  {
  }

  lemma LaunchedLastOne(s: State)
    requires s.worker.WLaunch? && s.shadowChunk.Some?
    ensures One(s, LaunchedLast(s))
  {
  }

  lemma RefusedSame(s: State)
    requires s.worker.WLaunch? && s.shadowChunk.Some?
    ensures var t := LaunchRefused(s); Same(s.(busy := true), t, true) && !t.lazyMode
  {
  }

  lemma AbandonDecides(cfg: Config, s: State, live: bool)
    requires s.worker.WLaunch? && !AtDoorbell(s, ByHand(ShadowLaunch(live)))
    ensures Decided(cfg, s, ByHand(ShadowLaunch(live)), Abandon(s, s.worker.next))
  {
    hide Abandon;
    AbandonSame(s, s.worker.next);
  }

  lemma RefusedDecides(cfg: Config, s: State)
    requires s.worker.WLaunch? && s.shadowChunk.Some? && AtDoorbell(s, ByHand(ShadowLaunch(false)))
    ensures Decided(cfg, s, ByHand(ShadowLaunch(false)), LaunchRefused(s))
  {
    hide LaunchRefused;
    RefusedSame(s);
  }

  lemma OneDecides(cfg: Config, s: State, t: State)
    requires s.worker.WLaunch? && AtDoorbell(s, ByHand(ShadowLaunch(true))) && One(s, t)
    ensures Decided(cfg, s, ByHand(ShadowLaunch(true)), t)
  {
  }

  lemma ShadowLaunchDecides(cfg: Config, s: State, live: bool)
    requires s.worker.WLaunch? && s.shadowChunk.Some?
    ensures Decided(cfg, s, ByHand(ShadowLaunch(live)), DoShadowLaunch(s, live))
  {
    hide LaunchedOne, LaunchedLast, LaunchRefused, Abandon, Decided, One;
    if CancelSeen(s) {
      AbandonDecides(cfg, s, live);
    } else if !live {
      RefusedDecides(cfg, s);
    } else {
      LaunchedOneOne(s);
      LaunchedLastOne(s);
      OneDecides(cfg, s, DoShadowLaunch(s, true));
    }
  }

  lemma PrecopySame(s: State, ok: bool, ecanceled: bool, junk: seq<Elem>)
    requires s.worker.WPrecopy? && s.shadowChunk.Some?
    ensures Same(s, DoShadowPrecopy(s, ok, ecanceled, junk), s.hwErr)
  {
    hide CopyTable, Overruns, CancelSeen;
  }

  lemma HandedOffSame(s: State)
    requires s.worker.WHandoff? && StillOurs(s, s.worker.id) && s.shadowState.Ready? && s.active.Some?
    ensures Same(s, DoShadowHandoff(s), s.hwErr)
  {
  }

  lemma NotHandedOffSame(s: State)
    requires s.worker.WHandoff? && !(StillOurs(s, s.worker.id) && s.shadowState.Ready? && s.active.Some?)
    ensures Same(s, DoShadowHandoff(s), s.hwErr)
  {
  }

  lemma HandoffSame(s: State)
    requires s.worker.WHandoff?
    ensures Same(s, DoShadowHandoff(s), s.hwErr)
  {
    hide DoShadowHandoff, Same;
    if StillOurs(s, s.worker.id) && s.shadowState.Ready? && s.active.Some? { HandedOffSame(s); }
    else { NotHandedOffSame(s); }
  }

  lemma RecheckTakesSame(s: State)
    requires s.worker.WRecheck? && StillOurs(s, s.worker.id) && s.shadowState.IsrPending?
    ensures Same(s, DoShadowRecheck(s), s.hwErr)
  {
  }

  lemma RecheckEndsSame(s: State)
    requires s.worker.WRecheck? && !(StillOurs(s, s.worker.id) && s.shadowState.IsrPending?)
    ensures Same(s, DoShadowRecheck(s), s.hwErr)
  {
  }

  lemma RecheckSame(s: State)
    requires s.worker.WRecheck?
    ensures Same(s, DoShadowRecheck(s), s.hwErr)
  {
    hide DoShadowRecheck, Same;
    if StillOurs(s, s.worker.id) && s.shadowState.IsrPending? { RecheckTakesSame(s); }
    else { RecheckEndsSame(s); }
  }

  lemma HandDecides(cfg: Config, s: State, a: HandAction)
    requires HandEnabled(cfg, s, a)
    ensures Decided(cfg, s, ByHand(a), HandStep(cfg, s, a))
  {
    hide DoShadowPrecopy, DoShadowHandoff, DoShadowRecheck, DoShadowLaunch;
    match a
    case ShadowPrecopy(ok, ecanceled, junk) => PrecopySame(s, ok, ecanceled, junk);
    case ShadowHandoff => HandoffSame(s);
    case ShadowRecheck => RecheckSame(s);
    case ShadowLaunch(live) => ShadowLaunchDecides(cfg, s, live);
    case _ =>
  }

  lemma RefillStoppedCompletes(s: State, c: Chunk)
    ensures Completes(s, RefillStopped(s, c), s.aborted)
  {
  }

  lemma RefillFailedSame(s: State)
    ensures Same(s, RefillFailed(s), true) && !RefillFailed(s).lazyMode
  {
  }

  lemma ClaimedSame(s: State)
    requires s.active.Some?
    ensures Same(s, Claimed(s), s.hwErr)
  {
  }

  /** The branches of the claim, one by one. */
  lemma ClaimLate(cfg: Config, s: State)
    requires s.refill.ZClaim? && !s.lazyState.Pending?
    ensures Decided(cfg, s, ByRefill(LazyClaim), DoLazyClaim(s))
  {
    hide RefillStopped, RefillFailed, Claimed;
  }

  lemma ClaimGone(cfg: Config, s: State)
    requires s.refill.ZClaim? && s.lazyState.Pending? && !s.vd.Issued?
    ensures Decided(cfg, s, ByRefill(LazyClaim), DoLazyClaim(s))
  {
    hide RefillStopped, RefillFailed, Claimed;
  }

  lemma ClaimFails(cfg: Config, s: State)
    requires s.refill.ZClaim? && s.lazyState.Pending? && s.vd.Issued?
    requires !s.refill.ok || s.active.None? || !s.lazyMode || (s.request.NoRequest? && s.sgRemaining == 0)
    ensures Decided(cfg, s, ByRefill(LazyClaim), DoLazyClaim(s))
  {
    hide RefillStopped, RefillFailed, Claimed;
    RefillFailedSame(s);
  }

  lemma ClaimStops(cfg: Config, s: State)
    requires s.refill == ZClaim(true) && s.lazyState.Pending? && s.vd.Issued? && s.active.Some? && s.lazyMode
    requires s.request.StopRequest?
    ensures Decided(cfg, s, ByRefill(LazyClaim), DoLazyClaim(s))
  {
    hide RefillStopped, RefillFailed, Claimed;
    var c := s.active.value;
    RefillStoppedCompletes(s.(active := None, poolFree := s.poolFree + c.held), FreeBursts(c));
  }

  lemma ClaimTakes(cfg: Config, s: State)
    requires s.refill == ZClaim(true) && s.lazyState.Pending? && s.vd.Issued? && s.active.Some? && s.lazyMode
    requires s.request.NoRequest? && s.sgRemaining != 0
    ensures Decided(cfg, s, ByRefill(LazyClaim), DoLazyClaim(s))
  {
    hide RefillStopped, RefillFailed, Claimed;
    ClaimedSame(s);
  }

  lemma ClaimDecides(cfg: Config, s: State)
    requires s.refill.ZClaim?
    ensures Decided(cfg, s, ByRefill(LazyClaim), DoLazyClaim(s))
  {
    hide DoLazyClaim, Decided;
    if !s.lazyState.Pending? { ClaimLate(cfg, s); }
    else if !s.vd.Issued? { ClaimGone(cfg, s); }
    else if !s.refill.ok || s.active.None? || !s.lazyMode { ClaimFails(cfg, s); }
    else if s.request.StopRequest? { ClaimStops(cfg, s); }
    else if s.sgRemaining == 0 { ClaimFails(cfg, s); }
    else { ClaimTakes(cfg, s); }
  }

  lemma RefillOne(cfg: Config, s: State)
    requires s.refill.ZCommit? && s.lazyMode
    ensures One(s, Refill(cfg, s))
  {
    hide Bytes;
  }

  lemma RefillFreedSame(s: State, c: Chunk, l: LazyState)
    requires s.refill.ZCommit?
    ensures Same(s, RefillFreed(s, c, l), s.hwErr)
  {
  }

  lemma CommitDroppedSame(s: State, c: Chunk)
    ensures Same(s, Defer(s, c).(refill := ZIdle, lazyState := NotLazy, doneBit := false), s.hwErr)
  {
  }

  lemma CommitFailedSame(s: State, c: Chunk)
    ensures var t := RefillFailed(Defer(s, c).(doneBit := false)); Same(s, t, true) && !t.lazyMode
  {
  }

  /** The branches of the commit, one by one. */
  lemma CommitFreed(cfg: Config, s: State)
    requires s.refill.ZCommit? && (!s.vd.Issued? || !s.lazyState.Preparing?)
    ensures Decided(cfg, s, ByRefill(LazyCommit), DoLazyCommit(cfg, s))
  {
    hide RefillStopped, RefillFailed, Refill, RefillFreed, Defer;
    RefillFreedSame(s, s.refill.c, NotLazy);
    RefillFreedSame(s, s.refill.c, s.lazyState);
  }

  lemma CommitFails(cfg: Config, s: State)
    requires s.refill.ZCommit? && s.vd.Issued? && s.lazyState.Preparing? && !s.refill.ok
    ensures Decided(cfg, s, ByRefill(LazyCommit), DoLazyCommit(cfg, s))
  {
    hide RefillStopped, RefillFailed, Refill, RefillFreed, Defer;
    CommitFailedSame(s, s.refill.c);
  }

  lemma CommitStops(cfg: Config, s: State)
    requires s.refill.ZCommit? && s.vd.Issued? && s.lazyState.Preparing? && s.refill.ok && s.request.StopRequest?
    ensures Decided(cfg, s, ByRefill(LazyCommit), DoLazyCommit(cfg, s))
  {
    hide RefillStopped, RefillFailed, Refill, RefillFreed, Defer;
    RefillStoppedCompletes(s.(doneBit := false), s.refill.c);
  }

  lemma CommitRest(cfg: Config, s: State)
    requires s.refill.ZCommit? && s.vd.Issued? && s.lazyState.Preparing? && s.refill.ok && s.request.NoRequest?
    ensures Decided(cfg, s, ByRefill(LazyCommit), DoLazyCommit(cfg, s))
  {
    hide RefillStopped, RefillFailed, Refill, RefillFreed, Defer;
    if !s.lazyMode || s.aborted || s.hwErr { CommitDroppedSame(s, s.refill.c); } else { RefillOne(cfg, s); }
  }

  lemma LazyCommitDecides(cfg: Config, s: State)
    requires s.refill.ZCommit?
    ensures Decided(cfg, s, ByRefill(LazyCommit), DoLazyCommit(cfg, s))
  {
    hide DoLazyCommit, Decided;
    if !s.vd.Issued? || !s.lazyState.Preparing? { CommitFreed(cfg, s); }
    else if !s.refill.ok { CommitFails(cfg, s); }
    else if s.request.StopRequest? { CommitStops(cfg, s); }
    else { CommitRest(cfg, s); }
  }

  lemma LazyFilledSame(cfg: Config, s: State, r: FillResult)
    requires s.refill.ZFill? && CanFill(cfg, s, s.sgCur, r) && r.FillOk?
    ensures Same(s, DoLazyFill(cfg, s, r), s.hwErr)
  {
  }

  lemma LazyNotFilledSame(cfg: Config, s: State, r: FillResult)
    requires s.refill.ZFill? && CanFill(cfg, s, s.sgCur, r) && r.FillFail?
    ensures Same(s, DoLazyFill(cfg, s, r), s.hwErr)
  {
  }

  lemma LazyFillSame(cfg: Config, s: State, r: FillResult)
    requires s.refill.ZFill? && CanFill(cfg, s, s.sgCur, r)
    ensures Same(s, DoLazyFill(cfg, s, r), s.hwErr)
  {
    hide DoLazyFill, Same;
    if r.FillOk? { LazyFilledSame(cfg, s, r); }
    else { LazyNotFilledSame(cfg, s, r); }
  }

  lemma LazyWriteDecides(cfg: Config, s: State, ok: bool, back: nat)
    requires s.refill.ZWrite? && back <= s.refill.c.held
    ensures Decided(cfg, s, ByRefill(LazyWrite(ok, back)), DoLazyWrite(cfg, s, ok, back))
  {
    hide Written, WriteHost;
  }

  lemma RefillDecides(cfg: Config, s: State, a: RefillAction)
    requires RefillEnabled(cfg, s, a)
    ensures Decided(cfg, s, ByRefill(a), RefillStep(cfg, s, a))
  {
    hide FillAllowed, DoLazyClaim, DoLazyFill, DoLazyWrite, DoLazyCommit, CopyTable;
    match a
    case LazyClaim => ClaimDecides(cfg, s);
    case LazyFill(r) => LazyFillPossible(cfg, s, r); LazyFillSame(cfg, s, r);
    case LazyWrite(ok, back) => LazyWriteDecides(cfg, s, ok, back);
    case LazyCommit => LazyCommitDecides(cfg, s);
    case _ =>
  }

  lemma LazyFillPossible(cfg: Config, s: State, r: FillResult)
    requires s.refill.ZFill? && FillAllowed(cfg, s, s.sgCur, s.refill.c.bursts, r)
    ensures CanFill(cfg, s, s.sgCur, r)
  {
  }

  lemma ReleaseDecides(cfg: Config, s: State, a: ReleaseAction)
    requires ReleaseEnabled(cfg, s, a)
    ensures Decided(cfg, s, ByRelease(a), ReleaseStep(cfg, s, a))
  {
  }

  lemma StepDecides(cfg: Config, s: State, a: Action)
    requires Enabled(cfg, s, a)
    ensures Decided(cfg, s, a, Apply(cfg, s, a))
  {
    hide Decided, LaunchEnabled, LaunchStep, EngineEnabled, EngineStep, BuildEnabled, BuildStep, HandEnabled,
         HandStep, RefillEnabled, RefillStep, ReleaseEnabled, ReleaseStep;
    match a
    case ByLaunch(x) => LaunchDecides(cfg, s, x);
    case ByEngine(x) => EngineDecides(cfg, s, x);
    case ByBuild(x) => BuildDecides(cfg, s, x);
    case ByHand(x) => HandDecides(cfg, s, x);
    case ByRefill(x) => RefillDecides(cfg, s, x);
    case ByRelease(x) => ReleaseDecides(cfg, s, x);
  }

  /**
   In every run a doorbell is rung exactly by the steps that may: none after an abort or a stop request, none for the
   first chunk or a refill after an error, and none by the launch or the shadow worker for a device that went away.
   */
  lemma LaunchesIff(cfg: Config, states: seq<State>, actions: seq<Action>, i: nat)
    requires IsRun(cfg, states, actions) && i < |actions|
    ensures |states| == |actions| + 1
    ensures states[i + 1].launched != states[i].launched <==> MayLaunch(states[i], actions[i])
  {
    hide Enabled, Apply, Init, MayComplete, MayFail, MayAbort, MayLaunch;
    StepDecides(cfg, states[i], actions[i]);
  }

  /**
   In every run every step launches, completes, fails and aborts exactly as it may; what was completed stays so, and
   errors and aborts are kept.
   */
  lemma StepsDecide(cfg: Config, states: seq<State>, actions: seq<Action>, i: nat)
    requires IsRun(cfg, states, actions) && i < |actions|
    ensures |states| == |actions| + 1 && Decided(cfg, states[i], actions[i], states[i + 1])
  {
    hide Enabled, Apply, Init, Decided;
    StepDecides(cfg, states[i], actions[i]);
  }

  /** The channel is busy exactly while the descriptor is issued, and only then is a stop requested. */
  predicate InStep(s: State) {
    (s.busy <==> s.vd.Issued?) && (s.request.StopRequest? ==> s.vd.Issued?)
  }

  lemma DoorbellIssued(cfg: Config, s: State, a: Action)
    requires Inv(cfg, s) && Enabled(cfg, s, a)
    ensures AtDoorbell(s, a) ==> s.vd.Issued?
    ensures a == ByEngine(AbortIsr) ==> !s.vd.Submitted?
    ensures a == ByLaunch(Issue) ==> s.vd.Submitted?
    ensures a == ByLaunch(Stop) ==> s.vd.Issued?
  {
    hide WellFormed, Exact, Holds, Flat, AllGood, Alternates, Accounts, Chain, Total, Conserved, EngineOk, StopOk,
         AccountOk, OrderOk, ReleaseOk, LazyOk, CoverOk, BuildEnabled, RefillEnabled, ReleaseEnabled;
  }

  lemma StaysInStep(cfg: Config, s: State, a: Action, t: State)
    requires Decided(cfg, s, a, t) && InStep(s)
    requires AtDoorbell(s, a) ==> s.vd.Issued?
    requires a == ByEngine(AbortIsr) ==> !s.vd.Submitted?
    requires a == ByLaunch(Issue) ==> s.vd.Submitted?
    requires a == ByLaunch(Stop) ==> s.vd.Issued?
    ensures InStep(t)
  {
    hide MayFail, MayAbort, Rests, GivesUp;
  }

  /** In every run, so it is in every state. */
  lemma {:induction false} BusyWhileIssued(cfg: Config, states: seq<State>, actions: seq<Action>, i: nat)
    requires IsRun(cfg, states, actions) && i < |states|
    ensures InStep(states[i])
  {
    hide Inv, Enabled, Apply, Decided, AtDoorbell;
    if i == 0 {
      InitInStep(cfg, states[0]);
    } else {
      BusyWhileIssued(cfg, states, actions, i - 1);
      var s, a := states[i - 1], actions[i - 1];
      RunKeeps(cfg, states, actions, i - 1);
      StepDecides(cfg, s, a);
      DoorbellIssued(cfg, s, a);
      StaysInStep(cfg, s, a, states[i]);
    }
  }

  lemma InitInStep(cfg: Config, s: State)
    requires Init(cfg, s)
    ensures InStep(s)
  {
    hide WellFormed, FilledFrom, Bytes;
  }
}
