/** The lazy refill worker and the release of the descriptor keep the protocol invariant. */
module StreamingRefill {
  import opened Basics
  import opened Copy
  import opened DescriptorTable
  import opened Streaming
  import opened StreamingInvariant
  import opened StreamingFacts

  lemma LazyBeginKeeps(cfg: Config, s: State)
    requires Inv(cfg, s) && s.lazyQueued && s.refill.ZIdle?
    ensures Kept(cfg, s, s.(lazyQueued := false, refill := ZWait))
  {
    hide WellFormed, Exact, Holds, Flat, AllGood, Alternates, Accounts, Chain, Total, Conserved;
    var t := s.(lazyQueued := false, refill := ZWait);
    SameOwners(cfg, s, t);
  }

  lemma LazyWaitKeeps(cfg: Config, s: State, ok: bool)
    requires Inv(cfg, s) && s.refill.ZWait? && (ok ==> s.engine.Stopped?)
    ensures Kept(cfg, s, s.(refill := ZClaim(ok)))
  {
    hide WellFormed, Exact, Holds, Flat, AllGood, Alternates, Accounts, Chain, Total, Conserved;
    var t := s.(refill := ZClaim(ok));
    SameOwners(cfg, s, t);
  }

  lemma ClaimEndKeeps(cfg: Config, s: State, l: LazyState)
    requires Inv(cfg, s) && s.refill.ZClaim? && (l == s.lazyState || l == NotLazy)
    ensures Kept(cfg, s, s.(refill := ZIdle, lazyState := l))
  {
    hide WellFormed, Exact, Holds, Flat, AllGood, Alternates, Accounts, Chain, Total, Conserved;
    var t := s.(refill := ZIdle, lazyState := l);
    SameOwners(cfg, s, t);
  }

  lemma ClaimFailedKeeps(cfg: Config, s: State)
    requires Inv(cfg, s) && s.refill.ZClaim?
    ensures Kept(cfg, s, RefillFailed(s))
  {
    hide WellFormed, Exact, Holds, Flat, AllGood, Alternates, Accounts, Chain, Total, Conserved;
    var t := RefillFailed(s);
    SameOwners(cfg, s, t);
  }

  lemma ClaimStoppedKeeps(cfg: Config, s: State)
    requires Inv(cfg, s) && s.refill.ZClaim? && s.vd.Issued? && s.active.Some? && s.request.StopRequest?
    ensures Kept(cfg, s, RefillStopped(s.(active := None, poolFree := s.poolFree + s.active.value.held),
                                       FreeBursts(s.active.value)))
  {
    hide WellFormed, Exact, Holds, Flat, AllGood, Alternates, Accounts, Chain, Total;
    var t := RefillStopped(s.(active := None, poolFree := s.poolFree + s.active.value.held),
                           FreeBursts(s.active.value));
    forall x: nat ensures OwnedOnce(t, x) { assert OwnedOnce(s, x); }
  }

  lemma ClaimedKeeps(cfg: Config, s: State)
    requires Inv(cfg, s) && s.refill == ZClaim(true) && s.vd.Issued? && s.active.Some? && s.lazyMode
    requires s.request.NoRequest?
    ensures Kept(cfg, s, Claimed(s))
  {
    hide WellFormed, Exact, Holds, Flat, AllGood, Alternates, Accounts, Chain, Total;
    var t := Claimed(s);
    forall x: nat ensures OwnedOnce(t, x) { assert OwnedOnce(s, x); }
  }

  lemma LazyClaimKeeps(cfg: Config, s: State)
    requires Inv(cfg, s) && s.refill.ZClaim?
    ensures Kept(cfg, s, DoLazyClaim(s))
  {
    hide Inv, Kept, RefillFailed, RefillStopped, Claimed;
    if !s.lazyState.Pending? { ClaimEndKeeps(cfg, s, s.lazyState); }
    else if !s.vd.Issued? { ClaimEndKeeps(cfg, s, NotLazy); }
    else if !s.refill.ok || s.active.None? || !s.lazyMode { ClaimFailedKeeps(cfg, s); }
    else if s.request.StopRequest? { ClaimStoppedKeeps(cfg, s); }
    else if s.sgRemaining == 0 { ClaimFailedKeeps(cfg, s); }
    else { ClaimedKeeps(cfg, s); }
  }

  lemma LazyReleaseKeeps(cfg: Config, s: State)
    requires Inv(cfg, s) && s.refill.ZRelease?
    ensures Kept(cfg, s, DoLazyRelease(s))
  {
    hide WellFormed, Exact, Holds, Flat, AllGood, Alternates, Accounts, Chain, Total;
    var t := DoLazyRelease(s);
    forall x: nat ensures OwnedOnce(t, x) { assert OwnedOnce(s, x); }
  }

  lemma LazyFilledKeeps(cfg: Config, s: State, hi: nat, bs: seq<Burst>, taken: nat)
    requires Inv(cfg, s) && s.refill.ZFill? && FilledFrom(cfg, s.sgCur, hi, bs) && taken <= s.poolFree
    ensures Kept(cfg, s, LazyFilled(cfg, s, hi, bs, taken))
  {
    hide WellFormed, Exact, Holds, Flat, AllGood, Alternates, Accounts, Chain, Total;
    var t := LazyFilled(cfg, s, hi, bs, taken);
    FilledExact(cfg, s.sgCur, hi, bs);
    forall x: nat ensures OwnedOnce(t, x) { assert OwnedOnce(s, x); }
  }

  lemma LazyFillFailedKeeps(cfg: Config, s: State)
    requires Inv(cfg, s) && s.refill.ZFill?
    ensures Kept(cfg, s, s.(refill := ZCommit(s.refill.c.(cb := !s.refill.c.cb), false)))
  {
    hide WellFormed, Exact, Holds, Flat, AllGood, Alternates, Accounts, Chain, Total;
    var t := s.(refill := ZCommit(s.refill.c.(cb := !s.refill.c.cb), false));
    forall x: nat ensures OwnedOnce(t, x) { assert OwnedOnce(s, x); }
  }

  lemma LazyFillKeeps(cfg: Config, s: State, r: FillResult)
    requires Inv(cfg, s) && s.refill.ZFill? && FillAllowed(cfg, s, s.sgCur, s.refill.c.bursts, r)
    ensures Kept(cfg, s, DoLazyFill(cfg, s, r))
  {
    hide EngineOk, TurnOk, ShadowOk, StopOk, AccountOk, OwnOk, OrderOk, CoverOk, Kept, FilledFrom, FillsFrom,
         LazyFilled;
    if r.FillOk? {
      FreshFill(cfg, s.sgCur, r.hi, r.bursts);
      LazyFilledKeeps(cfg, s, r.hi, r.bursts, r.taken);
    } else {
      LazyFillFailedKeeps(cfg, s);
    }
  }

  lemma LazyWrittenKeeps(cfg: Config, s: State, back: nat)
    requires Inv(cfg, s) && s.refill.ZWrite? && back <= s.refill.c.held
    ensures Kept(cfg, s, LazyWritten(cfg, s, back))
  {
    hide WellFormed, Exact, Holds, Flat, AllGood, Alternates, Accounts, Chain, Total, Written, WriteHost;
    var t := LazyWritten(cfg, s, back);
    WrittenFacts(cfg, s, s.refill.c, back);
    forall x: nat ensures OwnedOnce(t, x) { assert OwnedOnce(s, x); }
  }

  lemma LazyNotWrittenKeeps(cfg: Config, s: State)
    requires Inv(cfg, s) && s.refill.ZWrite?
    ensures Kept(cfg, s, s.(hwErr := true, doneBit := false, refill := ZCommit(s.refill.c, false)))
  {
    hide WellFormed, Exact, Holds, Flat, AllGood, Alternates, Accounts, Chain, Total, Conserved;
    var t := s.(hwErr := true, doneBit := false, refill := ZCommit(s.refill.c, false));
    SameOwners(cfg, s, t);
  }

  lemma LazyWriteKeeps(cfg: Config, s: State, ok: bool, back: nat)
    requires Inv(cfg, s) && s.refill.ZWrite? && back <= s.refill.c.held
    ensures Kept(cfg, s, DoLazyWrite(cfg, s, ok, back))
  {
    hide Inv, Kept, LazyWritten;
    if ok { LazyWrittenKeeps(cfg, s, back); } else { LazyNotWrittenKeeps(cfg, s); }
  }

  lemma LazyCopyKeeps(cfg: Config, s: State, ok: bool, junk: seq<Elem>)
    requires Inv(cfg, s) && s.refill.ZCopy? && |junk| == |s.table|
    ensures Kept(cfg, s, DoLazyCopy(s, ok, junk))
  {
    hide WellFormed, Exact, Holds, Flat, AllGood, Alternates, Accounts, Chain, Total, Conserved;
    var t := DoLazyCopy(s, ok, junk);
    CopyHolds(cfg, s, s.refill.c);
    SameOwners(cfg, s, t);
  }

  /** The refill's chunk moves to the cleanup list. */
  lemma DeferredConserves(cfg: Config, s: State, t: State)
    requires Conserved(cfg, s) && s.refill.ZCommit? && t.refill.ZIdle?
    requires t.active == s.active && OwnedShadow(t) == OwnedShadow(s) && t.shadowNext == s.shadowNext
    requires WorkerNext(t) == WorkerNext(s)
    requires t.cleanup == s.cleanup + multiset{s.refill.c.id} && t.cleanupHeld == s.cleanupHeld + s.refill.c.held
    requires t.freed == s.freed && t.nextId == s.nextId && t.poolFree == s.poolFree
    ensures Conserved(cfg, t)
  {
    forall x: nat ensures OwnedOnce(t, x) { assert OwnedOnce(s, x); }
  }

  lemma CommitFreedConserves(cfg: Config, s: State, l: LazyState)
    requires Conserved(cfg, s) && s.refill.ZCommit? && (l == s.lazyState || l == NotLazy)
    ensures Conserved(cfg, RefillFreed(s, s.refill.c, l))
  {
    var t := RefillFreed(s, s.refill.c, l);
    forall x: nat ensures OwnedOnce(t, x) { assert OwnedOnce(s, x); }
  }

  lemma CommitFreedKeeps(cfg: Config, s: State, l: LazyState)
    requires Inv(cfg, s) && s.refill.ZCommit? && (l == s.lazyState || l == NotLazy)
    ensures Kept(cfg, s, RefillFreed(s, s.refill.c, l))
  {
    hide WellFormed, Exact, Holds, Flat, AllGood, Alternates, Accounts, Chain, Total, Conserved;
    var t := RefillFreed(s, s.refill.c, l);
    CommitFreedConserves(cfg, s, l);
  }

  lemma CommitFailedKeeps(cfg: Config, s: State)
    requires Inv(cfg, s) && s.refill.ZCommit? && !s.refill.ok
    ensures Kept(cfg, s, RefillFailed(Defer(s, s.refill.c).(doneBit := false)))
  {
    hide WellFormed, Exact, Holds, Flat, AllGood, Alternates, Accounts, Chain, Total, Conserved;
    var t := RefillFailed(Defer(s, s.refill.c).(doneBit := false));
    DeferredConserves(cfg, s, t);
  }

  lemma CommitStoppedKeeps(cfg: Config, s: State)
    requires Inv(cfg, s) && s.refill.ZCommit? && s.request.StopRequest?
    ensures Kept(cfg, s, RefillStopped(s.(doneBit := false), s.refill.c))
  {
    hide WellFormed, Exact, Holds, Flat, AllGood, Alternates, Accounts, Chain, Total, Conserved;
    var t := RefillStopped(s.(doneBit := false), s.refill.c);
    DeferredConserves(cfg, s, t);
  }

  lemma CommitDroppedKeeps(cfg: Config, s: State)
    requires Inv(cfg, s) && s.refill.ZCommit?
    ensures Kept(cfg, s, Defer(s, s.refill.c).(refill := ZIdle, lazyState := NotLazy, doneBit := false))
  {
    hide WellFormed, Exact, Holds, Flat, AllGood, Alternates, Accounts, Chain, Total, Conserved;
    var t := Defer(s, s.refill.c).(refill := ZIdle, lazyState := NotLazy, doneBit := false);
    DeferredConserves(cfg, s, t);
  }

  lemma RefillKeeps(cfg: Config, s: State)
    requires Inv(cfg, s)
    requires s.refill.ZCommit? && s.refill.ok && s.vd.Issued? && s.lazyState.Preparing? && s.request.NoRequest?
    requires s.lazyMode && !s.aborted && !s.hwErr
    ensures Kept(cfg, s, Refill(cfg, s))
  {
    hide WellFormed, Exact, Holds, Flat, AllGood, Alternates, Accounts, Chain, Total;
    var t := Refill(cfg, s);
    RingFacts(cfg, s.launched, s.refill.c);
    AccountsGrows(s.accounted, s.launched, s.refill.c);
    TotalJoin(cfg, 0, s.sgCur, s.refill.c.hi);
    forall x: nat ensures OwnedOnce(t, x) { assert OwnedOnce(s, x); }
  }

  lemma LazyCommitKeeps(cfg: Config, s: State)
    requires Inv(cfg, s) && s.refill.ZCommit?
    ensures Kept(cfg, s, DoLazyCommit(cfg, s))
  {
    hide Inv, Kept, RefillFailed, RefillStopped, RefillFreed, Refill, Free, Defer;
    if !s.vd.Issued? { CommitFreedKeeps(cfg, s, NotLazy); }
    else if !s.lazyState.Preparing? { CommitFreedKeeps(cfg, s, s.lazyState); }
    else if !s.refill.ok { CommitFailedKeeps(cfg, s); }
    else if s.request.StopRequest? { CommitStoppedKeeps(cfg, s); }
    else if !s.lazyMode || s.aborted || s.hwErr { CommitDroppedKeeps(cfg, s); }
    else { RefillKeeps(cfg, s); }
  }

  lemma FreeBeginKeeps(cfg: Config, s: State)
    requires Inv(cfg, s) && s.vd.Completed? && s.freeing.NotFreeing?
    ensures Kept(cfg, s, s.(shadowState := Cancel(s.shadowState), freeing := Marked))
  {
    hide WellFormed, Exact, Holds, Flat, AllGood, Alternates, Accounts, Chain, Total, Conserved;
    var t := s.(shadowState := Cancel(s.shadowState), freeing := Marked);
    SameOwners(cfg, s, t);
  }

  lemma FreeShadowConserves(cfg: Config, s: State)
    requires Conserved(cfg, s) && s.freeing.Marked? && s.worker.WIdle?
    ensures Conserved(cfg, DoFreeShadow(s))
  {
    var t := DoFreeShadow(s);
    forall x: nat ensures OwnedOnce(t, x) {
      assert OwnedOnce(s, x);
      assert t.freed[x] == s.freed[x] + Count(s.shadowChunk, x) + Count(s.shadowNext, x);
    }
  }

  lemma FreeShadowTurns(cfg: Config, s: State)
    requires Inv(cfg, s) && s.freeing.Marked? && s.worker.WIdle?
    ensures TurnOk(cfg, DoFreeShadow(s)) && ShadowOk(cfg, DoFreeShadow(s))
  {
    hide WellFormed, Exact, Holds, Flat, AllGood, Alternates, Accounts, Chain, Total, Conserved;
  }

  lemma FreeShadowKeeps(cfg: Config, s: State)
    requires Inv(cfg, s) && s.freeing.Marked? && s.worker.WIdle?
    ensures Kept(cfg, s, DoFreeShadow(s))
  {
    hide WellFormed, Exact, Holds, Flat, AllGood, Alternates, Accounts, Chain, Total, Conserved;
    var t := DoFreeShadow(s);
    FreeShadowTurns(cfg, s);
    FreeShadowConserves(cfg, s);
  }

  lemma FreeRestConserves(cfg: Config, s: State)
    requires Conserved(cfg, s) && s.freeing.ShadowGone? && s.refill.ZIdle?
    ensures Conserved(cfg, Free(s, s.active).(lazyQueued := false, active := None, freeing := Released))
  {
    var t := Free(s, s.active).(lazyQueued := false, active := None, freeing := Released);
    forall x: nat ensures OwnedOnce(t, x) { assert OwnedOnce(s, x); }
  }

  lemma FreeRestKeeps(cfg: Config, s: State)
    requires Inv(cfg, s) && s.freeing.ShadowGone? && s.refill.ZIdle?
    ensures Kept(cfg, s, Free(s, s.active).(lazyQueued := false, active := None, freeing := Released))
  {
    hide WellFormed, Exact, Holds, Flat, AllGood, Alternates, Accounts, Chain, Total, Conserved;
    var t := Free(s, s.active).(lazyQueued := false, active := None, freeing := Released);
    FreeRestConserves(cfg, s);
  }
}
