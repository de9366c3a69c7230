/** What the streaming protocol promises over whole runs, besides the exactness of completed transfers. */
module StreamingTheorems {
  import opened Basics
  import opened Copy
  import opened DescriptorTable
  import BurstPool
  import Chunks
  import opened Streaming
  import opened StreamingInvariant
  import opened StreamingFacts
  import opened StreamingSafety

  /** The invariant before a step of a run, and what the step did. */
  lemma RunStep(cfg: Config, states: seq<State>, actions: seq<Action>, i: nat)
    requires IsRun(cfg, states, actions) && i < |actions|
    ensures |states| == |actions| + 1
    ensures Inv(cfg, states[i]) && Inv(cfg, states[i + 1]) && Effect(cfg, states[i], states[i + 1])
  {
    hide Inv, Effect, Enabled, Apply, Init;
    RunKeeps(cfg, states, actions, i);
    RunKeeps(cfg, states, actions, i + 1);
    StepKeeps(cfg, states[i], actions[i]);
  }

  // ---- the descriptor table ----

  /**
   In every run the device table changes only while no chunk is in flight.  If copies are safe, the engine is then
   done with the table: stopped, or past its last burst and stopped by whatever the new table has in the terminator's
   place.  Outside shadow mode, and wherever Done is raised only by a stopped engine, it is not running at all.
   */
  lemma TableChangesOnlyWhenIdle(cfg: Config, states: seq<State>, actions: seq<Action>, i: nat)
    requires IsRun(cfg, states, actions) && i < |actions|
    ensures |states| == |actions| + 1
    ensures states[i + 1].table != states[i].table ==>
              && !states[i].xferStarted
              && (SafeCopies(states, actions, i + 1) ==> EngineDone(states[i], states[i + 1].table))
              && (!cfg.mode.Shadow? || cfg.stopBeforeDone ==> !states[i].engine.Running?)
  {
    hide IsRun, Inv, SafeCopies;
    RunStep(cfg, states, actions, i);
    if SafeCopies(states, actions, i + 1) { SafeRun(cfg, states, actions, i + 1); }
  }

  lemma HoldsExecutes(cfg: Config, mem: seq<Elem>, c: Chunk)
    requires Holds(cfg, mem, c)
    ensures Consume(mem, c.cb, 0) == c.bursts && StopIndex(mem, c.cb, 0) == |c.bursts|
  {
    hide Emit, Consume, StopIndex;
    var stale := mem[|c.bursts| + 1..];
    assert mem == Emit(c.bursts, c.cb, cfg.target) + stale;
    EngineExecutesEmitted(c.bursts, c.cb, cfg.target, stale);
  }

  /** An engine at position `at` of a table that holds chunk `c` executes the rest of `c`. */
  lemma RestExecutes(cfg: Config, mem: seq<Elem>, c: Chunk, at: nat)
    requires Holds(cfg, mem, c) && at <= |c.bursts|
    ensures Consume(mem, c.cb, at) == c.bursts[at..] && StopIndex(mem, c.cb, at) == |c.bursts|
    ensures Stops(mem, c.cb, |c.bursts|)
  {
    hide Emit, Consume, StopIndex;
    var stale := mem[|c.bursts| + 1..];
    assert mem == Emit(c.bursts, c.cb, cfg.target) + stale;
    ConsumeFrom(c.bursts, c.cb, cfg.target, stale, at);
    HoldsAt(cfg, mem, c, |c.bursts|);
  }

  /** The table is read as the engine fetches: an element with the other change bit stops it. */
  lemma FetchStops(cfg: Config, s: State)
    requires s.engine.Running? && s.engine.at < |s.table| && s.table[s.engine.at].cb != s.engine.ccs
    ensures DoFetch(cfg, s).engine.Stopped?
    ensures Consume(s.table, s.engine.ccs, s.engine.at) == []
    ensures StopIndex(s.table, s.engine.ccs, s.engine.at) == s.engine.at
  {
    hide FetchedBurst, FetchedLink;
  }

  /** And a burst is executed, and the rest follows. */
  lemma FetchConsumes(cfg: Config, s: State)
    requires s.engine.Running? && s.engine.at < |s.table|
    requires s.table[s.engine.at].cb == s.engine.ccs && s.table[s.engine.at].Lli?
    ensures var e, ccs, at, t := s.table[s.engine.at], s.engine.ccs, s.engine.at, DoFetch(cfg, s);
            && t.executed == s.executed + [BurstOf(e)] && t.engine.Running? && t.engine.ccs == ccs
            && Consume(s.table, ccs, at) == [BurstOf(e)] + Consume(s.table, ccs, t.engine.at)
            && StopIndex(s.table, ccs, at) == StopIndex(s.table, ccs, t.engine.at)
  {
    hide FetchedEnd, FetchedLink, FetchedBurst;
    BurstFetched(cfg, s, s.table[s.engine.at]);
  }

  lemma BurstFetched(cfg: Config, s: State, e: Elem)
    requires s.engine.Running? && e.Lli?
    ensures var t := FetchedBurst(cfg, s, e);
            t.executed == s.executed + [BurstOf(e)] && t.engine == Running(s.engine.ccs, s.engine.at + 1, t.engine.irq)
  {
  }

  lemma RunningState(cfg: Config, s: State)
    requires Inv(cfg, s) && s.engine.Running? && !s.overrun
    ensures s.launched != [] && s.engine.ccs == Last(s).cb && s.engine.at <= |Last(s).bursts|
    ensures Consume(s.table, s.engine.ccs, s.engine.at) == Last(s).bursts[s.engine.at..]
    ensures StopIndex(s.table, s.engine.ccs, s.engine.at) == |Last(s).bursts|
    ensures Stops(s.table, s.engine.ccs, |Last(s).bursts|)
    ensures s.executed == Flat(s.launched[..|s.launched| - 1]) + Last(s).bursts[..s.engine.at]
  {
    hide Exact, Holds, Flat, TurnOk, LazyOk, ShadowOk, StopOk, AccountOk, Conserved, OrderOk, CoverOk, ReleaseOk,
         WellFormed;
    if !s.engine.irq { RestExecutes(cfg, s.table, Last(s), s.engine.at); }
  }

  /**
   Whenever the engine is running, and copies were safe, the table makes it execute exactly the rest of the last
   launched chunk and stop there, and what has been executed is every earlier chunk followed by the part of this one
   that the engine is past.
   */
  lemma RunningTableIsExact(cfg: Config, states: seq<State>, actions: seq<Action>, i: nat)
    requires IsRun(cfg, states, actions) && i < |states| && SafeCopies(states, actions, i) && states[i].engine.Running?
    ensures var s := states[i];
            && s.launched != [] && s.engine.ccs == Last(s).cb && s.engine.at <= |Last(s).bursts|
            && Consume(s.table, s.engine.ccs, s.engine.at) == Last(s).bursts[s.engine.at..]
            && StopIndex(s.table, s.engine.ccs, s.engine.at) == |Last(s).bursts|
            && Stops(s.table, s.engine.ccs, |Last(s).bursts|)
            && s.executed == Flat(s.launched[..|s.launched| - 1]) + Last(s).bursts[..s.engine.at]
  {
    hide IsRun, Inv, SafeCopies, Flat, Consume, StopIndex;
    RunKeeps(cfg, states, actions, i);
    SafeRun(cfg, states, actions, i);
    RunningState(cfg, states[i]);
  }

  /**
   A chunk was launched, with no other in flight, from a table that makes the engine execute exactly the chunk, an
   exact copy of its slice.
   */
  ghost predicate Doorbell(cfg: Config, s: State, t: State) {
    && t.launched != [] && t.launched == s.launched + [Last(t)] && !s.xferStarted
    && t.engine == Running(Last(t).cb, 0, false)
    && Consume(t.table, Last(t).cb, 0) == Last(t).bursts
    && StopIndex(t.table, Last(t).cb, 0) == |Last(t).bursts|
    && Last(t).lo < Last(t).hi <= |cfg.sg|
    && Denote(Last(t).bursts) == CopyOf(cfg.dir, cfg.sg[Last(t).lo..Last(t).hi], Addr(cfg, Last(t).lo))
  }

  lemma DoorbellState(cfg: Config, s: State, t: State)
    requires Inv(cfg, t) && Effect(cfg, s, t) && t.launched != s.launched
    ensures Rung(cfg, s, t) && Holds(cfg, t.table, Last(t)) && Good(cfg, Last(t))
  {
    hide Exact, Holds, Flat, TurnOk, LazyOk, ShadowOk, StopOk, AccountOk, Conserved, OrderOk, CoverOk, ReleaseOk,
         WellFormed;
  }

  /**
   At every doorbell the table holds the new chunk: started there, the engine executes exactly the chunk's bursts and
   stops at its terminator; and the chunk is an exact copy of its slice of the list.
   */
  lemma DoorbellTableIsExact(cfg: Config, states: seq<State>, actions: seq<Action>, i: nat)
    requires IsRun(cfg, states, actions) && i < |actions|
    ensures |states| == |actions| + 1
    ensures states[i + 1].launched != states[i].launched ==> Doorbell(cfg, states[i], states[i + 1])
  {
    hide IsRun, Inv, Effect, Holds, Consume, StopIndex, Denote, CopyOf;
    RunStep(cfg, states, actions, i);
    if states[i + 1].launched != states[i].launched {
      DoorbellState(cfg, states[i], states[i + 1]);
      HoldsExecutes(cfg, states[i + 1].table, Last(states[i + 1]));
    }
  }

  // ---- ownership ----

  /**
   In every reachable state every allocated chunk is owned, queued for cleanup or freed exactly once, and no other is.
   */
  lemma EveryChunkOwnedOnce(cfg: Config, states: seq<State>, actions: seq<Action>, i: nat, x: nat)
    requires IsRun(cfg, states, actions) && i < |states|
    ensures Owners(states[i], x) == if x < states[i].nextId then 1 else 0
    ensures PoolTotal(states[i]) == cfg.poolSize
  {
    hide IsRun, EngineOk, TurnOk, LazyOk, ShadowOk, StopOk, AccountOk, OrderOk, CoverOk, ReleaseOk, PoolTotal, Owners;
    RunKeeps(cfg, states, actions, i);
    assert OwnedOnce(states[i], x);
  }

  /**
   Once the descriptor is released and the cleanup list worked off, every chunk has been freed once and the pool is
   full.
   */
  lemma ReleaseReturnsEverything(cfg: Config, states: seq<State>, actions: seq<Action>, i: nat)
    requires IsRun(cfg, states, actions) && i < |states| && states[i].freeing.Released?
    ensures var t := DoCleanup(states[i]);
            && t.poolFree == cfg.poolSize
            && forall x: nat :: t.freed[x] == if x < t.nextId then 1 else 0
  {
    hide IsRun;
    RunKeeps(cfg, states, actions, i);
    ReleasedReturnsAll(cfg, states[i]);
  }

  lemma ReleasedReturnsAll(cfg: Config, s: State)
    requires Inv(cfg, s) && s.freeing.Released?
    ensures var t := DoCleanup(s);
            && t.poolFree == cfg.poolSize
            && forall x: nat :: t.freed[x] == if x < t.nextId then 1 else 0
  {
    hide EngineOk, TurnOk, LazyOk, ShadowOk, StopOk, AccountOk, CoverOk;
    var t := DoCleanup(s);
    forall x: nat ensures t.freed[x] == if x < t.nextId then 1 else 0 {
      assert OwnedOnce(s, x);
    }
  }

  // ---- accounting and change bits ----

  /**
   In every run, completions are accounted in launch order, each at most once, and at most the last launch is still to
   be accounted; without an abort it is accounted unless it is still outstanding, and on clean completion all are.
   */
  lemma EachLaunchAccountedOnce(cfg: Config, states: seq<State>, actions: seq<Action>, i: nat)
    requires IsRun(cfg, states, actions) && i < |states|
    ensures var s := states[i];
            && |s.accounted| <= |s.launched| <= |s.accounted| + 1
            && (forall k :: 0 <= k < |s.accounted| ==> s.accounted[k] == s.launched[k].id)
            && (!s.aborted && |s.accounted| < |s.launched| ==> Outstanding(s))
            && (s.vd.Completed? && Clean(s) ==> |s.accounted| == |s.launched|)
  {
    hide IsRun, EngineOk, TurnOk, LazyOk, ShadowOk, OrderOk, CoverOk, ReleaseOk, Conserved;
    RunKeeps(cfg, states, actions, i);
    if states[i].vd.Completed? && Clean(states[i]) { CompletedExecuted(cfg, states[i]); }
  }

  /**
   In every run that completes the cookie without abort, stop request or hardware error, whether its copies were safe
   or not, the launched chunks cover the whole list once and in order, and each of them was accounted.
   */
  lemma CompletedLaunchesCover(cfg: Config, states: seq<State>, actions: seq<Action>, i: nat)
    requires IsRun(cfg, states, actions) && i < |states| && states[i].vd.Completed? && Clean(states[i])
    ensures Denote(Flat(states[i].launched)) == CopyOf(cfg.dir, cfg.sg, cfg.base)
    ensures |states[i].accounted| == |states[i].launched|
  {
    hide IsRun, Denote, CopyOf, Inv, Flat, Chain, AllGood;
    var s := states[i];
    RunKeeps(cfg, states, actions, i);
    CompletedExecuted(cfg, s);
    InvWellFormed(cfg, s);
    ChainDenotes(cfg, s.launched);
    assert cfg.sg[..|cfg.sg|] == cfg.sg;
    EachLaunchAccountedOnce(cfg, states, actions, i);
  }

  lemma ChangeBitsAlternate(cfg: Config, states: seq<State>, actions: seq<Action>, i: nat, k: nat)
    requires IsRun(cfg, states, actions) && i < |states| && k + 1 < |states[i].launched|
    ensures states[i].launched[k + 1].cb == !states[i].launched[k].cb
  {
    hide IsRun, AllGood, Flat, TurnOk, LazyOk, ShadowOk, StopOk, AccountOk, OrderOk, CoverOk, ReleaseOk, Conserved,
         WellFormed;
    RunKeeps(cfg, states, actions, i);
  }

  // ---- progress of the refills ----

  lemma {:induction false} ChainGrowsByEntries(cfg: Config, cs: seq<Chunk>, k: nat)
    requires Chain(cs) && AllGood(cfg, cs) && k < |cs|
    ensures k < cs[k].hi <= |cfg.sg|
  {
    hide Exact;
    assert Good(cfg, cs[k]);
    GoodNonEmpty(cfg, cs[k]);
    if k > 0 {
      ChainGrowsByEntries(cfg, cs, k - 1);
      assert cs[k - 1 + 1].lo == cs[k - 1].hi;
    }
  }

  lemma OrderFacts(cfg: Config, s: State)
    requires Inv(cfg, s)
    ensures Chain(s.launched) && AllGood(cfg, s.launched)
    ensures Clean(s) && s.launched != [] ==> s.allocSz == Total(cfg, 0, Last(s).hi)
  {
    hide Exact, Holds, Flat, LazyOk, ShadowOk, StopOk, AccountOk, ReleaseOk, Conserved, Chain, AllGood, Alternates,
         Accounts, Total, WellFormed;
  }

  /**
   In every run, every doorbell takes up where the previous one left off and strictly reduces what remains, so there
   are at most as many launches as entries; without abort, stop or error the byte counter is exactly what the launched
   chunks describe.
   */
  lemma LaunchesAdvance(cfg: Config, states: seq<State>, actions: seq<Action>, i: nat)
    requires IsRun(cfg, states, actions) && i < |states| && states[i].launched != []
    ensures var s := states[i];
            && s.launched[0].lo == 0
            && (forall k :: 0 < k < |s.launched| ==>
                s.launched[k].lo == s.launched[k - 1].hi < s.launched[k].hi <= |cfg.sg|)
            && |s.launched| <= |cfg.sg|
            && (Clean(s) ==> s.allocSz == Total(cfg, 0, Last(s).hi))
  {
    hide IsRun, Inv, Exact, Total;
    RunKeeps(cfg, states, actions, i);
    var s := states[i];
    OrderFacts(cfg, s);
    ChainGrowsByEntries(cfg, s.launched, |s.launched| - 1);
    forall k | 0 < k < |s.launched| ensures s.launched[k].lo == s.launched[k - 1].hi < s.launched[k].hi <= |cfg.sg| {
      assert Good(cfg, s.launched[k]);
      GoodNonEmpty(cfg, s.launched[k]);
      assert s.launched[k - 1 + 1].lo == s.launched[k - 1].hi;
    }
  }

  // ---- what has been moved so far ----

  predicate Prefix<T(==)>(a: seq<T>, b: seq<T>) {
    |a| <= |b| && a == b[..|a|]
  }

  lemma PrefixOf<T>(a: seq<T>, b: seq<T>)
    ensures Prefix(a, a + b)
  {
  }

  /** Some chunks, then part of the next one: a prefix of the copy. */
  lemma PartialDenotes(cfg: Config, cs: seq<Chunk>, at: nat)
    requires WellFormed(cfg) && cs != [] && Chain(cs) && AllGood(cfg, cs) && at <= |cs[|cs| - 1].bursts|
    ensures Prefix(Denote(Flat(cs[..|cs| - 1]) + cs[|cs| - 1].bursts[..at]), CopyOf(cfg.dir, cfg.sg, cfg.base))
  {
    hide CopyOf, Denote, Chain, AllGood, Prefix;
    var n := |cs| - 1;
    var front, bs := Flat(cs[..n]), cs[n].bursts;
    var hi := cs[n].hi;
    ChainDenotes(cfg, cs);
    assert bs == bs[..at] + bs[at..];
    assert front + bs == (front + bs[..at]) + bs[at..];
    DenoteAppend(front + bs[..at], bs[at..]);
    var done, rest := Denote(front + bs[..at]), Denote(bs[at..]);
    CopySplit(cfg.dir, cfg.sg, 0, hi, |cfg.sg|, cfg.base);
    assert cfg.sg[0..hi] == cfg.sg[..hi] && cfg.sg[0..|cfg.sg|] == cfg.sg;
    var later := CopyOf(cfg.dir, cfg.sg[hi..|cfg.sg|], cfg.base + Bytes(cfg.sg[0..hi]));
    Assoc(done, rest, later);
    PrefixOf(done, rest + later);
  }

  lemma ExecutedFacts(cfg: Config, s: State)
    requires Inv(cfg, s) && !s.overrun
    ensures s.launched == [] ==> s.executed == []
    ensures s.launched != [] ==>
              exists at: nat ::
                at <= |Last(s).bursts| && s.executed == Flat(s.launched[..|s.launched| - 1]) + Last(s).bursts[..at]
  {
    hide Exact, Holds, LazyOk, ShadowOk, StopOk, AccountOk, ReleaseOk, Conserved, OrderOk, CoverOk, AllGood,
         Alternates, WellFormed;
    if s.launched != [] && s.engine.Stopped? {
      FlatLast(s);
      TakeAll(Last(s).bursts);
    }
  }

  /**
   In every run whose copies were safe so far, whatever is aborted, stopped or fails, what the engine has moved is a
   prefix of the copy the list asks for: no byte is ever moved to or from a wrong place, out of order, or twice.
   */
  lemma ExecutedIsPrefix(cfg: Config, states: seq<State>, actions: seq<Action>, i: nat)
    requires IsRun(cfg, states, actions) && i < |states| && SafeCopies(states, actions, i)
    ensures Prefix(Denote(states[i].executed), CopyOf(cfg.dir, cfg.sg, cfg.base))
  {
    hide IsRun, Inv, SafeCopies, CopyOf, Chain, AllGood, Flat;
    RunKeeps(cfg, states, actions, i);
    SafeRun(cfg, states, actions, i);
    var s := states[i];
    InvWellFormed(cfg, s);
    OrderFacts(cfg, s);
    ExecutedFacts(cfg, s);
    if s.launched != [] {
      var at: nat :|
        at <= |Last(s).bursts| && s.executed == Flat(s.launched[..|s.launched| - 1]) + Last(s).bursts[..at];
      PartialDenotes(cfg, s.launched, at);
    }
  }

  // ---- fills of the shadow chunk ----

  /** A successful fill is possible on a shadow chunk that already has bursts. */
  ghost predicate FillsAgain(cfg: Config, s: State) {
    IsFilled(s.shadowChunk) && exists r: FillResult :: r.FillOk? && BuildEnabled(cfg, s, ShadowFill(r))
  }

  /** Entries are left, and the chunk has room for the empty burst that is linked first and one more. */
  predicate Room(cfg: Config, s: State) {
    s.shadowPos < |cfg.sg| && s.shadowChunk.Some? && |s.shadowChunk.value.bursts| + 2 <= cfg.llMax
  }

  /** How many entries a fill of the shadow chunk asks for. */
  function ShadowWants(cfg: Config, s: State): nat
    requires s.shadowChunk.Some? && s.shadowPos <= |cfg.sg|
  {
    Chunks.Wanted(|cfg.sg| - s.shadowPos, |Restarted(s.shadowChunk.value.bursts)|, cfg.llMax, cfg.llMax)
  }

  /** The test of the fill admits the next entries: see `Chunks.CanFillIff`. */
  ghost predicate NextFillable(cfg: Config, s: State) {
    s.shadowChunk.Some? && s.shadowPos <= |cfg.sg| && Chunks.Fillable(cfg.sg, s.shadowPos, ShadowWants(cfg, s))
  }

  lemma FillPossible(cfg: Config, s: State)
    requires WellFormed(cfg) && s.worker.WFill? && IsFilled(s.shadowChunk)
    ensures FillsAgain(cfg, s) <==> NextFillable(cfg, s)
  {
    hide Bytes, Chunks.Fills, Chunks.Fillable, WellFormed;
    if s.shadowPos <= |cfg.sg| {
      var lo, before := s.shadowPos, s.shadowChunk.value.bursts;
      RestBounds(cfg, lo);
      var from := Chunks.Cursor(lo, |cfg.sg| - lo, Addr(cfg, lo));
      var start := Restarted(before);
      Chunks.CanFillIff(cfg.dir, cfg.sg, from, start, cfg.llMax);
      if NextFillable(cfg, s) {
        var hi :| Chunks.CanFillTo(cfg.dir, cfg.sg, from, start, cfg.llMax, hi);
        var bs :| Chunks.Fills(cfg.dir, cfg.sg, from, start, cfg.llMax, hi, bs);
        FillNextAllowed(cfg, s, lo, Some(BurstPool.Dynamic), before, hi, bs, 0);
        assert BuildEnabled(cfg, s, ShadowFill(FillOk(hi, bs, 0)));
      }
      if FillsAgain(cfg, s) {
        var r: FillResult :| r.FillOk? && BuildEnabled(cfg, s, ShadowFill(r));
        assert Chunks.Fills(cfg.dir, cfg.sg, from, start, cfg.llMax, r.hi, r.bursts);
        assert Chunks.CanFillTo(cfg.dir, cfg.sg, from, start, cfg.llMax, r.hi);
      }
    }
  }

  lemma RestBounds(cfg: Config, lo: nat)
    requires WellFormed(cfg) && lo <= |cfg.sg|
    ensures Addr(cfg, lo) + Bytes(cfg.sg[lo..]) <= U64_MAX && Bytes(cfg.sg[lo..]) <= U32_MAX
  {
    hide Bytes;
    SliceBytes(cfg, lo, |cfg.sg|);
    assert cfg.sg[lo..|cfg.sg|] == cfg.sg[lo..] && cfg.sg[..|cfg.sg|] == cfg.sg;
  }

  /**
   The next entry must be addressable and there must be room for it; if all entries left are addressable, room is
   enough.
   */
  lemma FillableNeeds(cfg: Config, s: State)
    requires IsFilled(s.shadowChunk)
    ensures NextFillable(cfg, s) ==> Room(cfg, s) && cfg.sg[s.shadowPos].addr + cfg.sg[s.shadowPos].len <= U64_MAX
    ensures Chunks.HostFits(cfg.sg, s.shadowPos, |cfg.sg|) ==> (NextFillable(cfg, s) <==> Room(cfg, s))
  {
    hide Chunks.Gap;
    if Room(cfg, s) && Chunks.HostFits(cfg.sg, s.shadowPos, |cfg.sg|) {
      assert Chunks.HostFits(cfg.sg, s.shadowPos, s.shadowPos + ShadowWants(cfg, s));
    }
  }

  lemma BeginShadow(cfg: Config, s: State)
    requires Inv(cfg, s) && s.shadowQueued && s.worker.WIdle?
    ensures IsFilled(s.shadowChunk) && !s.shadowState.IsrPending? ==> s.shadowState.Idle? || s.shadowState.Cancelled?
    ensures IsFilled(s.shadowChunk) && !s.aborted && (cfg.stopBeforeDone || !s.stopSeen) ==> s.shadowState.IsrPending?
  {
    hide Exact, Holds, EngineOk, TurnOk, LazyOk, AccountOk, OrderOk, CoverOk, ReleaseOk, Conserved, WellFormed;
  }

  lemma BeginTakes(cfg: Config, s: State)
    requires s.worker.WIdle? && IsFilled(s.shadowChunk)
    ensures s.shadowState.IsrPending? ==> !DoShadowBegin(s).worker.WFill?
    ensures !s.shadowState.IsrPending? ==>
              DoShadowBegin(s) == s.(shadowQueued := false, worker := WFill(s.shadowChunk.value.id))
  {
    if s.shadowState.IsrPending? { assert DoShadowBegin(s).worker.WPrecopy?; }
  }

  /**
   Exactly when a queued pass can fill a chunk that is already filled: it finds one left behind in state idle or
   cancelled, and the next entries pass the fill's address test as far as it goes.  That takes room in the chunk and
   an addressable entry, and if all entries left are addressable, room is all it takes.
   */
  lemma FillsAgainIff(cfg: Config, states: seq<State>, actions: seq<Action>, i: nat)
    requires IsRun(cfg, states, actions) && i < |states| && states[i].shadowQueued && states[i].worker.WIdle?
    requires IsFilled(states[i].shadowChunk)
    ensures var s := states[i];
            var left := s.shadowState.Idle? || s.shadowState.Cancelled?;
            var again := FillsAgain(cfg, DoShadowBegin(s));
            && (again <==> left && NextFillable(cfg, s))
            && (again ==> left && Room(cfg, s) && cfg.sg[s.shadowPos].addr + cfg.sg[s.shadowPos].len <= U64_MAX)
            && (Chunks.HostFits(cfg.sg, s.shadowPos, |cfg.sg|) ==> (again <==> left && Room(cfg, s)))
  {
    hide IsRun, Inv, FillsAgain, DoShadowBegin, Chunks.Fillable, Chunks.HostFits;
    RunKeeps(cfg, states, actions, i);
    var s := states[i];
    InvWellFormed(cfg, s);
    BeginShadow(cfg, s);
    BeginTakes(cfg, s);
    FillableNeeds(cfg, s);
    if s.shadowState.IsrPending? {
      NotFilling(cfg, DoShadowBegin(s));
    } else {
      FillPossible(cfg, DoShadowBegin(s));
    }
  }

  lemma NotFilling(cfg: Config, s: State)
    requires !s.worker.WFill?
    ensures !FillsAgain(cfg, s)
  {
  }

  lemma FillingUnfilled(cfg: Config, s: State)
    requires Inv(cfg, s) && !s.aborted && (cfg.stopBeforeDone || !s.stopSeen) && s.worker.WFill?
    ensures s.shadowChunk.Some? && s.shadowChunk.value.bursts == []
  {
    hide Exact, Holds, EngineOk, TurnOk, LazyOk, AccountOk, OrderOk, CoverOk, ReleaseOk, Conserved, WellFormed;
  }

  /**
   Without an abort, no fill ever meets a filled chunk, even when interrupts come between the start of a pass and its
   fill: in every run if Done is raised only by a stopped engine, and in every run without a stop request if not.
   */
  lemma NoFillOfFilled(cfg: Config, states: seq<State>, actions: seq<Action>, i: nat)
    requires IsRun(cfg, states, actions) && i < |states| && states[i].worker.WFill?
    requires !states[i].aborted && (cfg.stopBeforeDone || !states[i].stopSeen)
    ensures states[i].shadowChunk.Some? && states[i].shadowChunk.value.bursts == []
  {
    hide IsRun, Inv;
    RunKeeps(cfg, states, actions, i);
    FillingUnfilled(cfg, states[i]);
  }
}
