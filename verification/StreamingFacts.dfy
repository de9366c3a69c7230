/** Facts about single chunks and memories used by the protocol proof. */
module StreamingFacts {
  import opened Basics
  import opened Copy
  import opened DescriptorTable
  import Chunks
  import BurstPool
  import opened Streaming
  import opened StreamingInvariant

  lemma AddrBounds(cfg: Config, p: nat)
    requires p <= |cfg.sg|
    ensures Bytes(cfg.sg[..p]) <= Bytes(cfg.sg)
  {
    CopySplit(cfg.dir, cfg.sg, 0, p, |cfg.sg|, 0);
    assert cfg.sg[0..p] == cfg.sg[..p] && cfg.sg[0..|cfg.sg|] == cfg.sg;
  }

  lemma SliceBytes(cfg: Config, lo: nat, hi: nat)
    requires lo <= hi <= |cfg.sg|
    ensures Bytes(cfg.sg[..hi]) == Bytes(cfg.sg[..lo]) + Bytes(cfg.sg[lo..hi])
  {
    CopySplit(cfg.dir, cfg.sg, 0, lo, hi, 0);
    assert cfg.sg[0..lo] == cfg.sg[..lo] && cfg.sg[0..hi] == cfg.sg[..hi];
  }

  /**
   The fill steps of the protocol are what `Chunks.FillNext` establishes, on an empty chunk and on one that is already
   filled: such a list is an allowed fill result, and the byte count of a shadow build becomes the one it returns.
   */
  lemma FillNextAllowed(cfg: Config, s: State, lo: nat, head: Option<BurstPool.Slot>, before: seq<Burst>, hi: nat,
                        bs: seq<Burst>, taken: nat)
    requires lo <= |cfg.sg| && Addr(cfg, lo) <= U64_MAX && taken <= s.poolFree && (head.None? <==> before == [])
    requires Chunks.Fills(cfg.dir, cfg.sg, Chunks.Cursor(lo, |cfg.sg| - lo, Addr(cfg, lo)),
                          Chunks.Started(head, before), cfg.llMax, hi, bs)
    ensures FillAllowed(cfg, s, lo, before, FillOk(hi, bs, taken))
    ensures s.shadowPos == lo && s.worker.WFill? && s.shadowChunk.Some? ==>
              DoShadowFill(cfg, s, FillOk(hi, bs, taken)).shadowAllocSz
              == (s.shadowAllocSz + Bytes(cfg.sg[lo..hi])) % WORD
  {
    hide Bytes, Chunks.AddAll, Chunks.HostFits, Chunks.CanStarve;
    var start, addr := Restarted(before), Addr(cfg, lo);
    FillsBound(cfg, lo, hi);
    Chunks.AddAllLength(cfg.dir, start, cfg.sg[lo..hi], addr);
  }

  /** So is a fill without result, whose entries are counted all the same. */
  lemma FillNextRefused(cfg: Config, s: State, lo: nat, head: Option<BurstPool.Slot>, before: seq<Burst>, hi: nat)
    requires lo <= |cfg.sg| && Addr(cfg, lo) <= U64_MAX && (head.None? <==> before == [])
    requires Chunks.Fails(cfg.sg, Chunks.Cursor(lo, |cfg.sg| - lo, Addr(cfg, lo)), Chunks.Started(head, before),
                          cfg.llMax, hi)
    ensures FillAllowed(cfg, s, lo, before, FillFail(hi))
    ensures s.shadowPos == lo && s.worker.WFill? && s.shadowChunk.Some? ==>
              DoShadowFill(cfg, s, FillFail(hi)).shadowAllocSz == (s.shadowAllocSz + Bytes(cfg.sg[lo..hi])) % WORD
  {
    hide Bytes, Free, Chunks.HostFits, Chunks.FitsAt, Chunks.Wanted;
  }

  lemma FillsBound(cfg: Config, lo: nat, hi: nat)
    requires lo < hi <= |cfg.sg|
    ensures |cfg.sg[lo..hi]| == hi - lo && Bytes(cfg.sg[lo..hi][..hi - lo - 1]) <= Bytes(cfg.sg[lo..hi])
  {
    hide Bytes;
    assert cfg.sg[lo..hi][..hi - lo - 1] == cfg.sg[lo..hi - 1];
    Chunks.BytesSnoc(cfg.sg, lo, hi - 1);
  }

  /** A fill of an empty chunk consumes its entries exactly. */
  lemma FreshFill(cfg: Config, lo: nat, hi: nat, bs: seq<Burst>)
    requires FillsFrom(cfg, lo, [], hi, bs)
    ensures FilledFrom(cfg, lo, hi, bs)
  {
    hide Bytes, Chunks.AddAll, Chunks.HostFits, Chunks.CanStarve, Chunks.Filled;
    var from := Chunks.Cursor(lo, |cfg.sg| - lo, Addr(cfg, lo));
    var to := Chunks.CursorAt(cfg.sg, from, hi);
    Chunks.ExtendsEmpty(cfg.dir, from.addr);
    Chunks.ConsumedMeans(cfg.dir, cfg.sg, from, to, [], bs, 0, Bytes(cfg.sg[lo..hi]) % WORD);
    Chunks.AddAllLength(cfg.dir, [], cfg.sg[lo..hi], from.addr);
  }

  /** A chunk as the fill leaves it is exact. */
  lemma FilledExact(cfg: Config, lo: nat, hi: nat, bs: seq<Burst>)
    requires WellFormed(cfg) && FilledFrom(cfg, lo, hi, bs)
    ensures Exact(cfg, lo, hi, bs)
  {
    hide CopyOf, Bytes;
    assert Denote([]) == [] && Size([]) == 0;
    assert lo + (hi - lo) == hi;
    SliceBytes(cfg, lo, hi);
    AddrBounds(cfg, hi);
  }

  /** Writing a chunk out keeps it exact. */
  lemma MergedExact(cfg: Config, lo: nat, hi: nat, bs: seq<Burst>)
    requires Exact(cfg, lo, hi, bs)
    ensures Exact(cfg, lo, hi, Merge(cfg.dir, bs))
  {
    hide CopyOf, Bytes, Placed, RunsFit;
    SmallListFits(cfg.dir, bs);
    MergePreservesCopyIff(cfg.dir, bs);
    MergeSize(cfg.dir, bs[0], bs[1..]);
  }

  lemma WrittenGood(cfg: Config, c: Chunk, back: nat)
    requires Good(cfg, c) && back <= c.held
    ensures Good(cfg, Written(cfg, c, back)) && Written(cfg, c, back).bursts != []
    ensures Written(cfg, c, back) == c.(bursts := Written(cfg, c, back).bursts, held := c.held - back)
  {
    hide Merge;
    MergedExact(cfg, c.lo, c.hi, c.bursts);
  }

  lemma GoodNonEmpty(cfg: Config, c: Chunk)
    requires Good(cfg, c)
    ensures c.bursts != [] && |c.bursts| <= cfg.llMax && c.lo < c.hi <= |cfg.sg|
  {
  }

  lemma WriteHolds(cfg: Config, s: State, c: Chunk)
    requires |s.host| == cfg.llMax + 1 && |c.bursts| <= cfg.llMax
    ensures Holds(cfg, WriteHost(cfg, s, c), c) && |WriteHost(cfg, s, c)| == |s.host|
  {
    hide Emit;
    var e := Emit(c.bursts, c.cb, cfg.target);
    assert (e + s.host[|e|..])[..|e|] == e;
  }

  /** Writing a chunk into the host buffer: a good chunk stays good and the buffer then holds its table. */
  lemma WrittenFacts(cfg: Config, s: State, c: Chunk, back: nat)
    requires back <= c.held && |s.host| == cfg.llMax + 1
    ensures var w := Written(cfg, c, back);
            && w == c.(bursts := w.bursts, held := c.held - back)
            && |WriteHost(cfg, s, w)| == |s.host|
            && (Good(cfg, c) ==>
                  c.bursts != [] && Good(cfg, w) && w.bursts != [] && Holds(cfg, WriteHost(cfg, s, w), w))
  {
    hide Merge, Emit, Exact;
    if Good(cfg, c) {
      GoodNonEmpty(cfg, c);
      WrittenGood(cfg, c, back);
      GoodNonEmpty(cfg, Written(cfg, c, back));
      WriteHolds(cfg, s, Written(cfg, c, back));
    }
  }

  lemma CopyHolds(cfg: Config, s: State, c: Chunk)
    requires |s.host| == |s.table| == cfg.llMax + 1 && Holds(cfg, s.host, c)
    ensures Holds(cfg, CopyTable(s, |c.bursts|), c) && |CopyTable(s, |c.bursts|)| == |s.table|
  {
    hide Emit;
    var e := s.host[..|c.bursts| + 1];
    assert (e + s.table[|e|..])[..|e|] == e;
  }

  lemma HoldsAt(cfg: Config, mem: seq<Elem>, c: Chunk, i: nat)
    requires Holds(cfg, mem, c) && i <= |c.bursts|
    ensures i < |mem|
    ensures i < |c.bursts| ==> mem[i] == GenLli(c.cb, c.bursts[i], |c.bursts| - 1 - i)
    ensures i == |c.bursts| ==> mem[i] == GenLlp(c.cb, cfg.target)
  {
    assert mem[i] == mem[..|c.bursts| + 1][i] == Emit(c.bursts, c.cb, cfg.target)[i];
  }

  lemma FlatLast(s: State)
    requires s.launched != []
    ensures Flat(s.launched) == Flat(s.launched[..|s.launched| - 1]) + Last(s).bursts
  {
  }

  lemma TakeAll<T>(s: seq<T>)
    ensures s[..|s|] == s && s[..0] == []
  {
  }

  /** A chunk in flight is the active one. */
  lemma HasChunk(cfg: Config, s: State)
    requires TurnOk(cfg, s) && s.xferStarted && s.vd.Issued?
    ensures s.active.Some?
  {
  }

  /** What ringing the doorbell for `c` adds to the history. */
  lemma RingFacts(cfg: Config, cs: seq<Chunk>, c: Chunk)
    requires Good(cfg, c) && AllGood(cfg, cs) && Alternates(cs)
    requires cs != [] ==> cs[|cs| - 1].cb != c.cb
    ensures c.bursts != [] && |c.bursts| <= cfg.llMax && c.lo < c.hi <= |cfg.sg|
    ensures (cs + [c])[..|cs|] == cs && c.bursts[..0] == [] && Flat(cs) + [] == Flat(cs)
    ensures AllGood(cfg, cs + [c]) && Alternates(cs + [c])
    ensures Chain(cs) && c.lo == (if cs == [] then 0 else cs[|cs| - 1].hi) ==> Chain(cs + [c])
  {
    hide Good, Flat, Alternates, AllGood, Chain;
    GoodNonEmpty(cfg, c);
    GoodGrows(cfg, cs, c);
    AlternatesGrows(cs, c);
    ChainGrows(cs, c);
  }

  lemma GoodGrows(cfg: Config, cs: seq<Chunk>, c: Chunk)
    requires Good(cfg, c) && AllGood(cfg, cs)
    ensures AllGood(cfg, cs + [c])
  {
    hide Good;
  }

  lemma AlternatesGrows(cs: seq<Chunk>, c: Chunk)
    requires Alternates(cs) && (cs != [] ==> cs[|cs| - 1].cb != c.cb)
    ensures Alternates(cs + [c])
  {
  }

  lemma ChainGrows(cs: seq<Chunk>, c: Chunk)
    ensures Chain(cs) && c.lo == (if cs == [] then 0 else cs[|cs| - 1].hi) ==> Chain(cs + [c])
  {
  }

  lemma AccountsGrows(ids: seq<nat>, cs: seq<Chunk>, c: Chunk)
    ensures Accounts(ids, cs) ==> Accounts(ids, cs + [c])
    ensures Accounts(ids, cs) && |ids| < |cs| ==> Accounts(ids + [cs[|ids|].id], cs)
  {
  }

  lemma TotalSlice(cfg: Config, lo: nat, mid: nat, hi: nat)
    requires lo <= mid <= hi <= |cfg.sg|
    ensures Bytes(cfg.sg[lo..hi]) == Bytes(cfg.sg[lo..mid]) + Bytes(cfg.sg[mid..hi])
    ensures Bytes(cfg.sg[hi..hi]) == 0
  {
    assert cfg.sg[hi..hi] == [];
    CopySplit(cfg.dir, cfg.sg, lo, mid, hi, 0);
  }

  /** Byte counts of adjacent slices add up without overflowing a 32-bit counter. */
  lemma TotalJoin(cfg: Config, lo: nat, mid: nat, hi: nat)
    requires WellFormed(cfg)
    ensures lo <= mid <= hi <= |cfg.sg| ==>
              && (Total(cfg, lo, mid) + Total(cfg, mid, hi)) % WORD == Total(cfg, lo, hi)
              && (Total(cfg, lo, mid) + Bytes(cfg.sg[mid..hi])) % WORD == Total(cfg, lo, hi)
              && Total(cfg, hi, hi) == 0
  {
    hide Bytes;
    if lo <= mid <= hi <= |cfg.sg| {
      TotalSlice(cfg, lo, mid, hi);
      SliceBytes(cfg, lo, hi);
      AddrBounds(cfg, hi);
    }
  }

  /** Nothing about ownership changed. */
  lemma SameOwners(cfg: Config, s: State, t: State)
    requires Conserved(cfg, s)
    requires t.active == s.active && OwnedShadow(t) == OwnedShadow(s) && t.shadowNext == s.shadowNext
    requires WorkerNext(t) == WorkerNext(s) && RefillChunk(t) == RefillChunk(s)
    requires t.cleanup == s.cleanup && t.freed == s.freed && t.nextId == s.nextId
    requires t.poolFree == s.poolFree && t.cleanupHeld == s.cleanupHeld
    ensures Conserved(cfg, t)
  {
    forall x: nat ensures OwnedOnce(t, x) { assert OwnedOnce(s, x); }
  }

  // ---- what the engine part of the invariant needs ----

  /** Nothing the engine part of the invariant speaks about changed. */
  lemma SameEngine(cfg: Config, s: State, t: State)
    requires EngineOk(cfg, s)
    requires t.host == s.host && t.table == s.table && t.engine == s.engine && t.doneBit == s.doneBit
    requires t.xferStarted == s.xferStarted
    requires t.launched == s.launched && t.executed == s.executed && t.overrun == s.overrun && (s.aborted ==> t.aborted)
    ensures EngineOk(cfg, t)
  {
    hide Holds, Flat, AllGood, Alternates;
  }

  /** A table written while no chunk is in flight. */
  lemma OverwrittenEngine(cfg: Config, s: State, t: State)
    requires EngineOk(cfg, s) && cfg.mode.Shadow? && !s.xferStarted && |t.table| == |s.table|
    requires t.overrun == (s.overrun || Overruns(s, t.table))
    requires t.host == s.host && t.engine == s.engine && t.doneBit == s.doneBit && !t.xferStarted
    requires t.launched == s.launched && t.executed == s.executed && t.aborted == s.aborted
    ensures EngineOk(cfg, t) && Rewritten(cfg, s, t)
  {
    hide Holds, Flat, AllGood, Alternates, Exact;
    if !s.overrun && s.engine.Running? {
      EngineInTable(cfg, s);
    }
  }

  /** A running engine reads inside the table. */
  lemma EngineInTable(cfg: Config, s: State)
    requires EngineOk(cfg, s) && !s.overrun && s.engine.Running?
    ensures s.engine.at < |s.table|
  {
    hide Flat, Alternates;
    if !s.engine.irq { HoldsAt(cfg, s.table, Last(s), s.engine.at); }
  }

  /** With no chunk in flight and no abort, everything launched has been executed. */
  lemma AllExecuted(cfg: Config, s: State)
    requires EngineOk(cfg, s) && !s.xferStarted && !s.aborted && !s.overrun
    ensures s.executed == Flat(s.launched) && EngineDone(s, s.table)
  {
    hide Holds, Flat, AllGood, Alternates;
    if s.engine.Running? {
      FlatLast(s);
      TakeAll(Last(s).bursts);
    }
  }
}
