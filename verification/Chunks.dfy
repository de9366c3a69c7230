/**
 Chunks: a list of bursts filled from a scatter-gather cursor (`dw_edma_fill_sg_bursts`) and written
 out as a descriptor table (`dw_edma_v0_core_write_chunk`).  Burst storage is drawn from and returned
 to the shared pool.
 */
module Chunks {
  import opened Basics
  import opened Copy
  import opened BurstPool
  import opened DescriptorTable

  class Chunk {
    var head: Option<Slot>      // chunk->burst: list anchor, never executed
    var bursts: seq<Burst>      // its children, one descriptor each
    var slots: seq<Slot>        // the storage behind each child
    var burstsAlloc: nat
    var cb: bool
    ghost var owned: set<nat>   // the pool indices behind the chunk

    constructor (cb: bool)
      ensures Valid() && head == None && bursts == [] && this.cb == cb
    {
      head, bursts, slots, burstsAlloc, this.cb := None, [], [], 0, cb;
      owned := {};
    }

    /** The storage behind the chunk, the anchor first. */
    ghost function All(): seq<Slot>
      reads this
    {
      (if head.Some? then [head.value] else []) + slots
    }

    ghost predicate Valid()
      reads this
    {
      && burstsAlloc == |bursts| == |slots|
      && (head.None? ==> bursts == [])
      && Separate(All())
      && owned == Held(All(), |All()|)
    }
  }

  ghost predicate Sound(pool: BurstPool, chunk: Chunk)
    reads pool, pool.freeList, chunk
  {
    pool.Valid() && chunk.Valid() && chunk.owned <= pool.out
  }

  lemma HeldSnoc(slots: seq<Slot>, s: Slot)
    ensures Held(slots + [s], |slots| + 1)
         == Held(slots, |slots|) + (if s.Pooled? then {s.idx} else {})
    ensures Separate(slots) && (s.Pooled? ==> s.idx !in Held(slots, |slots|)) ==> Separate(slots + [s])
  {
    var t := slots + [s];
    if s.Pooled? {
      assert t[|slots|] == s;
      assert s.idx in Held(t, |t|);
    }
    assert forall k :: 0 <= k < |slots| ==> t[k] == slots[k];
    forall x | x in Held(slots, |slots|) ensures x in Held(t, |t|) {
      var k :| 0 <= k < |slots| && slots[k].Pooled? && slots[k].idx == x;
      assert t[k] == slots[k];
    }
  }

  /** Obtains storage: pool first, then the dynamic fallback. */
  method AllocSlot(pool: BurstPool, dynamicOk: bool) returns (r: Option<Slot>)
    requires pool.Valid()
    modifies pool
    ensures pool.Valid()
    ensures r.None? <==> old(pool.freeCnt) == 0 && !dynamicOk
    ensures r.Some? && r.value.Pooled? ==> r.value.idx !in old(pool.out)
    ensures pool.out == old(pool.out) + (if r.Some? && r.value.Pooled? then {r.value.idx} else {})
  {
    var got := pool.AllocFromPool();
    match got {
      case Some(idx) => r := Some(Pooled(idx));
      case None => r := if dynamicOk then Some(Dynamic) else None;
    }
  }

  ghost function Added(slot: Slot): set<nat> {
    if slot.Pooled? then {slot.idx} else {}
  }

  /** Links storage as the last child, holding `b`. */
  method Link(chunk: Chunk, slot: Slot, b: Burst)
    requires chunk.Valid() && chunk.head.Some?
    requires Added(slot) !! chunk.owned
    modifies chunk
    ensures chunk.Valid() && chunk.head == old(chunk.head) && chunk.cb == old(chunk.cb)
    ensures chunk.bursts == old(chunk.bursts) + [b]
    ensures chunk.owned == old(chunk.owned) + Added(slot)
  {
    HeldSnoc(chunk.All(), slot);
    chunk.burstsAlloc := chunk.burstsAlloc + 1;
    chunk.bursts := chunk.bursts + [b];
    chunk.slots := chunk.slots + [slot];
    chunk.owned := chunk.owned + Added(slot);
    assert chunk.All() == old(chunk.All()) + [slot];
  }

  /** Storage becomes the list anchor of an empty chunk. */
  method Anchor(chunk: Chunk, slot: Slot)
    requires chunk.Valid() && chunk.head.None?
    modifies chunk
    ensures chunk.Valid() && chunk.head == Some(slot) && chunk.cb == old(chunk.cb) && chunk.bursts == []
    ensures old(chunk.owned) == {} && chunk.owned == Added(slot)
  {
    assert chunk.All() == [];
    HeldSnoc([], slot);
    chunk.burstsAlloc := 0;
    chunk.head := Some(slot);
    chunk.owned := Added(slot);
    assert chunk.All() == [] + [slot];
  }

  /** `dw_edma_alloc_burst`: links an empty burst, as the list anchor if there is none yet. */
  method AllocBurst(chunk: Chunk, pool: BurstPool, dynamicOk: bool) returns (ok: bool, ghost added: set<nat>)
    requires Sound(pool, chunk)
    modifies chunk, pool
    ensures Sound(pool, chunk)
    ensures ok <==> old(pool.freeCnt) > 0 || dynamicOk
    ensures chunk.cb == old(chunk.cb)
    ensures !ok ==> chunk.bursts == old(chunk.bursts) && chunk.head == old(chunk.head)
    ensures ok && old(chunk.head).None? ==> chunk.head.Some? && chunk.bursts == []
    ensures ok && old(chunk.head).Some? ==>
              chunk.head == old(chunk.head) && chunk.bursts == old(chunk.bursts) + [Burst(0, 0, 0)]
    ensures added !! old(pool.out) && pool.out == old(pool.out) + added && chunk.owned == old(chunk.owned) + added
  {
    var slot := AllocSlot(pool, dynamicOk);
    if slot.None? {
      return false, {};
    }
    added := Added(slot.value);
    if chunk.head.Some? {
      Link(chunk, slot.value, Burst(0, 0, 0));
    } else {
      Anchor(chunk, slot.value);
    }
    ok := true;
  }

  /** `dw_edma_free_burst`: children and anchor go back to the pool in one critical section. */
  method FreeBurst(chunk: Chunk, pool: BurstPool)
    requires Sound(pool, chunk)
    modifies chunk, pool, pool.freeList
    ensures Sound(pool, chunk)
    ensures chunk.head.None? && chunk.bursts == [] && chunk.owned == {} && chunk.cb == old(chunk.cb)
    ensures pool.out == old(pool.out) - old(chunk.owned)
  {
    if chunk.head.None? {
      assert chunk.All() == [];
      return;
    }
    pool.FreeBatch([chunk.head.value] + chunk.slots);
    chunk.bursts, chunk.slots, chunk.burstsAlloc, chunk.head := [], [], 0, None;
    chunk.owned := {};
    assert chunk.All() == [];
  }

  // ---- filling ----

  /** `dw_edma_can_merge_sg_burst`. */
  predicate CanMerge(dir: Dir, last: Burst, sg: Sg, addr: u64) {
    && sg.len != 0
    && sg.len <= U32_MAX - last.sz
    && last.sar <= U64_MAX - (last.sz + sg.len)
    && last.dar <= U64_MAX - (last.sz + sg.len)
    && Host(dir, last) + last.sz == sg.addr
    && Dev(dir, last) + last.sz == addr
  }

  /** The device address right behind a burst list. */
  ghost function DevEnd(dir: Dir, bs: seq<Burst>): nat
    requires bs != []
  {
    Dev(dir, bs[|bs| - 1]) + bs[|bs| - 1].sz
  }

  /** A list that a fill may extend at device address `addr`. */
  ghost predicate Extends(dir: Dir, bs: seq<Burst>, addr: nat) {
    Placed(dir, bs) && (bs != [] ==> DevEnd(dir, bs) == addr)
  }

  /** One entry added to a burst list: merged into the last burst, or a burst of its own. */
  function AddSg(dir: Dir, bs: seq<Burst>, sg: Sg, addr: u64): seq<Burst> {
    if bs != [] && CanMerge(dir, bs[|bs| - 1], sg, addr)
    then bs[..|bs| - 1] + [bs[|bs| - 1].(sz := bs[|bs| - 1].sz + sg.len)]
    else bs + [MakeBurst(dir, sg.addr, addr, sg.len)]
  }

  /** Entries added one after the other, the first one at device address `addr`. */
  function AddAll(dir: Dir, bs: seq<Burst>, entries: seq<Sg>, addr: nat): seq<Burst> {
    if entries == [] then bs
    else
      var n := |entries| - 1;
      var at := addr + Bytes(entries[..n]);
      if at > U64_MAX then bs else AddSg(dir, AddAll(dir, bs, entries[..n], addr), entries[n], at)
  }

  lemma AddAllSnoc(dir: Dir, bs: seq<Burst>, sgs: seq<Sg>, lo: nat, hi: nat, addr: nat)
    requires lo <= hi < |sgs| && addr + Bytes(sgs[lo..hi]) <= U64_MAX
    ensures AddAll(dir, bs, sgs[lo..hi + 1], addr)
         == AddSg(dir, AddAll(dir, bs, sgs[lo..hi], addr), sgs[hi], addr + Bytes(sgs[lo..hi]))
  {
    hide AddSg, Bytes;
    var all := sgs[lo..hi + 1];
    assert all[..|all| - 1] == sgs[lo..hi];
  }

  lemma {:induction false} AddAllLength(dir: Dir, bs: seq<Burst>, entries: seq<Sg>, addr: nat)
    ensures |bs| <= |AddAll(dir, bs, entries, addr)| <= |bs| + |entries|
    ensures entries != [] && addr + Bytes(entries[..|entries| - 1]) <= U64_MAX ==> AddAll(dir, bs, entries, addr) != []
  {
    if entries != [] { AddAllLength(dir, bs, entries[..|entries| - 1], addr); }
  }

  lemma AddSgMeans(dir: Dir, bs: seq<Burst>, sg: Sg, addr: u64)
    requires Extends(dir, bs, addr)
    requires addr <= U64_MAX - sg.len && sg.addr <= U64_MAX - sg.len
    ensures var r := AddSg(dir, bs, sg, addr);
            && Denote(r) == Denote(bs) + CopyOf(dir, [sg], addr)
            && Size(r) == Size(bs) + sg.len
            && Extends(dir, r, addr + sg.len)
            && r != []
  {
    var b := MakeBurst(dir, sg.addr, addr, sg.len);
    DenoteEntry(dir, sg, addr);
    DenoteOne(b);
    if bs != [] && CanMerge(dir, bs[|bs| - 1], sg, addr) {
      var i, last := bs[..|bs| - 1], bs[|bs| - 1];
      assert bs == i + [last];
      var joined := Burst(last.sar, last.dar, last.sz + sg.len);
      DenoteJoin(last, b, joined.sz);
      DenoteAppend(i, [last]);
      DenoteAppend(i, [joined]);
      DenoteOne(last);
      DenoteOne(joined);
      Assoc(Denote(i), Denote([last]), Denote([b]));
      AddSgMergePlaced(dir, bs, sg, addr);
    } else {
      DenoteAppend(bs, [b]);
      AddSgNewPlaced(dir, bs, sg, addr);
    }
  }

  lemma AddSgMergePlaced(dir: Dir, bs: seq<Burst>, sg: Sg, addr: u64)
    requires Extends(dir, bs, addr) && bs != [] && CanMerge(dir, bs[|bs| - 1], sg, addr)
    ensures Extends(dir, AddSg(dir, bs, sg, addr), addr + sg.len)
  {
    var r := AddSg(dir, bs, sg, addr);
    forall k | 0 <= k < |r| - 1 ensures Dev(dir, r[k]) + r[k].sz == Dev(dir, r[k + 1]) {
      assert r[k] == bs[k] && Dev(dir, r[k + 1]) == Dev(dir, bs[k + 1]);
    }
  }

  lemma AddSgNewPlaced(dir: Dir, bs: seq<Burst>, sg: Sg, addr: u64)
    requires Extends(dir, bs, addr) && addr <= U64_MAX - sg.len && sg.addr <= U64_MAX - sg.len
    ensures Extends(dir, bs + [MakeBurst(dir, sg.addr, addr, sg.len)], addr + sg.len)
  {
    var r := bs + [MakeBurst(dir, sg.addr, addr, sg.len)];
    forall k | 0 <= k < |r| - 1 ensures Dev(dir, r[k]) + r[k].sz == Dev(dir, r[k + 1]) {
      assert r[k] == bs[k];
      if k + 1 < |bs| { assert r[k + 1] == bs[k + 1]; }
    }
  }

  /** With positive lengths and at most U32_MAX bytes, neighbours never touch on the host side. */
  lemma AddSgSeparated(dir: Dir, bs: seq<Burst>, sg: Sg, addr: u64)
    requires Extends(dir, bs, addr) && Separated(dir, bs)
    requires addr <= U64_MAX - sg.len && sg.addr <= U64_MAX - sg.len
    requires sg.len > 0 && Size(bs) + sg.len <= U32_MAX
    ensures Separated(dir, AddSg(dir, bs, sg, addr))
  {
    var r := AddSg(dir, bs, sg, addr);
    if bs != [] {
      var last := bs[|bs| - 1];
      assert bs == bs[..|bs| - 1] + [last];
      DenoteAppend(bs[..|bs| - 1], [last]);
      DenoteOne(last);
      assert last.sar + last.sz <= U64_MAX && last.dar + last.sz <= U64_MAX;
      forall k | 0 <= k < |r| - 1 ensures Host(dir, r[k]) + r[k].sz != Host(dir, r[k + 1]) {
        assert r[k] == bs[k];
        if k + 1 < |bs| { assert Host(dir, r[k + 1]) == Host(dir, bs[k + 1]); }
      }
    }
  }

  /** Batch indices not yet used. */
  ghost function Left(batch: seq<nat>, used: nat): set<nat> {
    set k | used <= k < |batch| :: batch[k]
  }

  lemma LeftStep(batch: seq<nat>, used: nat)
    requires used < |batch| && Distinct(batch)
    ensures Left(batch, used) == {batch[used]} + Left(batch, used + 1) && batch[used] !in Left(batch, used + 1)
  {
  }

  /** The pool, the chunk and the unused part of a caller's batch do not overlap. */
  ghost predicate Apart(pool: BurstPool, chunk: Chunk, batch: seq<nat>, used: nat)
    reads pool, chunk
  {
    used <= |batch| && Distinct(batch) && Left(batch, used) <= pool.out && Left(batch, used) !! chunk.owned
  }

  /** Indices handed out that belong to neither the chunk nor the batch. */
  ghost function Spare(pool: BurstPool, chunk: Chunk, batch: seq<nat>, used: nat): set<nat>
    reads pool, chunk
  {
    pool.out - (chunk.owned + Left(batch, used))
  }

  /** Grows the last burst by `len` bytes. */
  method ExtendLast(chunk: Chunk, len: u32)
    requires chunk.Valid() && chunk.bursts != [] && len <= U32_MAX - chunk.bursts[|chunk.bursts| - 1].sz
    modifies chunk`bursts
    ensures chunk.Valid()
    ensures var last := old(chunk.bursts)[|old(chunk.bursts)| - 1];
            chunk.bursts == old(chunk.bursts)[..|old(chunk.bursts)| - 1] + [last.(sz := last.sz + len)]
  {
    var n := |chunk.bursts|;
    var last := chunk.bursts[n - 1];
    chunk.bursts := chunk.bursts[..n - 1] + [last.(sz := last.sz + len)];
  }

  /** A single allocation whose burst is initialised to `b` after linking. */
  method AddSingle(chunk: Chunk, pool: BurstPool, b: Burst, dynamicOk: bool) returns (ok: bool, ghost added: set<nat>)
    requires Sound(pool, chunk) && chunk.head.Some?
    modifies chunk, pool
    ensures Sound(pool, chunk) && chunk.head == old(chunk.head) && chunk.cb == old(chunk.cb)
    ensures ok <==> old(pool.freeCnt) > 0 || dynamicOk
    ensures chunk.bursts == if ok then old(chunk.bursts) + [b] else old(chunk.bursts)
    ensures added !! old(pool.out) && pool.out == old(pool.out) + added && chunk.owned == old(chunk.owned) + added
  {
    ok, added := AllocBurst(chunk, pool, dynamicOk);
    if ok {
      chunk.bursts := chunk.bursts[..|chunk.bursts| - 1] + [b];
    }
  }

  /** One iteration of the fill loop: merge the entry, or give it a burst from the batch or a single allocation. */
  method AddEntry(chunk: Chunk, pool: BurstPool, dir: Dir, sg: Sg, addr: u64, batch: seq<nat>, used: nat,
                  dynamicOk: bool)
    returns (ok: bool, used': nat)
    requires Sound(pool, chunk) && chunk.head.Some? && Apart(pool, chunk, batch, used)
    modifies chunk, pool
    ensures Sound(pool, chunk) && chunk.head == old(chunk.head) && chunk.cb == old(chunk.cb)
    ensures Apart(pool, chunk, batch, used') && used <= used'
    ensures chunk.bursts == if ok then AddSg(dir, old(chunk.bursts), sg, addr) else old(chunk.bursts)
    ensures used < |batch| || old(pool.freeCnt) > 0 || dynamicOk ==> ok
    ensures !ok ==> !(chunk.bursts != [] && CanMerge(dir, chunk.bursts[|chunk.bursts| - 1], sg, addr))
    ensures Spare(pool, chunk, batch, used') == old(Spare(pool, chunk, batch, used))
  {
    hide BurstPool.Valid, Chunk.Valid, Distinct, Left;
    used', ok := used, true;
    var n := |chunk.bursts|;
    if n > 0 && CanMerge(dir, chunk.bursts[n - 1], sg, addr) {
      ExtendLast(chunk, sg.len);
    } else {
      var b := MakeBurst(dir, sg.addr, addr, sg.len);
      if used < |batch| {
        LeftStep(batch, used);
        Link(chunk, Pooled(batch[used]), b);
        used' := used + 1;
      } else {
        ghost var added;
        ok, added := AddSingle(chunk, pool, b, dynamicOk);
      }
    }
  }

  /** Where a fill has got to: the next entry, how many are left, and the device address. */
  datatype Cursor = Cursor(pos: nat, remaining: nat, addr: u64)

  /** Entry `sgs[k]` stays inside the 64-bit address space on the host side. */
  ghost predicate HostFits(sgs: seq<Sg>, lo: nat, hi: nat)
    requires hi <= |sgs|
  {
    forall k :: lo <= k < hi ==> sgs[k].addr + sgs[k].len <= U64_MAX
  }

  /** What `n` consumed entries starting at `from` did to a burst list. */
  ghost predicate Filled(dir: Dir, sgs: seq<Sg>, from: Cursor, n: nat, before: seq<Burst>, after: seq<Burst>)
  {
    && from.pos + n <= |sgs|
    && from.addr + Bytes(sgs[from.pos..from.pos + n]) <= U64_MAX
    && Denote(after) == Denote(before) + CopyOf(dir, sgs[from.pos..from.pos + n], from.addr)
    && Size(after) == Size(before) + Bytes(sgs[from.pos..from.pos + n])
    && Extends(dir, after, from.addr + Bytes(sgs[from.pos..from.pos + n]))
    && |before| <= |after| <= |before| + n
    && (n > 0 ==> after != [])
    && (n == 0 ==> after == before)
  }

  ghost predicate AllPositive(sgs: seq<Sg>, lo: nat, hi: nat)
    requires hi <= |sgs|
  {
    forall k :: lo <= k < hi ==> sgs[k].len > 0
  }

  /** The conditions under which a fill keeps neighbours apart on the host side. */
  ghost predicate StaysSeparated(dir: Dir, sgs: seq<Sg>, lo: nat, hi: nat, before: seq<Burst>, after: seq<Burst>) {
    hi <= |sgs| && Separated(dir, before) && AllPositive(sgs, lo, hi) && Size(after) <= U32_MAX
  }

  /** The list has `n` more entries, and every byte of them has a 64-bit address on both sides. */
  ghost predicate Addressable(sgs: seq<Sg>, from: Cursor, n: nat) {
    && from.pos + n <= |sgs|
    && HostFits(sgs, from.pos, from.pos + n)
    && from.addr + Bytes(sgs[from.pos..from.pos + n]) <= U64_MAX
  }

  lemma FilledStep(dir: Dir, sgs: seq<Sg>, from: Cursor, n: nat, before: seq<Burst>, mid: seq<Burst>, addr: u64)
    requires Filled(dir, sgs, from, n, before, mid) && from.pos + n < |sgs|
    requires addr == from.addr + Bytes(sgs[from.pos..from.pos + n])
    requires addr <= U64_MAX - sgs[from.pos + n].len && sgs[from.pos + n].addr <= U64_MAX - sgs[from.pos + n].len
    ensures Filled(dir, sgs, from, n + 1, before, AddSg(dir, mid, sgs[from.pos + n], addr))
    ensures Bytes(sgs[from.pos..from.pos + n + 1]) == Bytes(sgs[from.pos..from.pos + n]) + sgs[from.pos + n].len
  {
    hide CopyOf, Denote, Placed, Size;
    var lo, hi := from.pos, from.pos + n;
    var sg := sgs[hi];
    assert sgs[hi..hi + 1] == [sg];
    CopySplit(dir, sgs, lo, hi, hi + 1, from.addr);
    DenoteEntry(dir, sg, addr);
    AddSgMeans(dir, mid, sg, addr);
    Assoc(Denote(before), CopyOf(dir, sgs[lo..hi], from.addr), CopyOf(dir, [sg], addr));
  }

  lemma FilledNone(dir: Dir, sgs: seq<Sg>, from: Cursor, before: seq<Burst>)
    requires from.pos <= |sgs| && Extends(dir, before, from.addr)
    ensures Filled(dir, sgs, from, 0, before, before)
  {
    assert sgs[from.pos..from.pos] == [];
  }

  function Min3(a: nat, b: nat, c: nat): (r: nat)
    ensures r <= a && r <= b && r <= c && (r == a || r == b || r == c)
  {
    var m := if a <= b then a else b;
    if m <= c then m else c
  }

  /** The `bursts_alloc` counter, which equals the list length. */
  function ChunkSize(chunk: Chunk): (n: nat)
    requires chunk.Valid()
    reads chunk
    ensures n == |chunk.bursts|
  {
    chunk.burstsAlloc
  }

  method TakeBatch(chunk: Chunk, pool: BurstPool, need: nat) returns (batch: seq<nat>)
    requires Sound(pool, chunk)
    modifies pool
    ensures Sound(pool, chunk) && Apart(pool, chunk, batch, 0)
    ensures Spare(pool, chunk, batch, 0) == old(pool.out) - chunk.owned
    ensures batch == [] && need > 0 ==> old(pool.freeCnt) == 0 == pool.freeCnt
  {
    batch := pool.AllocBatch(need);
    assert Left(batch, 0) == set x | x in batch;
  }

  function BatchSlots(batch: seq<nat>, used: nat): seq<Slot>
    requires used <= |batch|
  {
    seq(|batch| - used, k requires 0 <= k < |batch| - used => Pooled(batch[used + k]))
  }

  lemma BatchHeld(batch: seq<nat>, used: nat)
    requires used <= |batch| && Distinct(batch)
    ensures var slots := BatchSlots(batch, used);
            Held(slots, |slots|) == Left(batch, used) && Separate(slots)
  {
    var slots := BatchSlots(batch, used);
    forall x | x in Left(batch, used) ensures x in Held(slots, |slots|) {
      var k :| used <= k < |batch| && batch[k] == x;
      assert slots[k - used] == Pooled(x);
    }
  }

  /** Unused batch bursts go straight back. */
  method ReturnBatch(chunk: Chunk, pool: BurstPool, batch: seq<nat>, used: nat)
    requires Sound(pool, chunk) && Apart(pool, chunk, batch, used)
    modifies pool, pool.freeList
    ensures Sound(pool, chunk)
    ensures pool.out - chunk.owned == old(Spare(pool, chunk, batch, used))
  {
    hide BurstPool.Valid, Chunk.Valid, Distinct, Left, Held, Separate;
    BatchHeld(batch, used);
    pool.FreeBatch(BatchSlots(batch, used));
  }

  lemma AddressableStep(sgs: seq<Sg>, from: Cursor, n: nat, m: nat)
    requires Addressable(sgs, from, m) && n < m
    ensures from.addr + Bytes(sgs[from.pos..from.pos + n]) + sgs[from.pos + n].len <= U64_MAX
    ensures sgs[from.pos + n].addr + sgs[from.pos + n].len <= U64_MAX
  {
    var lo, hi := from.pos, from.pos + n;
    CopySplit(Write, sgs, lo, hi, lo + m, 0);
    assert sgs[hi..lo + m][0] == sgs[hi];
  }

  lemma SeparatedStep(dir: Dir, sgs: seq<Sg>, from: Cursor, n: nat, before: seq<Burst>, mid: seq<Burst>, addr: u64)
    requires Filled(dir, sgs, from, n, before, mid) && from.pos + n < |sgs|
    requires addr == from.addr + Bytes(sgs[from.pos..from.pos + n])
    requires addr <= U64_MAX - sgs[from.pos + n].len && sgs[from.pos + n].addr <= U64_MAX - sgs[from.pos + n].len
    requires StaysSeparated(dir, sgs, from.pos, from.pos + n, before, mid) ==> Separated(dir, mid)
    ensures var after := AddSg(dir, mid, sgs[from.pos + n], addr);
            StaysSeparated(dir, sgs, from.pos, from.pos + n + 1, before, after) ==> Separated(dir, after)
  {
    hide Denote, CopyOf, Bytes, Placed, Separated;
    AddSgMeans(dir, mid, sgs[from.pos + n], addr);
    if StaysSeparated(dir, sgs, from.pos, from.pos + n + 1, before, AddSg(dir, mid, sgs[from.pos + n], addr)) {
      AddSgSeparated(dir, mid, sgs[from.pos + n], addr);
    }
  }

  lemma AddSgLength(dir: Dir, bs: seq<Burst>, sg: Sg, addr: u64)
    ensures |bs| <= |AddSg(dir, bs, sg, addr)| <= |bs| + 1
  {
  }

  lemma ModStep(a: nat, b: nat, c: nat)
    ensures ((a + b) % (U32_MAX + 1) + c) % (U32_MAX + 1) == (a + (b + c)) % (U32_MAX + 1)
  {
  }

  /** The outcome of consuming `n` entries: cursor, burst list and running byte count. */
  ghost predicate Progress(dir: Dir, sgs: seq<Sg>, from: Cursor, to: Cursor, before: seq<Burst>, after: seq<Burst>,
                           allocSz: u32, allocSz': u32)
  {
    && from.pos <= to.pos <= |sgs|
    && from.remaining - to.remaining == to.pos - from.pos
    && Filled(dir, sgs, from, to.pos - from.pos, before, after)
    && to.addr == from.addr + Bytes(sgs[from.pos..to.pos])
    && allocSz' == (allocSz + Bytes(sgs[from.pos..to.pos])) % (U32_MAX + 1)
    && (StaysSeparated(dir, sgs, from.pos, to.pos, before, after) ==> Separated(dir, after))
  }

  lemma ProgressNone(dir: Dir, sgs: seq<Sg>, from: Cursor, bs: seq<Burst>, allocSz: u32)
    requires from.pos <= |sgs| && Extends(dir, bs, from.addr)
    ensures Progress(dir, sgs, from, from, bs, bs, allocSz, allocSz)
  {
    FilledNone(dir, sgs, from, bs);
    assert sgs[from.pos..from.pos] == [];
  }

  lemma ProgressStep(dir: Dir, sgs: seq<Sg>, from: Cursor, to: Cursor, before: seq<Burst>, mid: seq<Burst>,
                     allocSz: u32, allocMid: u32)
    requires Progress(dir, sgs, from, to, before, mid, allocSz, allocMid)
    requires to.pos < |sgs| && to.remaining > 0 && FitsAt(sgs, to)
    ensures var sg := sgs[to.pos];
            Progress(dir, sgs, from, Cursor(to.pos + 1, to.remaining - 1, to.addr + sg.len), before,
                     AddSg(dir, mid, sg, to.addr), allocSz, (allocMid + sg.len) % WORD)
  {
    hide Filled, Separated, StaysSeparated, Bytes, AddSg;
    var n := to.pos - from.pos;
    FilledStep(dir, sgs, from, n, before, mid, to.addr);
    SeparatedStep(dir, sgs, from, n, before, mid, to.addr);
    ModStep(allocSz, Bytes(sgs[from.pos..to.pos]), sgs[to.pos].len);
  }

  // ---- the fill loop ----

  /** The entry at the cursor has 64-bit addresses on both sides. */
  predicate FitsAt(sgs: seq<Sg>, at: Cursor)
    requires at.pos < |sgs|
  {
    at.addr <= U64_MAX - sgs[at.pos].len && sgs[at.pos].addr <= U64_MAX - sgs[at.pos].len
  }

  /** Entries `from..to` were consumed, whatever the list was before: each was addressable and was added in turn. */
  ghost predicate Consumed(dir: Dir, sgs: seq<Sg>, from: Cursor, to: Cursor, before: seq<Burst>, after: seq<Burst>,
                           allocSz: u32, allocSz': u32)
  {
    && from.pos <= to.pos <= |sgs|
    && from.remaining - to.remaining == to.pos - from.pos
    && to.addr == from.addr + Bytes(sgs[from.pos..to.pos])
    && HostFits(sgs, from.pos, to.pos)
    && after == AddAll(dir, before, sgs[from.pos..to.pos], from.addr)
    && allocSz' == (allocSz + Bytes(sgs[from.pos..to.pos])) % WORD
  }

  lemma ConsumedNone(dir: Dir, sgs: seq<Sg>, from: Cursor, bs: seq<Burst>, allocSz: u32)
    requires from.pos <= |sgs|
    ensures Consumed(dir, sgs, from, from, bs, bs, allocSz, allocSz)
  {
    assert sgs[from.pos..from.pos] == [];
  }

  lemma BytesSnoc(sgs: seq<Sg>, lo: nat, hi: nat)
    requires lo <= hi < |sgs|
    ensures Bytes(sgs[lo..hi + 1]) == Bytes(sgs[lo..hi]) + sgs[hi].len
  {
    assert sgs[lo..hi + 1] == sgs[lo..hi] + [sgs[hi]];
    BytesAppend(sgs[lo..hi], [sgs[hi]]);
    DenoteEntry(Write, sgs[hi], 0);
  }

  lemma ConsumedStep(dir: Dir, sgs: seq<Sg>, from: Cursor, to: Cursor, before: seq<Burst>, mid: seq<Burst>,
                     allocSz: u32, allocMid: u32)
    requires Consumed(dir, sgs, from, to, before, mid, allocSz, allocMid)
    requires to.pos < |sgs| && to.remaining > 0 && FitsAt(sgs, to)
    ensures var sg := sgs[to.pos];
            Consumed(dir, sgs, from, Cursor(to.pos + 1, to.remaining - 1, to.addr + sg.len), before,
                     AddSg(dir, mid, sg, to.addr), allocSz, (allocMid + sg.len) % WORD)
  {
    hide AddSg, AddAll, Bytes;
    var lo, hi := from.pos, to.pos;
    AddAllSnoc(dir, before, sgs, lo, hi, from.addr);
    BytesSnoc(sgs, lo, hi);
    ModStep(allocSz, Bytes(sgs[lo..hi]), sgs[hi].len);
  }

  /** Onto a list that ends where the entries start on the device side, this means exactly their copy. */
  lemma {:induction false} ConsumedMeans(dir: Dir, sgs: seq<Sg>, from: Cursor, to: Cursor, before: seq<Burst>,
                                         after: seq<Burst>, allocSz: u32, allocSz': u32)
    requires Consumed(dir, sgs, from, to, before, after, allocSz, allocSz') && Extends(dir, before, from.addr)
    ensures Progress(dir, sgs, from, to, before, after, allocSz, allocSz')
    decreases (to).pos
  {
    hide AddSg, AddAll, Progress, Extends, Bytes;
    if to.pos == from.pos {
      assert sgs[from.pos..to.pos] == [];
      NoneAdded(dir, before, from.addr);
      ProgressNone(dir, sgs, from, before, allocSz);
    } else {
      var lo, hi := from.pos, to.pos - 1;
      var sg := sgs[hi];
      BytesSnoc(sgs, lo, hi);
      var mid := Cursor(hi, to.remaining + 1, from.addr + Bytes(sgs[lo..hi]));
      var bs, a := AddAll(dir, before, sgs[lo..hi], from.addr), (allocSz + Bytes(sgs[lo..hi])) % WORD;
      ConsumedMeans(dir, sgs, from, mid, before, bs, allocSz, a);
      AddAllSnoc(dir, before, sgs, lo, hi, from.addr);
      ProgressStep(dir, sgs, from, mid, before, bs, allocSz, a);
      ModStep(allocSz, Bytes(sgs[lo..hi]), sg.len);
    }
  }

  lemma NoneAdded(dir: Dir, bs: seq<Burst>, addr: nat)
    ensures AddAll(dir, bs, [], addr) == bs && Bytes([]) == 0
  {
  }

  /** An entry without a 64-bit address means that the entries asked for are not addressable. */
  lemma NotAddressable(dir: Dir, sgs: seq<Sg>, from: Cursor, to: Cursor, before: seq<Burst>, after: seq<Burst>,
                       allocSz: u32, allocSz': u32, n: nat)
    requires Consumed(dir, sgs, from, to, before, after, allocSz, allocSz')
    requires to.pos < |sgs| && to.pos - from.pos < n && !FitsAt(sgs, to)
    ensures !Addressable(sgs, from, n)
  {
    hide AddAll;
    if Addressable(sgs, from, n) {
      AddressableStep(sgs, from, to.pos - from.pos, n);
    }
  }

  /** How many entries a fill asks for. */
  function Wanted(remaining: nat, size: nat, llMax: nat, batchMax: nat): nat {
    if size >= llMax then 0 else Min3(remaining, llMax - size, batchMax)
  }

  /** Storage can run out at the entry at the cursor: it is addressable and needs a burst of its own. */
  predicate CanStarve(dir: Dir, sgs: seq<Sg>, at: Cursor, bs: seq<Burst>) {
    at.pos < |sgs| && FitsAt(sgs, at) && !(bs != [] && CanMerge(dir, bs[|bs| - 1], sgs[at.pos], at.addr))
  }

  /**
   `dw_edma_fill_sg_bursts`: consumes entries at the cursor until the chunk, the request or the storage
   runs out.  Returns the number consumed, or -EINVAL with the cursor unmoved.
   */
  method FillSgBursts(chunk: Chunk, pool: BurstPool, dir: Dir, llMax: nat, sgs: seq<Sg>, from: Cursor,
                      allocSz: u32, batchMax: nat, dynamicOk: nat -> bool)
    returns (ret: int, to: Cursor, allocSz': u32, ghost reached: Cursor)
    requires Sound(pool, chunk) && chunk.head.Some? && from.pos <= |sgs|
    modifies chunk, pool, pool.freeList
    ensures Sound(pool, chunk) && chunk.head == old(chunk.head) && chunk.cb == old(chunk.cb)
    ensures pool.out - chunk.owned == old(pool.out) - old(chunk.owned)
    ensures ret == EINVAL || ret == to.pos - from.pos >= 0
    ensures ret < 0 ==> to == from
    ensures ret < 0 ==> |sgs| < from.pos + from.remaining
                        || !Addressable(sgs, from, Wanted(from.remaining, |old(chunk.bursts)|, llMax, batchMax))
    ensures Consumed(dir, sgs, from, reached, old(chunk.bursts), chunk.bursts, allocSz, allocSz')
    ensures ret >= 0 ==> reached == to
    ensures ret < 0 ==>
              (reached.pos == |sgs| && reached.remaining > 0)
              || (reached.pos < |sgs| && !FitsAt(sgs, reached)
                  && reached.pos - from.pos < Wanted(from.remaining, |old(chunk.bursts)|, llMax, batchMax))
    ensures ret >= 0 && Extends(dir, old(chunk.bursts), from.addr) ==>
              Progress(dir, sgs, from, to, old(chunk.bursts), chunk.bursts, allocSz, allocSz')
    ensures |old(chunk.bursts)| <= llMax ==> |chunk.bursts| <= llMax
    ensures ret <= Wanted(from.remaining, |old(chunk.bursts)|, llMax, batchMax)
    ensures 0 <= ret < Wanted(from.remaining, |old(chunk.bursts)|, llMax, batchMax) ==>
              to.pos == |sgs| || CanStarve(dir, sgs, to, chunk.bursts)
    ensures ret == 0 ==>
              from.pos == |sgs| || from.remaining == 0 || |old(chunk.bursts)| >= llMax || batchMax == 0
              || (old(pool.freeCnt) == 0 && !dynamicOk(0))
  {
    hide BurstPool.Valid, Chunk.Valid, Distinct, Left, Extends, Addressable, AddSg, Progress, Consumed, Spare, Apart,
         CanMerge;
    to, allocSz', reached := from, allocSz, from;
    ConsumedNone(dir, sgs, from, chunk.bursts, allocSz);
    if Extends(dir, chunk.bursts, from.addr) { ProgressNone(dir, sgs, from, chunk.bursts, allocSz); }
    if from.pos == |sgs| || from.remaining == 0 || ChunkSize(chunk) >= llMax || batchMax == 0 {
      ret := 0;
      return;
    }
    var need := Min3(from.remaining, llMax - ChunkSize(chunk), batchMax);
    var batch := TakeBatch(chunk, pool, need);
    var used, consumed := 0, 0;
    var error, starved := false, false;
    ghost var rest := old(pool.out) - old(chunk.owned);
    while to.pos < |sgs| && consumed < need && !error && !starved
      invariant Sound(pool, chunk) && chunk.head == old(chunk.head) && chunk.cb == old(chunk.cb)
      invariant Apart(pool, chunk, batch, used)
      invariant Spare(pool, chunk, batch, used) == rest
      invariant consumed <= need && to.pos == from.pos + consumed <= |sgs| && to.remaining == from.remaining - consumed
      invariant Consumed(dir, sgs, from, to, old(chunk.bursts), chunk.bursts, allocSz, allocSz')
      invariant |chunk.bursts| <= |old(chunk.bursts)| + consumed
      invariant error ==> !Addressable(sgs, from, need) && to.pos < |sgs| && consumed < need && !FitsAt(sgs, to)
      invariant starved ==> CanStarve(dir, sgs, to, chunk.bursts)
      invariant consumed == 0 && starved ==> old(pool.freeCnt) == 0 && !dynamicOk(0)
      invariant consumed == 0 && !starved ==> used == 0 && (batch == [] ==> pool.freeCnt == 0)
      decreases need - consumed, if error || starved then 0 else 1
    {
      var sg := sgs[to.pos];
      if to.addr > U64_MAX - sg.len || sg.addr > U64_MAX - sg.len {
        error := true;
        NotAddressable(dir, sgs, from, to, old(chunk.bursts), chunk.bursts, allocSz, allocSz', need);
      } else {
        ConsumedStep(dir, sgs, from, to, old(chunk.bursts), chunk.bursts, allocSz, allocSz');
        AddSgLength(dir, chunk.bursts, sg, to.addr);
        var ok, used' := AddEntry(chunk, pool, dir, sg, to.addr, batch, used, dynamicOk(consumed));
        used := used';
        if ok {
          allocSz' := (allocSz' + sg.len) % (U32_MAX + 1);
          to := Cursor(to.pos + 1, to.remaining - 1, to.addr + sg.len);
          consumed := consumed + 1;
        } else {
          starved := true;
        }
      }
    }
    ReturnBatch(chunk, pool, batch, used);
    reached := to;
    if error || (to.pos == |sgs| && to.remaining > 0) {
      ret, to := EINVAL, from;
    } else {
      ret := consumed;
      if Extends(dir, old(chunk.bursts), from.addr) {
        ConsumedMeans(dir, sgs, from, to, old(chunk.bursts), chunk.bursts, allocSz, allocSz');
      }
    }
  }

  /** The list a fill starts from: a chunk without anchor is empty, in any other one an empty burst is linked first. */
  function Started(head: Option<Slot>, bs: seq<Burst>): seq<Burst> {
    if head.None? then [] else bs + [Burst(0, 0, 0)]
  }

  /** Device address and count behind the entries up to `hi`. */
  ghost function CursorAt(sgs: seq<Sg>, from: Cursor, hi: nat): Cursor
    requires from.pos <= hi <= |sgs| && hi - from.pos <= from.remaining
    requires from.addr + Bytes(sgs[from.pos..hi]) <= U64_MAX
  {
    Cursor(hi, from.remaining - (hi - from.pos), from.addr + Bytes(sgs[from.pos..hi]))
  }

  /**
   A successful fill from the cursor up to entry `hi`: every entry taken is addressable and was added to `start` in
   turn, and it stopped because the chunk or the list was exhausted, or storage was at an entry that needs a burst of
   its own.
   */
  ghost predicate Fills(dir: Dir, sgs: seq<Sg>, from: Cursor, start: seq<Burst>, llMax: nat, hi: nat, bs: seq<Burst>) {
    var want := Wanted(from.remaining, |start|, llMax, llMax);
    && from.pos < hi <= |sgs| && hi - from.pos <= want
    && from.addr + Bytes(sgs[from.pos..hi]) <= U64_MAX && HostFits(sgs, from.pos, hi)
    && bs == AddAll(dir, start, sgs[from.pos..hi], from.addr)
    && (hi - from.pos < want ==> CanStarve(dir, sgs, CursorAt(sgs, from, hi), bs))
  }

  /** A fill without result: entries up to `hi` were added before one that is not addressable, or none at all. */
  ghost predicate Fails(sgs: seq<Sg>, from: Cursor, start: seq<Burst>, llMax: nat, hi: nat) {
    && from.pos <= hi <= |sgs|
    && (from.pos < hi ==>
          && hi < |sgs| && hi - from.pos < Wanted(from.remaining, |start|, llMax, llMax)
          && Addressable(sgs, from, hi - from.pos) && !FitsAt(sgs, CursorAt(sgs, from, hi)))
  }

  /**
   `dw_edma_shadow_fill_chunk`, and the filling part of `dw_edma_lazy_refill_chunk_prepare`: an anchor, or an empty
   burst where there is one already, and then the entries.  Returns 0 on every failure.
   */
  method FillNext(chunk: Chunk, pool: BurstPool, dir: Dir, llMax: nat, sgs: seq<Sg>, from: Cursor, allocSz: u32,
                  anchorOk: bool, dynamicOk: nat -> bool)
    returns (filled: nat, to: Cursor, allocSz': u32, ghost reached: nat)
    requires Sound(pool, chunk) && from.pos + from.remaining == |sgs|
    modifies chunk, pool, pool.freeList
    ensures Sound(pool, chunk) && chunk.cb == old(chunk.cb)
    ensures pool.out - chunk.owned == old(pool.out) - old(chunk.owned)
    ensures filled == to.pos - from.pos && (filled == 0 ==> to == from)
    ensures filled > 0 ==>
              Fills(dir, sgs, from, Started(old(chunk.head), old(chunk.bursts)), llMax, to.pos, chunk.bursts)
    ensures filled > 0 ==> to == CursorAt(sgs, from, to.pos) && reached == to.pos
    ensures filled == 0 ==> Fails(sgs, from, Started(old(chunk.head), old(chunk.bursts)), llMax, reached)
    ensures allocSz' == (allocSz + Bytes(sgs[from.pos..reached])) % WORD
    ensures filled == 0 && anchorOk && dynamicOk(0) ==>
              var want := Wanted(from.remaining, |Started(old(chunk.head), old(chunk.bursts))|, llMax, llMax);
              want == 0 || !Addressable(sgs, from, want)
  {
    hide BurstPool.Valid, Chunk.Valid, AddAll, CanStarve, HostFits, Progress, Bytes;
    filled, to, allocSz', reached := 0, from, allocSz, from.pos;
    assert sgs[from.pos..from.pos] == [];
    NoneAdded(dir, [], 0);
    if from.remaining == 0 {
      return;
    }
    var ok; ghost var added;
    ok, added := AllocBurst(chunk, pool, anchorOk);
    if !ok {
      return;
    }
    var ret, to', a; ghost var end;
    ret, to', a, end := FillSgBursts(chunk, pool, dir, llMax, sgs, from, allocSz, llMax, dynamicOk);
    allocSz', reached := a, end.pos;
    if ret > 0 {
      filled, to := ret, to';
    }
  }

  // ---- when a fill is possible ----

  /** Entry `k` does not continue the one before it on the host side. */
  predicate Gap(sgs: seq<Sg>, k: nat)
    requires 0 < k < |sgs|
  {
    sgs[k].len == 0 || sgs[k - 1].addr + sgs[k - 1].len != sgs[k].addr
  }

  /** Of `want` entries from `lo` on all are addressable, or some are, up to a gap before another addressable one. */
  ghost predicate Fillable(sgs: seq<Sg>, lo: nat, want: nat)
    requires lo + want <= |sgs|
  {
    exists hi :: lo < hi <= lo + want && HostFits(sgs, lo, hi)
                 && (hi < lo + want ==> Gap(sgs, hi) && sgs[hi].addr + sgs[hi].len <= U64_MAX)
  }

  function LastSize(bs: seq<Burst>): nat {
    if bs == [] then 0 else bs[|bs| - 1].sz
  }

  /** The list ends where its entries end, on both sides. */
  lemma {:induction false} AddAllEnd(dir: Dir, start: seq<Burst>, sgs: seq<Sg>, lo: nat, hi: nat, addr: nat)
    requires lo < hi <= |sgs| && addr + Bytes(sgs[lo..hi]) <= U64_MAX
    ensures var bs := AddAll(dir, start, sgs[lo..hi], addr);
            && bs != [] && LastSize(bs) <= LastSize(start) + Bytes(sgs[lo..hi])
            && Host(dir, bs[|bs| - 1]) + LastSize(bs) == sgs[hi - 1].addr + sgs[hi - 1].len
            && DevEnd(dir, bs) == addr + Bytes(sgs[lo..hi])
  {
    hide Bytes, AddAll;
    BytesSnoc(sgs, lo, hi - 1);
    AddAllSnoc(dir, start, sgs, lo, hi - 1, addr);
    if lo < hi - 1 {
      AddAllEnd(dir, start, sgs, lo, hi - 1, addr);
    } else {
      assert sgs[lo..hi - 1] == [];
      NoneAdded(dir, start, addr);
    }
  }

  /** Behind the entries `lo..hi` storage can run out exactly at a gap. */
  lemma StarvesAtGap(dir: Dir, start: seq<Burst>, sgs: seq<Sg>, from: Cursor, hi: nat)
    requires LastSize(start) == 0 && from.pos < hi < |sgs| && hi - from.pos <= from.remaining
    requires Bytes(sgs[from.pos..hi + 1]) <= U32_MAX && from.addr + Bytes(sgs[from.pos..hi + 1]) <= U64_MAX
    ensures Bytes(sgs[from.pos..hi]) + sgs[hi].len == Bytes(sgs[from.pos..hi + 1])
    ensures CanStarve(dir, sgs, CursorAt(sgs, from, hi), AddAll(dir, start, sgs[from.pos..hi], from.addr))
        <==> Gap(sgs, hi) && sgs[hi].addr + sgs[hi].len <= U64_MAX
  {
    hide Bytes, AddAll;
    BytesSnoc(sgs, from.pos, hi);
    AddAllEnd(dir, start, sgs, from.pos, hi, from.addr);
  }

  lemma BytesWithin(sgs: seq<Sg>, lo: nat, hi: nat)
    requires lo <= hi <= |sgs|
    ensures Bytes(sgs[lo..hi]) <= Bytes(sgs[lo..])
  {
    CopySplit(Write, sgs, lo, hi, |sgs|, 0);
    assert sgs[lo..|sgs|] == sgs[lo..];
  }

  /** A successful fill up to `hi` is possible. */
  ghost predicate CanFillTo(dir: Dir, sgs: seq<Sg>, from: Cursor, start: seq<Burst>, llMax: nat, hi: nat) {
    exists bs :: Fills(dir, sgs, from, start, llMax, hi, bs)
  }

  /**
   Exactly when a fill can succeed: the entries it wants are addressable, or storage runs out in front of one that is
   not.  The pool is shared by all channels, so it may run out at any entry that needs a burst of its own.
   */
  lemma CanFillIff(dir: Dir, sgs: seq<Sg>, from: Cursor, start: seq<Burst>, llMax: nat)
    requires from.pos + from.remaining == |sgs| && LastSize(start) == 0
    requires Bytes(sgs[from.pos..]) <= U32_MAX && from.addr + Bytes(sgs[from.pos..]) <= U64_MAX
    ensures var want := Wanted(from.remaining, |start|, llMax, llMax);
            (exists hi :: CanFillTo(dir, sgs, from, start, llMax, hi)) <==> Fillable(sgs, from.pos, want)
  {
    hide Bytes, AddAll, CanStarve, Gap;
    var lo, want := from.pos, Wanted(from.remaining, |start|, llMax, llMax);
    forall hi: nat | lo < hi <= lo + want
      ensures CanFillTo(dir, sgs, from, start, llMax, hi)
          <==> HostFits(sgs, lo, hi) && (hi < lo + want ==> Gap(sgs, hi) && sgs[hi].addr + sgs[hi].len <= U64_MAX)
    {
      BytesWithin(sgs, lo, hi);
      if hi < lo + want {
        BytesWithin(sgs, lo, hi + 1);
        StarvesAtGap(dir, start, sgs, from, hi);
      }
      var bs := AddAll(dir, start, sgs[lo..hi], from.addr);
      assert Fills(dir, sgs, from, start, llMax, hi, bs) <==> CanFillTo(dir, sgs, from, start, llMax, hi);
    }
  }

  // ---- writing out ----

  lemma HeldRemove(slots: seq<Slot>, pos: nat)
    requires pos < |slots| && Separate(slots)
    ensures var r := Without(slots, pos);
            Separate(r) && Held(r, |r|) == Held(slots, |slots|) - Added(slots[pos])
  {
    var r := Without(slots, pos);
    assert forall k :: 0 <= k < |r| ==> r[k] == slots[if k < pos then k else k + 1];
    forall x | x in Held(slots, |slots|) - Added(slots[pos]) ensures x in Held(r, |r|) {
      var k :| 0 <= k < |slots| && slots[k].Pooled? && slots[k].idx == x;
      assert r[if k < pos then k else k - 1] == slots[k];
    }
  }

  /** `list_del` plus `dw_edma_free_single_burst` for child `i`. */
  method Unlink(chunk: Chunk, pool: BurstPool, i: nat)
    requires Sound(pool, chunk) && chunk.head.Some? && i < |chunk.bursts|
    modifies chunk, pool, pool.freeList
    ensures Sound(pool, chunk) && chunk.head == old(chunk.head) && chunk.cb == old(chunk.cb)
    ensures chunk.bursts == Without(old(chunk.bursts), i)
    ensures pool.out - chunk.owned == old(pool.out) - old(chunk.owned)
  {
    var slot := chunk.slots[i];
    HeldRemove(chunk.All(), i + 1);
    assert chunk.All()[i + 1] == slot;
    assert slot.Pooled? ==> slot.idx in chunk.owned;
    hide BurstPool.Valid, Separate, Distinct, Held;
    chunk.bursts := Without(chunk.bursts, i);
    chunk.slots := Without(chunk.slots, i);
    chunk.burstsAlloc := chunk.burstsAlloc - 1;
    chunk.owned := chunk.owned - Added(slot);
    assert chunk.All() == Without(old(chunk.All()), i + 1);
    if slot.Pooled? {
      pool.FreeOne(slot.idx);
    }
  }

  /** What the merge loop will make of the list, once it has got to position `i`. */
  ghost function MergedAt(dir: Dir, bs: seq<Burst>, i: nat): seq<Burst>
    requires 1 <= i <= |bs|
  {
    bs[..i - 1] + MergeFrom(dir, bs[i - 1], bs[i..])
  }

  /** The first loop of `write_chunk`, in place on the burst list. */
  method MergeBursts(chunk: Chunk, pool: BurstPool, dir: Dir)
    requires Sound(pool, chunk) && chunk.head.Some? && chunk.bursts != []
    modifies chunk, pool, pool.freeList
    ensures Sound(pool, chunk) && chunk.head == old(chunk.head) && chunk.cb == old(chunk.cb)
    ensures chunk.bursts == Merge(dir, old(chunk.bursts))
    ensures pool.out - chunk.owned == old(pool.out) - old(chunk.owned)
  {
    hide BurstPool.Valid, Chunk.Valid, MergedAt, Merge, Join, Without;
    var i := 1;
    MergeLoopStart(dir, chunk.bursts);
    while i < |chunk.bursts|
      invariant Sound(pool, chunk) && chunk.head == old(chunk.head) && chunk.cb == old(chunk.cb)
      invariant pool.out - chunk.owned == old(pool.out) - old(chunk.owned)
      invariant 1 <= i <= |chunk.bursts| && MergedAt(dir, chunk.bursts, i) == Merge(dir, old(chunk.bursts))
      decreases |chunk.bursts| - i
    {
      var ptr, curr := chunk.bursts[i - 1], chunk.bursts[i];
      MergeLoopStep(dir, chunk.bursts, i);
      if Continues(dir, ptr, curr) {
        Unlink(chunk, pool, i);
        SetBurst(chunk, i - 1, Join(ptr, curr));
      } else {
        i := i + 1;
      }
    }
    MergeLoopDone(dir, chunk.bursts);
  }

  lemma MergeLoopStart(dir: Dir, bs: seq<Burst>)
    requires bs != []
    ensures MergedAt(dir, bs, 1) == Merge(dir, bs)
  {
  }

  method SetBurst(chunk: Chunk, i: nat, b: Burst)
    requires chunk.Valid() && i < |chunk.bursts|
    modifies chunk`bursts
    ensures chunk.Valid() && chunk.bursts == old(chunk.bursts)[i := b]
  {
    chunk.bursts := chunk.bursts[i := b];
  }

  lemma MergeLoopStep(dir: Dir, bs: seq<Burst>, i: nat)
    requires 1 <= i < |bs|
    ensures |Without(bs, i)| == |bs| - 1
    ensures if Continues(dir, bs[i - 1], bs[i])
            then MergedAt(dir, Without(bs, i)[i - 1 := Join(bs[i - 1], bs[i])], i) == MergedAt(dir, bs, i)
            else MergedAt(dir, bs, i + 1) == MergedAt(dir, bs, i)
  {
    assert bs[i..][0] == bs[i] && bs[i..][1..] == bs[i + 1..];
    if Continues(dir, bs[i - 1], bs[i]) {
      var r := Without(bs, i)[i - 1 := Join(bs[i - 1], bs[i])];
      assert r[..i - 1] == bs[..i - 1] && r[i..] == bs[i + 1..];
    } else {
      assert bs[..i] == bs[..i - 1] + [bs[i - 1]];
      Assoc(bs[..i - 1], [bs[i - 1]], MergeFrom(dir, bs[i], bs[i + 1..]));
    }
  }

  lemma MergeLoopDone(dir: Dir, bs: seq<Burst>)
    requires bs != []
    ensures MergedAt(dir, bs, |bs|) == bs
  {
    assert bs == bs[..|bs| - 1] + [bs[|bs| - 1]];
  }

  /** The second loop of `write_chunk`: one LLI per burst, then the terminator. */
  method EmitTable(bursts: seq<Burst>, cb: bool, target: u64, host: array<Elem>)
    requires |bursts| < host.Length
    modifies host
    ensures host[..|bursts| + 1] == Emit(bursts, cb, target)
    ensures host[|bursts| + 1..] == old(host[|bursts| + 1..])
  {
    var i := 0;
    while i < |bursts|
      invariant 0 <= i <= |bursts|
      invariant forall k :: 0 <= k < i ==> host[k] == GenLli(cb, bursts[k], |bursts| - 1 - k)
      invariant forall k :: |bursts| < k < host.Length ==> host[k] == old(host[k])
    {
      host[i] := GenLli(cb, bursts[i], |bursts| - 1 - i);
      i := i + 1;
    }
    host[i] := GenLlp(cb, target);
  }

  /** `dw_edma_v0_core_write_chunk`. */
  method WriteChunk(chunk: Chunk, pool: BurstPool, dir: Dir, mapped: bool, target: u64, host: array<Elem>)
    returns (ret: int)
    requires Sound(pool, chunk) && |chunk.bursts| < host.Length
    modifies chunk, pool, pool.freeList, host
    ensures Sound(pool, chunk) && chunk.head == old(chunk.head) && chunk.cb == old(chunk.cb)
    ensures pool.out - chunk.owned == old(pool.out) - old(chunk.owned)
    ensures ret == if mapped && old(chunk.bursts) != [] then 0 else EINVAL
    ensures ret != 0 ==> chunk.bursts == old(chunk.bursts) && host[..] == old(host[..])
    ensures ret == 0 ==>
              && chunk.bursts == Merge(dir, old(chunk.bursts))
              && |chunk.bursts| < host.Length
              && host[..|chunk.bursts| + 1] == Emit(chunk.bursts, chunk.cb, target)
              && host[|chunk.bursts| + 1..] == old(host[..])[|chunk.bursts| + 1..]
  {
    hide BurstPool.Valid, Emit;
    if !mapped || chunk.head.None? || chunk.bursts == [] {
      return EINVAL;
    }
    MergeBursts(chunk, pool, dir);
    assert |chunk.bursts| < host.Length;
    EmitTable(chunk.bursts, chunk.cb, target, host);
    ret := 0;
  }

  // ---- what a freshly filled chunk means ----

  /** A chunk filled from `lo..hi` of the list and written out executes exactly that slice of the copy. */
  lemma WrittenChunkMeans(dir: Dir, sgs: seq<Sg>, from: Cursor, to: Cursor, bs: seq<Burst>, a: u32, a': u32)
    requires Progress(dir, sgs, from, to, [], bs, a, a') && Bytes(sgs[from.pos..to.pos]) <= U32_MAX
    ensures Denote(Merge(dir, bs)) == CopyOf(dir, sgs[from.pos..to.pos], from.addr)
    ensures AllPositive(sgs, from.pos, to.pos) ==> Merge(dir, bs) == bs
  {
    hide Merge, CopyOf, Bytes;
    assert Denote([]) == [] && Size([]) == 0;
    SmallListFits(dir, bs);
    MergePreservesCopyIff(dir, bs);
    if AllPositive(sgs, from.pos, to.pos) {
      assert Separated(dir, []);
      MergeUnchanged(dir, bs);
    }
  }

  lemma ProgressTrans(dir: Dir, sgs: seq<Sg>, from: Cursor, mid: Cursor, to: Cursor,
                      bs0: seq<Burst>, bs1: seq<Burst>, bs2: seq<Burst>, a0: u32, a1: u32, a2: u32)
    requires Progress(dir, sgs, from, mid, bs0, bs1, a0, a1) && Progress(dir, sgs, mid, to, bs1, bs2, a1, a2)
    ensures Progress(dir, sgs, from, to, bs0, bs2, a0, a2)
  {
    hide Denote, CopyOf, Bytes, Size, Extends, Separated;
    CopySplit(dir, sgs, from.pos, mid.pos, to.pos, from.addr);
    Assoc(Denote(bs0), CopyOf(dir, sgs[from.pos..mid.pos], from.addr), CopyOf(dir, sgs[mid.pos..to.pos], mid.addr));
    ModStep(a0, Bytes(sgs[from.pos..mid.pos]), Bytes(sgs[mid.pos..to.pos]));
    assert StaysSeparated(dir, sgs, from.pos, to.pos, bs0, bs2) ==>
      StaysSeparated(dir, sgs, from.pos, mid.pos, bs0, bs1);
  }

  const PREP_BATCH := 64

  /**
   The scatter-gather part of `dw_edma_device_transfer`: fills the first chunk batch by batch until the
   list is done or the descriptor table is full.  What is left is streamed later.
   */
  method PrepareFirstChunk(chunk: Chunk, pool: BurstPool, dir: Dir, llMax: nat, sgs: seq<Sg>, cnt: nat, base: u64,
                           dynamicOk: nat -> bool)
    returns (ok: bool, to: Cursor, allocSz: u32)
    requires Sound(pool, chunk) && chunk.head.Some? && chunk.bursts == []
    modifies chunk, pool, pool.freeList
    ensures Sound(pool, chunk) && chunk.cb == old(chunk.cb)
    ensures pool.out - chunk.owned == old(pool.out) - old(chunk.owned)
    ensures |chunk.bursts| <= llMax
    ensures ok ==> Progress(dir, sgs, Cursor(0, cnt, base), to, [], chunk.bursts, 0, allocSz)
    ensures ok ==> to.remaining == 0 || |chunk.bursts| == llMax
    ensures ok && cnt > 0 && llMax > 0 ==> to.pos > 0
    ensures Addressable(sgs, Cursor(0, cnt, base), cnt) && dynamicOk(0) ==> ok
  {
    hide BurstPool.Valid, Chunk.Valid, Progress, Extends;
    var from := Cursor(0, cnt, base);
    to, allocSz := from, 0;
    ExtendsEmpty(dir, base);
    ProgressNone(dir, sgs, from, chunk.bursts, 0);
    while to.remaining > 0
      invariant Sound(pool, chunk) && chunk.head == old(chunk.head) && chunk.cb == old(chunk.cb)
      invariant pool.out - chunk.owned == old(pool.out) - old(chunk.owned)
      invariant |chunk.bursts| <= llMax
      invariant Progress(dir, sgs, from, to, [], chunk.bursts, 0, allocSz)
      invariant to.pos == 0 ==> chunk.bursts == [] && to.remaining == cnt
      decreases (to).remaining
    {
      ProgressExtends(dir, sgs, from, to, [], chunk.bursts, 0, allocSz);
      if to.pos == |sgs| {
        return false, to, allocSz;
      }
      if ChunkSize(chunk) == llMax {
        break;
      }
      ghost var mid, bs := to, chunk.bursts;
      var filled, next, size; ghost var end;
      filled, next, size, end := FillSgBursts(chunk, pool, dir, llMax, sgs, to, allocSz, PREP_BATCH, dynamicOk);
      if filled <= 0 {
        if Addressable(sgs, from, cnt) {
          RestAddressable(dir, sgs, from, to, bs, allocSz, Wanted(to.remaining, |bs|, llMax, PREP_BATCH));
        }
        return false, to, allocSz;
      }
      ProgressTrans(dir, sgs, from, mid, next, [], bs, chunk.bursts, 0, allocSz, size);
      ProgressExtends(dir, sgs, mid, next, bs, chunk.bursts, allocSz, size);
      to, allocSz := next, size;
    }
    ok := true;
  }

  lemma RestAddressable(dir: Dir, sgs: seq<Sg>, from: Cursor, to: Cursor, bs: seq<Burst>, a: u32, n: nat)
    requires Progress(dir, sgs, from, to, [], bs, 0, a) && Addressable(sgs, from, from.remaining) && n <= to.remaining
    ensures Addressable(sgs, to, n)
  {
    hide Filled, Bytes;
    var lo, mid, hi := from.pos, to.pos, to.pos + n;
    CopySplit(dir, sgs, lo, mid, hi, 0);
    CopySplit(dir, sgs, lo, hi, lo + from.remaining, 0);
  }

  lemma ExtendsEmpty(dir: Dir, addr: u64)
    ensures Extends(dir, [], addr)
  {
  }

  lemma ProgressExtends(dir: Dir, sgs: seq<Sg>, from: Cursor, to: Cursor, before: seq<Burst>, after: seq<Burst>,
                        a: u32, a': u32)
    requires Progress(dir, sgs, from, to, before, after, a, a')
    ensures Extends(dir, after, to.addr) && to.pos <= |sgs| && from.remaining - to.remaining == to.pos - from.pos
  {
  }
}
