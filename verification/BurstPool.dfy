/**
 The global burst pool: an array-backed stack of free indices.

 `BurstPool` is the stack itself, updated in place.  `Ledger` is the pool together with everything
 its owners hold; it carries the conservation law over any sequence of operations.
 */
module BurstPool {
  import opened Basics

  /** Where a burst's storage came from: a pool slot, or the dynamic fallback. */
  datatype Slot = Pooled(idx: nat) | Dynamic

  ghost predicate InRange(s: seq<nat>, n: nat) {
    forall i :: 0 <= i < |s| ==> s[i] < n
  }

  /** The pool indices behind the first `n` slots. */
  ghost function Held(slots: seq<Slot>, n: nat): set<nat>
    requires n <= |slots|
  {
    set k | 0 <= k < n && slots[k].Pooled? :: slots[k].idx
  }

  /** No pool index backs two slots. */
  ghost predicate Separate(slots: seq<Slot>) {
    forall i, j :: 0 <= i < j < |slots| && slots[i].Pooled? && slots[j].Pooled? ==> slots[i].idx != slots[j].idx
  }

  /** `batch` was popped off the free stack `free`, top first, as far as `count` and the stack go. */
  ghost predicate Popped(free: seq<nat>, out: set<nat>, count: nat, batch: seq<nat>, free': seq<nat>, out': set<nat>) {
    && |batch| == (if count <= |free| then count else |free|)
    && free' == free[..|free| - |batch|]
    && (forall k :: 0 <= k < |batch| ==> batch[k] == free[|free| - 1 - k])
    && out' == out + (set x | x in batch)
  }

  lemma PoppedNone(free: seq<nat>, out: set<nat>)
    ensures Popped(free, out, 0, [], free, out)
  {
  }

  /** It may have been asked for more, if the stack is empty now. */
  lemma PoppedAll(free: seq<nat>, out: set<nat>, count: nat, batch: seq<nat>, free': seq<nat>, out': set<nat>)
    requires Popped(free, out, |batch|, batch, free', out') && (|batch| == count || (|batch| <= count && free' == []))
    ensures Popped(free, out, count, batch, free', out')
  {
  }

  lemma PoppedMore(free: seq<nat>, out: set<nat>, batch: seq<nat>, free': seq<nat>, out': set<nat>, more: seq<nat>,
                   x: nat)
    requires Popped(free, out, |batch|, batch, free', out') && free' == more + [x]
    ensures Popped(free, out, |batch| + 1, batch + [x], more, out' + {x})
  {
    assert more == free[..|free| - |batch| - 1] && x == free[|free| - 1 - |batch|];
  }

  class BurstPool {
    const capacity: nat
    const freeList: array<nat>
    var freeCnt: nat
    ghost var free: seq<nat>   // the live part of the stack, bottom first
    ghost var out: set<nat>    // indices handed out and not given back

    ghost predicate Valid()
      reads this, freeList
    {
      && freeList.Length == capacity && freeCnt == |free| <= capacity
      && freeList[..freeCnt] == free
      && Distinct(free) && InRange(free, capacity)
      && (forall x :: x in out ==> x < capacity && x !in free)
      && |free| + |out| == capacity
    }

    /** `dw_edma_mem_init`: every index starts free. */
    constructor (size: nat)
      ensures Valid() && fresh(freeList) && capacity == size
      ensures out == {}
    {
      capacity := size;
      freeList := new nat[size](k => k);
      freeCnt := size;
      free := seq(size, k => k);
      out := {};
      new;
      assert freeList[..freeCnt] == free;
    }

    /** `dw_edma_alloc_burst_from_pool`. */
    method AllocFromPool() returns (r: Option<nat>)
      requires Valid()
      modifies this
      ensures Valid()
      ensures r.None? <==> old(free) == []
      ensures r.None? ==> free == old(free) && out == old(out)
      ensures r.Some? ==> old(free) == free + [r.value] && r.value !in old(out) && out == old(out) + {r.value}
    {
      if freeCnt > 0 {
        freeCnt := freeCnt - 1;
        r := Some(freeList[freeCnt]);
        free := free[..freeCnt];
        out := out + {r.value};
        assert old(free) == free + [r.value];
      } else {
        r := None;
      }
    }

    predicate HasFree()
      requires Valid()
      reads this, freeList
      ensures HasFree() <==> free != []
    {
      freeCnt > 0
    }

    /** `dw_edma_alloc_burst_batch`: pops up to `count` indices, as many as the pool has. */
    method AllocBatch(count: nat) returns (batch: seq<nat>)
      requires Valid()
      modifies this
      ensures Valid()
      ensures Popped(old(free), old(out), count, batch, free, out)
      ensures Distinct(batch) && forall x :: x in batch ==> x !in old(out)
    {
      hide Popped, Valid;
      batch := [];
      PoppedNone(free, out);
      while |batch| < count && HasFree()
        invariant Valid()
        invariant |batch| <= count && Popped(old(free), old(out), |batch|, batch, free, out)
        invariant Distinct(batch) && forall x :: x in batch ==> x !in old(out) && x in out
        invariant forall x :: x in old(out) ==> x in out
        decreases count - |batch|
      {
        ghost var was, has := free, out;
        var got := AllocFromPool();
        PoppedMore(old(free), old(out), batch, was, has, free, got.value);
        batch := batch + [got.value];
      }
      PoppedAll(old(free), old(out), count, batch, free, out);
    }

    /** `dw_edma_free_single_burst`: the owner of `idx` gives it back; the capacity guard never drops it. */
    method FreeOne(idx: nat)
      requires Valid() && idx in out
      modifies this, freeList
      ensures Valid()
      ensures free == old(free) + [idx] && out == old(out) - {idx}
    {
      if freeCnt < capacity {
        freeList[freeCnt] := idx;
        freeCnt := freeCnt + 1;
        free := free + [idx];
        out := out - {idx};
      }
    }

    /** `dw_edma_free_burst_batch`, also the loop of `dw_edma_free_burst`: every pooled slot goes back. */
    method FreeBatch(slots: seq<Slot>)
      requires Valid()
      requires Separate(slots) && Held(slots, |slots|) <= out
      modifies this, freeList
      ensures Valid()
      ensures out == old(out) - Held(slots, |slots|)
    {
      var i := 0;
      while i < |slots|
        invariant 0 <= i <= |slots|
        invariant Valid()
        invariant out == old(out) - Held(slots, i)
      {
        if slots[i].Pooled? {
          assert slots[i].idx in Held(slots, |slots|);
          FreeOne(slots[i].idx);
        }
        i := i + 1;
      }
    }
  }

  // ---- conservation over every sequence of operations by owners ----

  /** The pool and all outstanding pool bursts, each with the owner that holds it. */
  datatype Ledger = Ledger(free: seq<nat>, held: seq<(nat, nat)>)

  /** One critical section under `pool_lock`. */
  datatype PoolOp =
    | Take(owner: nat, count: nat)   // single (count 1) or batch allocation
    | Give(pos: nat)                 // the owner of the burst at `pos` frees it
    | Hand(pos: nat, to: nat)        // a chunk changes hands with its bursts

  function HeldIndices(l: Ledger): seq<nat> {
    seq(|l.held|, k requires 0 <= k < |l.held| => l.held[k].1)
  }

  ghost predicate Balanced(l: Ledger, n: nat) {
    && Distinct(l.free + HeldIndices(l))
    && InRange(l.free + HeldIndices(l), n)
    && |l.free| + |l.held| == n
  }

  function TakeMany(l: Ledger, owner: nat, count: nat): Ledger
    decreases count
  {
    if count == 0 || l.free == [] then l
    else
      var k := |l.free| - 1;
      TakeMany(Ledger(l.free[..k], l.held + [(owner, l.free[k])]), owner, count - 1)
  }

  function Without<T>(s: seq<T>, pos: nat): seq<T>
    requires pos < |s|
  {
    s[..pos] + s[pos + 1..]
  }

  /** The pool with capacity guard `n`: a burst freed into a full list is silently dropped. */
  function Apply(l: Ledger, n: nat, op: PoolOp): Ledger {
    match op
    case Take(owner, count) => TakeMany(l, owner, count)
    case Give(pos) =>
      if pos >= |l.held| then l
      else if |l.free| < n then Ledger(l.free + [l.held[pos].1], Without(l.held, pos))
      else Ledger(l.free, Without(l.held, pos))
    case Hand(pos, to) =>
      if pos >= |l.held| then l else Ledger(l.free, l.held[pos := (to, l.held[pos].1)])
  }

  function ApplyAll(l: Ledger, n: nat, ops: seq<PoolOp>): Ledger
    decreases ops
  {
    if ops == [] then l else ApplyAll(Apply(l, n, ops[0]), n, ops[1..])
  }

  lemma {:induction false} TakeManyKeeps(l: Ledger, owner: nat, count: nat, n: nat)
    requires Balanced(l, n)
    ensures Balanced(TakeMany(l, owner, count), n)
    decreases count
  {
    if count > 0 && l.free != [] {
      var k := |l.free| - 1;
      var l' := Ledger(l.free[..k], l.held + [(owner, l.free[k])]);
      var a, b := l.free + HeldIndices(l), l'.free + HeldIndices(l');
      assert forall i :: 0 <= i < |b| ==> b[i] == a[if i < k then i else if i < |b| - 1 then i + 1 else k];
      TakeManyKeeps(l', owner, count - 1, n);
    }
  }

  lemma GiveKeeps(l: Ledger, pos: nat, n: nat)
    requires Balanced(l, n) && pos < |l.held|
    ensures |l.free| < n
    ensures Balanced(Apply(l, n, Give(pos)), n)
  {
    var l' := Ledger(l.free + [l.held[pos].1], Without(l.held, pos));
    var f := |l.free|;
    var a, b := l.free + HeldIndices(l), l'.free + HeldIndices(l');
    assert forall i :: 0 <= i < |b| ==>
      b[i] == a[if i < f then i else if i == f then f + pos else if i <= f + pos then i - 1 else i];
  }

  lemma HandKeeps(l: Ledger, pos: nat, to: nat, n: nat)
    requires Balanced(l, n)
    ensures Balanced(Apply(l, n, Hand(pos, to)), n)
  {
    if pos < |l.held| {
      assert HeldIndices(Apply(l, n, Hand(pos, to))) == HeldIndices(l);
    }
  }

  /**
   Whatever sequence of allocations, frees and hand-overs the owners perform, free and outstanding
   indices stay distinct, in range, disjoint, and together number the pool size; so the capacity
   guard never drops a burst.
   */
  lemma {:induction false} PoolConserved(l: Ledger, n: nat, ops: seq<PoolOp>)
    requires Balanced(l, n)
    ensures Balanced(ApplyAll(l, n, ops), n)
    decreases ops
  {
    if ops != [] {
      match ops[0] {
        case Take(owner, count) => TakeManyKeeps(l, owner, count, n);
        case Give(pos) => if pos < |l.held| { GiveKeeps(l, pos, n); }
        case Hand(pos, to) => HandKeeps(l, pos, to, n);
      }
      PoolConserved(Apply(l, n, ops[0]), n, ops[1..]);
    }
  }

  /** Once every owner has given everything back, the pool is full again. */
  lemma AllReturned(n: nat, ops: seq<PoolOp>)
    requires ApplyAll(Ledger(seq(n, k => k), []), n, ops).held == []
    ensures var free := ApplyAll(Ledger(seq(n, k => k), []), n, ops).free;
            |free| == n && Distinct(free) && InRange(free, n)
  {
    var start := Ledger(seq(n, k => k), []);
    assert HeldIndices(start) == [];
    assert start.free + HeldIndices(start) == start.free;
    PoolConserved(start, n, ops);
    var end := ApplyAll(start, n, ops);
    assert end.free + HeldIndices(end) == end.free;
  }

  // ---- the ledger is the pool ----

  ghost function HeldSet(held: seq<(nat, nat)>): set<nat> {
    set k | 0 <= k < |held| :: held[k].1
  }

  lemma HeldSetMore(held: seq<(nat, nat)>, h: (nat, nat))
    ensures HeldSet(held + [h]) == HeldSet(held) + {h.1}
  {
    var more := held + [h];
    assert more[|held|] == h;
    forall x | x in HeldSet(held) ensures x in HeldSet(more) {
      var i :| 0 <= i < |held| && held[i].1 == x;
      assert more[i].1 == x;
    }
  }

  /** The ledger has the free list of the pool, and somebody holds each index that is out. */
  ghost predicate Records(free: seq<nat>, out: set<nat>, l: Ledger) {
    l.free == free && HeldSet(l.held) == out
  }

  /** What `BurstPool.AllocBatch` does is what the ledger records as `Take`. */
  lemma {:induction false} TakeRecorded(l: Ledger, owner: nat, count: nat, out: set<nat>, batch: seq<nat>,
                                        free': seq<nat>, out': set<nat>)
    requires Records(l.free, out, l) && Popped(l.free, out, count, batch, free', out')
    ensures Records(free', out', TakeMany(l, owner, count))
    decreases count
  {
    hide HeldSet;
    if batch != [] {
      var k := |l.free| - 1;
      HeldSetMore(l.held, (owner, l.free[k]));
      assert batch == [batch[0]] + batch[1..];
      TakeRecorded(Ledger(l.free[..k], l.held + [(owner, l.free[k])]), owner, count - 1, out + {batch[0]}, batch[1..],
                   free', out');
    }
  }

  lemma HeldSetLess(held: seq<(nat, nat)>, pos: nat)
    requires pos < |held| && forall k :: 0 <= k < |held| && k != pos ==> held[k].1 != held[pos].1
    ensures HeldSet(Without(held, pos)) == HeldSet(held) - {held[pos].1}
  {
    var rest := Without(held, pos);
    assert forall k :: 0 <= k < |rest| ==> rest[k] == held[if k < pos then k else k + 1];
    forall x | x in HeldSet(held) - {held[pos].1} ensures x in HeldSet(rest) {
      var k :| 0 <= k < |held| && held[k].1 == x;
      assert rest[if k < pos then k else k - 1].1 == x;
    }
  }

  /** What `BurstPool.FreeOne` does is what the ledger records as `Give`. */
  lemma GiveRecorded(l: Ledger, n: nat, pos: nat, out: set<nat>)
    requires Records(l.free, out, l) && Balanced(l, n) && pos < |l.held|
    ensures var idx := l.held[pos].1;
            idx in out && Records(l.free + [idx], out - {idx}, Apply(l, n, Give(pos)))
  {
    hide Without;
    GiveKeeps(l, pos, n);
    var all := l.free + HeldIndices(l);
    assert forall k :: 0 <= k < |l.held| ==> all[|l.free| + k] == l.held[k].1;
    HeldSetLess(l.held, pos);
  }
}
