/**
 The linked-list table the eDMA engine reads: how a chunk's bursts are merged and written out
 (`dw_edma_v0_core_write_chunk`), and what the engine does with the result.
 */
module DescriptorTable {
  import opened Basics
  import opened Copy

  const LL_SZ := 24

  /** One table element: a data descriptor (LLI) or the link terminator (LLP). */
  datatype Elem =
    | Lli(cb: bool, lie: bool, rie: bool, sz: u32, sar: u64, dar: u64)
    | Llp(cb: bool, tcb: bool, target: u64)

  // ---- merging ----

  /** `curr` starts on the host side where `ptr` ends; the sum is a 64-bit sum. */
  predicate Continues(dir: Dir, ptr: Burst, curr: Burst) {
    Host(dir, curr) == (Host(dir, ptr) + ptr.sz) % (U64_MAX + 1)
  }

  /** The size field is 32 bits wide. */
  function Join(ptr: Burst, curr: Burst): Burst {
    Burst(ptr.sar, ptr.dar, (ptr.sz + curr.sz) % (U32_MAX + 1))
  }

  function MergeFrom(dir: Dir, ptr: Burst, rest: seq<Burst>): (r: seq<Burst>)
    ensures 1 <= |r| <= 1 + |rest|
    decreases rest
  {
    if rest == [] then [ptr]
    else if Continues(dir, ptr, rest[0]) then MergeFrom(dir, Join(ptr, rest[0]), rest[1..])
    else [ptr] + MergeFrom(dir, rest[0], rest[1..])
  }

  /** The burst list after the merge pass of `write_chunk`, which looks at the host side only. */
  function Merge(dir: Dir, bs: seq<Burst>): seq<Burst> {
    if bs == [] then [] else MergeFrom(dir, bs[0], bs[1..])
  }

  /** Each burst stays inside the address space and the device side is one contiguous range. */
  ghost predicate Placed(dir: Dir, bs: seq<Burst>) {
    && (forall i :: 0 <= i < |bs| ==> bs[i].sar + bs[i].sz <= U64_MAX && bs[i].dar + bs[i].sz <= U64_MAX)
    && (forall i :: 0 <= i < |bs| - 1 ==> Dev(dir, bs[i]) + bs[i].sz == Dev(dir, bs[i + 1]))
  }

  /** Bursts `i..j` are one contiguous host range. */
  ghost predicate HostRun(dir: Dir, bs: seq<Burst>, i: nat, j: nat) {
    && i < j <= |bs|
    && forall k :: i <= k < j - 1 ==> Host(dir, bs[k]) + bs[k].sz == Host(dir, bs[k + 1])
  }

  /** Every contiguous host range of the list is small enough for one 32-bit size field. */
  ghost predicate RunsFit(dir: Dir, bs: seq<Burst>) {
    forall i: nat, j: nat :: HostRun(dir, bs, i, j) ==> Size(bs[i..j]) <= U32_MAX
  }

  /** No burst starts on the host side where the one before it ends. */
  ghost predicate Separated(dir: Dir, bs: seq<Burst>) {
    forall i :: 0 <= i < |bs| - 1 ==> Host(dir, bs[i]) + bs[i].sz != Host(dir, bs[i + 1])
  }

  function Front(p: Burst, rest: seq<Burst>): seq<Burst> {
    [p] + rest
  }

  /** A merge never gains bytes. */
  lemma {:induction false} MergeSize(dir: Dir, p: Burst, rest: seq<Burst>)
    ensures Size(MergeFrom(dir, p, rest)) <= p.sz + Size(rest)
    decreases rest
  {
    if rest == [] {
      DenoteOne(p);
    } else if Continues(dir, p, rest[0]) {
      MergeSize(dir, Join(p, rest[0]), rest[1..]);
    } else {
      MergeSize(dir, rest[0], rest[1..]);
      assert ([p] + MergeFrom(dir, rest[0], rest[1..]))[1..] == MergeFrom(dir, rest[0], rest[1..]);
    }
  }

  lemma SizeSplit(bs: seq<Burst>, i: nat, m: nat, j: nat)
    requires i <= m <= j <= |bs|
    ensures Size(bs[i..j]) == Size(bs[i..m]) + Size(bs[m..j])
  {
    assert bs[i..j] == bs[i..m] + bs[m..j];
    DenoteAppend(bs[i..m], bs[m..j]);
  }

  /** `a` is `b` with its first two bursts joined without overflow. */
  ghost predicate Joined(dir: Dir, a: seq<Burst>, b: seq<Burst>) {
    && |b| >= 2 && |a| == |b| - 1
    && Host(dir, b[0]) + b[0].sz == Host(dir, b[1])
    && b[0].sz + b[1].sz <= U32_MAX
    && a[0] == Join(b[0], b[1])
    && a[1..] == b[2..]
  }

  /** A run of the joined list is a run of the original list, and the other way round. */
  lemma JoinedRuns(dir: Dir, a: seq<Burst>, b: seq<Burst>, i: nat, j: nat)
    requires Joined(dir, a, b) && i < j <= |a|
    ensures HostRun(dir, a, i, j) <==> HostRun(dir, b, if i == 0 then 0 else i + 1, j + 1)
    ensures Size(a[i..j]) == Size(b[if i == 0 then 0 else i + 1..j + 1])
  {
    hide Size, HostRun;
    assert forall k :: 1 <= k < |a| ==> a[k] == a[1..][k - 1] == b[2..][k - 1] == b[k + 1];
    if i == 0 {
      assert a[0..1] == [a[0]] && b[0..1] == [b[0]] && b[1..2] == [b[1]];
      DenoteOne(a[0]); DenoteOne(b[0]); DenoteOne(b[1]);
      SizeSplit(a, 0, 1, j);
      SizeSplit(b, 0, 1, 2);
      SizeSplit(b, 0, 2, j + 1);
      assert a[1..j] == b[2..j + 1];
      JoinedHeads(dir, a, b, j);
    } else {
      assert a[i..j] == b[i + 1..j + 1];
      JoinedTails(dir, a, b, i, j);
    }
  }

  lemma JoinedHeads(dir: Dir, a: seq<Burst>, b: seq<Burst>, j: nat)
    requires Joined(dir, a, b) && 0 < j <= |a|
    requires forall k :: 1 <= k < |a| ==> a[k] == b[k + 1]
    ensures HostRun(dir, a, 0, j) <==> HostRun(dir, b, 0, j + 1)
  {
    if HostRun(dir, a, 0, j) {
      forall k | 0 <= k < j ensures Host(dir, b[k]) + b[k].sz == Host(dir, b[k + 1]) {
        if k == 1 {
          assert Host(dir, a[0]) + a[0].sz == Host(dir, a[1]);
        } else if k > 1 {
          assert Host(dir, a[k - 1]) + a[k - 1].sz == Host(dir, a[k]);
        }
      }
    } else if HostRun(dir, b, 0, j + 1) {
      JoinedHeadsBack(dir, a, b, j);
    }
  }

  lemma JoinedHeadsBack(dir: Dir, a: seq<Burst>, b: seq<Burst>, j: nat)
    requires Joined(dir, a, b) && 0 < j <= |a|
    requires forall k :: 1 <= k < |a| ==> a[k] == b[k + 1]
    requires HostRun(dir, b, 0, j + 1)
    ensures HostRun(dir, a, 0, j)
  {
    forall k | 0 <= k < j - 1 ensures Host(dir, a[k]) + a[k].sz == Host(dir, a[k + 1]) {
      assert Host(dir, b[k + 1]) + b[k + 1].sz == Host(dir, b[k + 2]);
    }
  }

  lemma JoinedTails(dir: Dir, a: seq<Burst>, b: seq<Burst>, i: nat, j: nat)
    requires |a| + 1 == |b| && 0 < i < j <= |a|
    requires forall k :: 1 <= k < |a| ==> a[k] == b[k + 1]
    ensures HostRun(dir, a, i, j) <==> HostRun(dir, b, i + 1, j + 1)
  {
    if HostRun(dir, a, i, j) {
      forall k | i + 1 <= k < j ensures Host(dir, b[k]) + b[k].sz == Host(dir, b[k + 1]) {
        assert Host(dir, a[k - 1]) + a[k - 1].sz == Host(dir, a[k]);
      }
    }
    if HostRun(dir, b, i + 1, j + 1) {
      forall k | i <= k < j - 1 ensures Host(dir, a[k]) + a[k].sz == Host(dir, a[k + 1]) {
        assert Host(dir, b[k + 1]) + b[k + 1].sz == Host(dir, b[k + 2]);
      }
    }
  }

  lemma JoinedFits(dir: Dir, a: seq<Burst>, b: seq<Burst>)
    requires Joined(dir, a, b) && RunsFit(dir, b)
    ensures RunsFit(dir, a)
  {
    forall i: nat, j: nat | HostRun(dir, a, i, j) ensures Size(a[i..j]) <= U32_MAX {
      JoinedRuns(dir, a, b, i, j);
    }
  }

  lemma UnjoinedFits(dir: Dir, a: seq<Burst>, b: seq<Burst>)
    requires Joined(dir, a, b) && RunsFit(dir, a)
    ensures RunsFit(dir, b)
  {
    hide Size;
    forall i: nat, j: nat | HostRun(dir, b, i, j) ensures Size(b[i..j]) <= U32_MAX {
      if j == 1 {
        assert b[i..j] == [b[0]];
        DenoteOne(b[0]);
      } else if i <= 1 {
        assert HostRun(dir, b, 0, j);
        JoinedRuns(dir, a, b, 0, j - 1);
        SizeSplit(b, 0, i, j);
      } else {
        JoinedRuns(dir, a, b, i - 1, j - 1);
      }
    }
  }

  /** Dropping a first burst that nothing continues loses no run of two or more bursts. */
  lemma TailFit(dir: Dir, bs: seq<Burst>)
    requires |bs| >= 2 && Host(dir, bs[0]) + bs[0].sz != Host(dir, bs[1])
    ensures RunsFit(dir, bs) <==> RunsFit(dir, bs[1..])
  {
    var t := bs[1..];
    if RunsFit(dir, bs) {
      forall i: nat, j: nat | HostRun(dir, t, i, j) ensures Size(t[i..j]) <= U32_MAX {
        assert forall k :: 0 <= k < |t| ==> t[k] == bs[k + 1];
        assert HostRun(dir, bs, i + 1, j + 1) by {
          forall k | i + 1 <= k < j ensures Host(dir, bs[k]) + bs[k].sz == Host(dir, bs[k + 1]) {
            assert Host(dir, t[k - 1]) + t[k - 1].sz == Host(dir, t[k]);
          }
        }
        assert t[i..j] == bs[i + 1..j + 1];
      }
    }
    if RunsFit(dir, t) {
      forall i: nat, j: nat | HostRun(dir, bs, i, j) ensures Size(bs[i..j]) <= U32_MAX {
        if i == 0 {
          assert j == 1;
          assert bs[0..1] == [bs[0]];
          DenoteOne(bs[0]);
        } else {
          assert HostRun(dir, t, i - 1, j - 1) by {
            forall k | i - 1 <= k < j - 2 ensures Host(dir, t[k]) + t[k].sz == Host(dir, t[k + 1]) {
              assert Host(dir, bs[k + 1]) + bs[k + 1].sz == Host(dir, bs[k + 2]);
            }
          }
          assert t[i - 1..j - 1] == bs[i..j];
        }
      }
    }
  }

  lemma PlacedTail(dir: Dir, bs: seq<Burst>)
    requires Placed(dir, bs) && bs != []
    ensures Placed(dir, bs[1..])
  {
    var t := bs[1..];
    forall i | 0 <= i < |t| - 1 ensures Dev(dir, t[i]) + t[i].sz == Dev(dir, t[i + 1]) {
      assert Dev(dir, bs[i + 1]) + bs[i + 1].sz == Dev(dir, bs[i + 2]);
    }
  }

  lemma PlacedJoin(dir: Dir, a: seq<Burst>, b: seq<Burst>)
    requires Placed(dir, b) && Joined(dir, a, b)
    ensures Placed(dir, a)
  {
    assert forall k :: 1 <= k < |a| ==> a[k] == a[1..][k - 1] == b[2..][k - 1] == b[k + 1];
    assert Dev(dir, b[0]) + b[0].sz == Dev(dir, b[1]);
    forall i | 0 <= i < |a| - 1 ensures Dev(dir, a[i]) + a[i].sz == Dev(dir, a[i + 1]) {
      assert Dev(dir, b[i + 1]) + b[i + 1].sz == Dev(dir, b[i + 2]);
    }
  }

  /** In a placed list, `Continues` is plain host contiguity. */
  lemma ContinuesIff(dir: Dir, bs: seq<Burst>)
    requires Placed(dir, bs) && |bs| >= 2
    ensures Continues(dir, bs[0], bs[1]) <==> Host(dir, bs[0]) + bs[0].sz == Host(dir, bs[1])
  {
    assert bs[0].sar + bs[0].sz <= U64_MAX && bs[0].dar + bs[0].sz <= U64_MAX;
  }

  lemma {:induction false} MergeKeepsFrom(dir: Dir, p: Burst, rest: seq<Burst>)
    requires Placed(dir, Front(p, rest)) && RunsFit(dir, Front(p, rest))
    ensures Denote(MergeFrom(dir, p, rest)) == Denote(Front(p, rest))
    ensures Placed(dir, MergeFrom(dir, p, rest)) && MergeFrom(dir, p, rest)[0].sar == p.sar
    ensures MergeFrom(dir, p, rest)[0].dar == p.dar
    decreases rest
  {
    var bs := Front(p, rest);
    if rest == [] {
    } else {
      ContinuesIff(dir, bs);
      assert rest == [rest[0]] + rest[1..];
      if Continues(dir, p, rest[0]) {
        assert HostRun(dir, bs, 0, 2);
        assert bs[0..2] == [p] + [rest[0]];
        DenoteOne(p); DenoteOne(rest[0]);
        DenoteAppend([p], [rest[0]]);
        var q := Join(p, rest[0]);
        var a := Front(q, rest[1..]);
        assert Joined(dir, a, bs);
        JoinedFits(dir, a, bs);
        PlacedJoin(dir, a, bs);
        MergeKeepsFrom(dir, q, rest[1..]);
        assert Dev(dir, bs[0]) + bs[0].sz == Dev(dir, bs[1]);
        DenoteJoin(p, rest[0], q.sz);
        JoinDenotes(p, rest, q);
      } else {
        assert bs[1..] == Front(rest[0], rest[1..]);
        TailFit(dir, bs);
        PlacedTail(dir, bs);
        MergeKeepsFrom(dir, rest[0], rest[1..]);
        PrependMerged(dir, p, rest);
      }
    }
  }

  lemma JoinDenotes(p: Burst, rest: seq<Burst>, q: Burst)
    requires rest != [] && Denote([q]) == Denote([p]) + Denote([rest[0]])
    ensures Denote(Front(q, rest[1..])) == Denote(Front(p, rest))
  {
    assert rest == [rest[0]] + rest[1..];
    DenoteAppend([q], rest[1..]);
    DenoteAppend([p], rest);
    DenoteAppend([rest[0]], rest[1..]);
    Assoc(Denote([p]), Denote([rest[0]]), Denote(rest[1..]));
  }

  lemma PrependMerged(dir: Dir, p: Burst, rest: seq<Burst>)
    requires rest != [] && Placed(dir, Front(p, rest))
    requires var m := MergeFrom(dir, rest[0], rest[1..]);
             m != [] && Placed(dir, m) && m[0].sar == rest[0].sar && m[0].dar == rest[0].dar
             && Denote(m) == Denote(Front(rest[0], rest[1..]))
    ensures var m := [p] + MergeFrom(dir, rest[0], rest[1..]);
            Denote(m) == Denote(Front(p, rest)) && Placed(dir, m)
  {
    var m := MergeFrom(dir, rest[0], rest[1..]);
    assert Front(rest[0], rest[1..]) == rest;
    DenoteAppend([p], m);
    DenoteAppend([p], rest);
    var bs := Front(p, rest);
    assert bs[0] == p && bs[1] == rest[0];
    assert Dev(dir, bs[0]) + bs[0].sz == Dev(dir, bs[1]);
    var n := [p] + m;
    forall i | 0 <= i < |n| - 1 ensures Dev(dir, n[i]) + n[i].sz == Dev(dir, n[i + 1]) {
      if i > 0 { assert Dev(dir, m[i - 1]) + m[i - 1].sz == Dev(dir, m[i]); }
    }
  }

  lemma SingleFits(dir: Dir, p: Burst)
    ensures RunsFit(dir, Front(p, []))
  {
    var bs := Front(p, []);
    forall i: nat, j: nat | HostRun(dir, bs, i, j) ensures Size(bs[i..j]) <= U32_MAX {
      assert bs[i..j] == [p];
      DenoteOne(p);
    }
  }

  lemma {:induction false} MergeLosesFrom(dir: Dir, p: Burst, rest: seq<Burst>)
    requires Placed(dir, Front(p, rest)) && !RunsFit(dir, Front(p, rest))
    ensures Size(MergeFrom(dir, p, rest)) < p.sz + Size(rest)
    decreases rest
  {
    var bs := Front(p, rest);
    if rest == [] {
      SingleFits(dir, p);
      assert false;
    } else {
      ContinuesIff(dir, bs);
      if Continues(dir, p, rest[0]) {
        if p.sz + rest[0].sz <= U32_MAX {
          var a := Front(Join(p, rest[0]), rest[1..]);
          assert Joined(dir, a, bs);
          if RunsFit(dir, a) { UnjoinedFits(dir, a, bs); }
          PlacedJoin(dir, a, bs);
          MergeLosesFrom(dir, Join(p, rest[0]), rest[1..]);
        } else {
          MergeSize(dir, Join(p, rest[0]), rest[1..]);
        }
      } else {
        assert bs[1..] == Front(rest[0], rest[1..]);
        TailFit(dir, bs);
        PlacedTail(dir, bs);
        MergeLosesFrom(dir, rest[0], rest[1..]);
        assert ([p] + MergeFrom(dir, rest[0], rest[1..]))[1..] == MergeFrom(dir, rest[0], rest[1..]);
      }
    }
  }

  /**
   The merge looks only at the host side and adds sizes in 32 bits.  On a list whose device side is
   contiguous it moves the same bytes exactly when no contiguous host range exceeds 32 bits.
   */
  lemma MergePreservesCopyIff(dir: Dir, bs: seq<Burst>)
    requires Placed(dir, bs)
    ensures Denote(Merge(dir, bs)) == Denote(bs) <==> RunsFit(dir, bs)
    ensures RunsFit(dir, bs) ==> Placed(dir, Merge(dir, bs))
  {
    if bs == [] {
    } else {
      assert Front(bs[0], bs[1..]) == bs;
      if RunsFit(dir, bs) {
        MergeKeepsFrom(dir, bs[0], bs[1..]);
      } else {
        MergeLosesFrom(dir, bs[0], bs[1..]);
        DenoteLength(bs);
        DenoteLength(Merge(dir, bs));
      }
    }
  }

  /** A concrete list on which the merge loses 4 GiB: two contiguous entries of 2 GiB and 2 GiB + 1. */
  lemma MergeCanWrap()
    ensures var bs := [Burst(0, 0, 0x8000_0000), Burst(0x8000_0000, 0x8000_0000, 0x8000_0001)];
            Placed(Write, bs) && Merge(Write, bs) == [Burst(0, 0, 1)] && Denote(Merge(Write, bs)) != Denote(bs)
  {
    var a, b := Burst(0, 0, 0x8000_0000), Burst(0x8000_0000, 0x8000_0000, 0x8000_0001);
    var bs := [a, b];
    assert bs[1..] == [b] && [b][1..] == [];
    assert Continues(Write, a, b) && Join(a, b) == Burst(0, 0, 1);
    assert MergeFrom(Write, a, [b]) == MergeFrom(Write, Join(a, b), []);
    DenoteLength(bs);
    DenoteLength(Merge(Write, bs));
    DenoteOne(Burst(0, 0, 1));
  }

  lemma {:induction false} MergeSeparatedFrom(dir: Dir, p: Burst, rest: seq<Burst>)
    requires Placed(dir, Front(p, rest)) && Separated(dir, Front(p, rest))
    ensures MergeFrom(dir, p, rest) == Front(p, rest)
    decreases rest
  {
    var bs := Front(p, rest);
    if rest != [] {
      ContinuesIff(dir, bs);
      assert Host(dir, bs[0]) + bs[0].sz != Host(dir, bs[1]);
      assert bs[1..] == Front(rest[0], rest[1..]) == rest;
      PlacedTail(dir, bs);
      forall i | 0 <= i < |rest| - 1 ensures Host(dir, rest[i]) + rest[i].sz != Host(dir, rest[i + 1]) {
        assert Host(dir, bs[i + 1]) + bs[i + 1].sz != Host(dir, bs[i + 2]);
      }
      MergeSeparatedFrom(dir, rest[0], rest[1..]);
    }
  }

  /** On a list without host-contiguous neighbours the merge changes nothing. */
  lemma MergeUnchanged(dir: Dir, bs: seq<Burst>)
    requires Placed(dir, bs) && Separated(dir, bs)
    ensures Merge(dir, bs) == bs
  {
    if bs != [] {
      assert Front(bs[0], bs[1..]) == bs;
      MergeSeparatedFrom(dir, bs[0], bs[1..]);
    }
  }

  /** A list of at most U32_MAX bytes fits. */
  lemma SmallListFits(dir: Dir, bs: seq<Burst>)
    requires Size(bs) <= U32_MAX
    ensures RunsFit(dir, bs)
  {
    forall i: nat, j: nat | HostRun(dir, bs, i, j) ensures Size(bs[i..j]) <= U32_MAX {
      SizeSplit(bs, 0, i, |bs|);
      SizeSplit(bs, i, j, |bs|);
      assert bs[0..|bs|] == bs;
    }
  }

  // ---- emission and consumption ----

  /** `dw_edma_v0_gen_lli`: only the last element raises the local and remote interrupt. */
  function GenLli(cb: bool, b: Burst, remain: nat): Elem {
    Lli(cb, remain == 0, remain == 0, b.sz, b.sar, b.dar)
  }

  /** `dw_edma_v0_gen_llp`: the terminator carries the opposite change bit and toggles. */
  function GenLlp(cb: bool, target: u64): Elem {
    Llp(!cb, true, target)
  }

  /** The table contents `write_chunk` leaves for a burst list. */
  function Emit(bs: seq<Burst>, cb: bool, target: u64): (r: seq<Elem>)
    ensures |r| == |bs| + 1
  {
    seq(|bs| + 1, i requires 0 <= i <= |bs| =>
      if i < |bs| then GenLli(cb, bs[i], |bs| - 1 - i) else GenLlp(cb, target))
  }

  function BurstOf(e: Elem): Burst
    requires e.Lli?
  {
    Burst(e.sar, e.dar, e.sz)
  }

  /** What the engine executes from index `i` with consumer cycle state `ccs`. */
  function Consume(table: seq<Elem>, ccs: bool, i: nat): seq<Burst>
    decreases |table| - i
  {
    if i < |table| && table[i].Lli? && table[i].cb == ccs
    then [BurstOf(table[i])] + Consume(table, ccs, i + 1)
    else []
  }

  /** The index at which the engine stops. */
  function StopIndex(table: seq<Elem>, ccs: bool, i: nat): nat
    decreases |table| - i
  {
    if i < |table| && table[i].Lli? && table[i].cb == ccs then StopIndex(table, ccs, i + 1) else i
  }

  lemma {:induction false} ConsumeFrom(bs: seq<Burst>, cb: bool, target: u64, stale: seq<Elem>, i: nat)
    requires i <= |bs|
    ensures Consume(Emit(bs, cb, target) + stale, cb, i) == bs[i..]
    ensures StopIndex(Emit(bs, cb, target) + stale, cb, i) == |bs|
    decreases |bs| - i
  {
    var table := Emit(bs, cb, target) + stale;
    if i == |bs| {
      assert table[i] == GenLlp(cb, target);
    } else {
      assert table[i] == GenLli(cb, bs[i], |bs| - 1 - i);
      ConsumeFrom(bs, cb, target, stale, i + 1);
      assert bs[i..] == [bs[i]] + bs[i + 1..];
    }
  }

  /**
   Whatever stale elements follow the copied range, the engine executes exactly the emitted bursts in
   order and stops at the terminator, which toggles the change bit and links to `target`; only the last one raises an
   interrupt.
   */
  lemma EngineExecutesEmitted(bs: seq<Burst>, cb: bool, target: u64, stale: seq<Elem>)
    ensures var table := Emit(bs, cb, target) + stale;
            && Consume(table, cb, 0) == bs
            && StopIndex(table, cb, 0) == |bs|
            && table[|bs|] == Llp(!cb, true, target)
            && forall i :: 0 <= i < |bs| ==>
                 table[i].Lli? && (table[i].lie <==> i == |bs| - 1) && table[i].rie == table[i].lie
  {
    ConsumeFrom(bs, cb, target, stale, 0);
    var table := Emit(bs, cb, target) + stale;
    assert table[|bs|] == GenLlp(cb, target);
    forall i | 0 <= i < |bs| ensures table[i] == GenLli(cb, bs[i], |bs| - 1 - i) {
    }
  }

  /** The number of data descriptors a region of `region` bytes is given. */
  function LlMax(region: nat): int {
    region / LL_SZ - 1
  }

  /** `n` descriptors and the terminator fit the region they were sized for. */
  lemma CopiedRangeFits(region: nat, n: nat)
    requires n <= LlMax(region)
    ensures (n + 1) * LL_SZ <= region
  {
    assert (region / LL_SZ) * LL_SZ <= region;
    assert (n + 1) * LL_SZ <= (region / LL_SZ) * LL_SZ;
  }
}
