/**
 The meaning of a DMA transfer: which source byte goes to which destination byte.

 Two independent readings are defined here and connected by every other module:
 - `CopyOf` reads a mapped scatter-gather list against one contiguous device range;
 - `Denote` reads a list of bursts, the unit the eDMA engine executes.
 */
module Copy {
  import opened Basics

  /** Direction of a channel: `Write` moves device memory to the host, `Read` moves host memory to the device. */
  datatype Dir = Write | Read

  /** One mapped scatter-gather entry (`sg_dma_address`, `sg_dma_len`). */
  datatype Sg = Sg(addr: u64, len: u32)

  /** One burst: `sz` bytes from `sar` to `dar`. */
  datatype Burst = Burst(sar: u64, dar: u64, sz: u32)

  /** One byte moved from `src` to `dst`. */
  datatype Move = Move(src: nat, dst: nat)

  function Host(dir: Dir, b: Burst): u64 {
    if dir.Write? then b.dar else b.sar
  }

  function Dev(dir: Dir, b: Burst): u64 {
    if dir.Write? then b.sar else b.dar
  }

  function MakeBurst(dir: Dir, host: u64, dev: u64, len: u32): Burst {
    if dir.Write? then Burst(dev, host, len) else Burst(host, dev, len)
  }

  /** The byte at host address `host` and the byte at device address `dev` are paired. */
  function Pair(dir: Dir, host: nat, dev: nat): Move {
    if dir.Write? then Move(dev, host) else Move(host, dev)
  }

  /** `len` consecutive bytes paired up, starting at `host` and `dev`. */
  function Run(dir: Dir, host: nat, dev: nat, len: nat): (r: seq<Move>)
    ensures |r| == len
  {
    seq(len, k requires 0 <= k < len => Pair(dir, host + k, dev + k))
  }

  /** The copy a scatter-gather list asks for, against the device range that starts at `dev`. */
  function CopyOf(dir: Dir, sgs: seq<Sg>, dev: nat): seq<Move> {
    if sgs == [] then [] else Run(dir, sgs[0].addr, dev, sgs[0].len) + CopyOf(dir, sgs[1..], dev + sgs[0].len)
  }

  function Bytes(sgs: seq<Sg>): nat {
    if sgs == [] then 0 else sgs[0].len + Bytes(sgs[1..])
  }

  function Move1(b: Burst): (r: seq<Move>)
    ensures |r| == b.sz
  {
    seq(b.sz, k requires 0 <= k < b.sz => Move(b.sar + k, b.dar + k))
  }

  /** The bytes a list of bursts moves, in order. */
  function Denote(bs: seq<Burst>): seq<Move> {
    if bs == [] then [] else Move1(bs[0]) + Denote(bs[1..])
  }

  function Size(bs: seq<Burst>): nat {
    if bs == [] then 0 else bs[0].sz + Size(bs[1..])
  }

  lemma Assoc<T>(a: seq<T>, b: seq<T>, c: seq<T>)
    ensures (a + b) + c == a + (b + c)
  {
  }

  lemma {:induction false} BytesAppend(a: seq<Sg>, b: seq<Sg>)
    ensures Bytes(a + b) == Bytes(a) + Bytes(b)
  {
    if a == [] {
      assert a + b == b;
    } else {
      BytesAppend(a[1..], b);
      assert (a + b)[1..] == a[1..] + b;
    }
  }

  lemma {:induction false} CopyAppend(dir: Dir, a: seq<Sg>, b: seq<Sg>, dev: nat)
    ensures CopyOf(dir, a + b, dev) == CopyOf(dir, a, dev) + CopyOf(dir, b, dev + Bytes(a))
  {
    if a == [] {
      assert a + b == b;
    } else {
      var first, rest := Run(dir, a[0].addr, dev, a[0].len), dev + a[0].len;
      calc {
        CopyOf(dir, a + b, dev);
        { CopyUnfold(dir, a + b, dev); assert (a + b)[1..] == a[1..] + b; }
        first + CopyOf(dir, a[1..] + b, rest);
        { CopyAppend(dir, a[1..], b, rest); }
        first + (CopyOf(dir, a[1..], rest) + CopyOf(dir, b, rest + Bytes(a[1..])));
        { Assoc(first, CopyOf(dir, a[1..], rest), CopyOf(dir, b, rest + Bytes(a[1..]))); }
        (first + CopyOf(dir, a[1..], rest)) + CopyOf(dir, b, rest + Bytes(a[1..]));
        { CopyUnfold(dir, a, dev); assert rest + Bytes(a[1..]) == dev + Bytes(a); }
        CopyOf(dir, a, dev) + CopyOf(dir, b, dev + Bytes(a));
      }
    }
  }

  lemma CopyUnfold(dir: Dir, sgs: seq<Sg>, dev: nat)
    requires sgs != []
    ensures CopyOf(dir, sgs, dev) == Run(dir, sgs[0].addr, dev, sgs[0].len) + CopyOf(dir, sgs[1..], dev + sgs[0].len)
  {
  }

  /** Splitting a slice of a scatter-gather list splits its copy and its byte count. */
  lemma CopySplit(dir: Dir, sgs: seq<Sg>, lo: nat, mid: nat, hi: nat, dev: nat)
    requires lo <= mid <= hi <= |sgs|
    ensures CopyOf(dir, sgs[lo..hi], dev)
         == CopyOf(dir, sgs[lo..mid], dev) + CopyOf(dir, sgs[mid..hi], dev + Bytes(sgs[lo..mid]))
    ensures Bytes(sgs[lo..hi]) == Bytes(sgs[lo..mid]) + Bytes(sgs[mid..hi])
  {
    assert sgs[lo..hi] == sgs[lo..mid] + sgs[mid..hi];
    CopyAppend(dir, sgs[lo..mid], sgs[mid..hi], dev);
    BytesAppend(sgs[lo..mid], sgs[mid..hi]);
  }

  lemma {:induction false} DenoteAppend(a: seq<Burst>, b: seq<Burst>)
    ensures Denote(a + b) == Denote(a) + Denote(b)
    ensures Size(a + b) == Size(a) + Size(b)
  {
    hide Move1;
    if a == [] {
      assert a + b == b;
    } else {
      DenoteAppend(a[1..], b);
      calc {
        Denote(a + b);
        { assert (a + b)[1..] == a[1..] + b; }
        Move1(a[0]) + Denote(a[1..] + b);
        Move1(a[0]) + (Denote(a[1..]) + Denote(b));
        { Assoc(Move1(a[0]), Denote(a[1..]), Denote(b)); }
        Denote(a) + Denote(b);
      }
    }
  }

  /** A list of bursts moves as many bytes as the sum of its sizes. */
  lemma {:induction false} DenoteLength(bs: seq<Burst>)
    ensures |Denote(bs)| == Size(bs)
  {
    if bs != [] {
      DenoteLength(bs[1..]);
    }
  }

  lemma DenoteOne(b: Burst)
    ensures Denote([b]) == Move1(b) && Size([b]) == b.sz
  {
    assert [b][1..] == [];
  }

  /** A burst made for one entry moves exactly that entry. */
  lemma DenoteEntry(dir: Dir, sg: Sg, dev: u64)
    ensures Denote([MakeBurst(dir, sg.addr, dev, sg.len)]) == CopyOf(dir, [sg], dev)
    ensures Bytes([sg]) == sg.len
  {
    DenoteOne(MakeBurst(dir, sg.addr, dev, sg.len));
    assert [sg][1..] == [];
    var b := MakeBurst(dir, sg.addr, dev, sg.len);
    forall k | 0 <= k < sg.len
      ensures Move1(b)[k] == Run(dir, sg.addr, dev, sg.len)[k]
    {
      assert Move1(b)[k] == Move(b.sar + k, b.dar + k);
      assert Run(dir, sg.addr, dev, sg.len)[k] == Pair(dir, sg.addr + k, dev + k);
    }
    assert Move1(b) == Run(dir, sg.addr, dev, sg.len);
  }

  /** Two bursts that continue each other on both sides are one longer burst. */
  lemma DenoteJoin(a: Burst, b: Burst, n: u32)
    requires a.sar + a.sz == b.sar && a.dar + a.sz == b.dar && n == a.sz + b.sz
    ensures Denote([Burst(a.sar, a.dar, n)]) == Denote([a]) + Denote([b])
  {
    DenoteOne(a);
    DenoteOne(b);
    DenoteOne(Burst(a.sar, a.dar, n));
    assert Move1(Burst(a.sar, a.dar, n)) == Move1(a) + Move1(b);
  }
}
