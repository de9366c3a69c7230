/**
 The response pool of one channel: a ring of slots, reused in order, that are linked into an intrusive list while they
 wait to be read.  It is a bounded queue that drops its oldest entry when full.
 */
module ResponseRing {
  import opened Basics

  // ---- circular doubly linked lists over slot numbers ----

  function Succ(nodes: seq<nat>, i: nat): nat
    requires i < |nodes|
  {
    if i + 1 < |nodes| then nodes[i + 1] else nodes[0]
  }

  function Pred(nodes: seq<nat>, i: nat): nat
    requires i < |nodes|
  {
    if i > 0 then nodes[i - 1] else nodes[|nodes| - 1]
  }

  /** All nodes are in range and distinct, and a node outside the list is linked to itself. */
  ghost predicate Closed(link: seq<nat>, nodes: seq<nat>) {
    && nodes != [] && Distinct(nodes)
    && (forall i :: 0 <= i < |nodes| ==> nodes[i] < |link|)
    && (forall x :: 0 <= x < |link| && x !in nodes ==> link[x] == x)
  }

  ghost predicate Forward(next: seq<nat>, nodes: seq<nat>) {
    Closed(next, nodes) && forall i :: 0 <= i < |nodes| ==> next[nodes[i]] == Succ(nodes, i)
  }

  ghost predicate Backward(prev: seq<nat>, nodes: seq<nat>) {
    Closed(prev, nodes) && forall i :: 0 <= i < |nodes| ==> prev[nodes[i]] == Pred(nodes, i)
  }

  /** `nodes` is the doubly linked list, starting at its head. */
  ghost predicate Ring(next: seq<nat>, prev: seq<nat>, nodes: seq<nat>) {
    |next| == |prev| && Forward(next, nodes) && Backward(prev, nodes)
  }

  /** The list without the node at position `j`. */
  function Removed(nodes: seq<nat>, j: nat): seq<nat>
    requires j < |nodes|
  {
    nodes[..j] + nodes[j + 1..]
  }

  lemma RemovedAt(nodes: seq<nat>, j: nat)
    requires j < |nodes| && Distinct(nodes)
    ensures var rest := Removed(nodes, j);
            && |rest| == |nodes| - 1 && Distinct(rest)
            && (forall i :: 0 <= i < |rest| ==> rest[i] == nodes[if i < j then i else i + 1])
            && (forall y :: y in rest <==> y in nodes && y != nodes[j])
  {
    var rest := Removed(nodes, j);
    forall y ensures y in rest <==> y in nodes && y != nodes[j] {
      if y in nodes && y != nodes[j] {
        var i :| 0 <= i < |nodes| && nodes[i] == y;
        assert rest[if i < j then i else i - 1] == y;
      }
    }
  }

  lemma UnlinkClosed(link: seq<nat>, nodes: seq<nat>, j: nat, p: nat, n: nat)
    requires Closed(link, nodes) && 0 < j < |nodes| && p in nodes && p != nodes[j]
    ensures p < |link| && Closed(link[p := n][nodes[j] := nodes[j]], Removed(nodes, j))
  {
    RemovedAt(nodes, j);
  }

  /** Where position `i` of the shortened list was before. */
  function Was(j: nat, i: nat): nat {
    if i < j then i else i + 1
  }

  lemma RemovedLinks(nodes: seq<nat>, j: nat, i: nat)
    requires Distinct(nodes) && 0 < j < |nodes| && i < |nodes| - 1
    ensures var rest := Removed(nodes, j);
            && rest[i] == nodes[Was(j, i)]
            && Succ(rest, i) == Succ(nodes, if i == j - 1 then j else Was(j, i))
            && Pred(rest, i) == (if Succ(nodes, j) == rest[i] then nodes[j - 1] else Pred(nodes, Was(j, i)))
  {
    var rest := Removed(nodes, j);
    assert rest[i] == nodes[Was(j, i)];
    if i + 1 < |rest| { assert rest[i + 1] == nodes[Was(j, i + 1)]; }
    if i > 0 { assert rest[i - 1] == nodes[Was(j, i - 1)]; }
    assert rest[0] == nodes[0] && rest[|rest| - 1] == nodes[Was(j, |rest| - 1)];
  }

  lemma UnlinkForwardAt(next: seq<nat>, nodes: seq<nat>, j: nat, i: nat)
    requires Forward(next, nodes) && 0 < j < |nodes| && i < |nodes| - 1
    ensures var x, p, y := nodes[j], nodes[j - 1], Removed(nodes, j)[i];
            p < |next| && y < |next| && next[p := next[x]][x := x][y] == Succ(Removed(nodes, j), i)
  {
    hide Removed, Succ;
    RemovedLinks(nodes, j, i);
    var k := Was(j, i);
    assert next[nodes[k]] == Succ(nodes, k) && next[nodes[j]] == Succ(nodes, j);
    assert nodes[k] != nodes[j];
    assert i != j - 1 ==> nodes[k] != nodes[j - 1];
  }

  lemma UnlinkForward(next: seq<nat>, nodes: seq<nat>, j: nat)
    requires Forward(next, nodes) && 0 < j < |nodes|
    ensures var x, p := nodes[j], nodes[j - 1];
            p < |next| && next[x] == Succ(nodes, j) && Forward(next[p := next[x]][x := x], Removed(nodes, j))
  {
    hide Closed, Removed, Succ;
    var x, p, rest := nodes[j], nodes[j - 1], Removed(nodes, j);
    Parts(next, nodes);
    assert p in nodes;
    RemovedAt(nodes, j);
    UnlinkClosed(next, nodes, j, p, next[x]);
    var next' := next[p := next[x]][x := x];
    Parts(next', rest);
    forall i | 0 <= i < |rest| ensures next'[rest[i]] == Succ(rest, i) {
      UnlinkForwardAt(next, nodes, j, i);
    }
  }

  lemma Parts(link: seq<nat>, nodes: seq<nat>)
    requires Closed(link, nodes)
    ensures nodes != [] && Distinct(nodes) && forall i :: 0 <= i < |nodes| ==> nodes[i] < |link|
  {
  }

  lemma UnlinkBackwardAt(prev: seq<nat>, nodes: seq<nat>, j: nat, i: nat)
    requires Backward(prev, nodes) && 0 < j < |nodes| && i < |nodes| - 1
    ensures var x, n, y := nodes[j], Succ(nodes, j), Removed(nodes, j)[i];
            n < |prev| && y < |prev| && prev[n := prev[x]][x := x][y] == Pred(Removed(nodes, j), i)
  {
    hide Removed, Pred;
    RemovedLinks(nodes, j, i);
    var k := Was(j, i);
    assert prev[nodes[k]] == Pred(nodes, k) && prev[nodes[j]] == Pred(nodes, j);
    PredAt(nodes, j);
    assert nodes[k] != nodes[j];
  }

  lemma PredAt(nodes: seq<nat>, j: nat)
    requires 0 < j < |nodes|
    ensures Pred(nodes, j) == nodes[j - 1]
  {
  }

  lemma UnlinkBackward(prev: seq<nat>, nodes: seq<nat>, j: nat)
    requires Backward(prev, nodes) && 0 < j < |nodes|
    ensures var x, n := nodes[j], Succ(nodes, j);
            n < |prev| && prev[x] == nodes[j - 1] && Backward(prev[n := prev[x]][x := x], Removed(nodes, j))
  {
    hide Closed, Removed, Pred;
    var x, n, rest := nodes[j], Succ(nodes, j), Removed(nodes, j);
    Parts(prev, nodes);
    assert n in nodes && n != x;
    RemovedAt(nodes, j);
    PredAt(nodes, j);
    UnlinkClosed(prev, nodes, j, n, prev[x]);
    var prev' := prev[n := prev[x]][x := x];
    Parts(prev', rest);
    forall i | 0 <= i < |rest| ensures prev'[rest[i]] == Pred(rest, i) {
      UnlinkBackwardAt(prev, nodes, j, i);
    }
  }

  /** The pointer writes of `list_del_init` at node `x` make the ring that of `nodes`. */
  ghost predicate Unlinked(next: seq<nat>, prev: seq<nat>, x: nat, nodes: seq<nat>) {
    && |next| == |prev| && x < |next| && prev[x] < |next| && next[x] < |next|
    && Ring(next[prev[x] := next[x]][x := x], prev[next[x] := prev[x]][x := x], nodes)
  }

  /** `list_del_init` of the node at position `j`. */
  lemma Unlink(next: seq<nat>, prev: seq<nat>, nodes: seq<nat>, j: nat)
    requires Ring(next, prev, nodes) && 0 < j < |nodes|
    ensures Unlinked(next, prev, nodes[j], Removed(nodes, j))
  {
    hide Forward, Backward;
    UnlinkForward(next, nodes, j);
    UnlinkBackward(prev, nodes, j);
    assert nodes[j] < |next| by { InRange(next, nodes, j); }
  }

  lemma InRange(next: seq<nat>, nodes: seq<nat>, j: nat)
    requires Forward(next, nodes) && j < |nodes|
    ensures nodes[j] < |next|
  {
  }

  lemma LinkClosed(link: seq<nat>, nodes: seq<nat>, x: nat, y: nat, p: nat)
    requires Closed(link, nodes) && x < |link| && x !in nodes && p in nodes
    ensures p < |link| && Closed(link[x := y][p := x], nodes + [x])
  {
  }

  lemma LinkForward(next: seq<nat>, nodes: seq<nat>, x: nat)
    requires Forward(next, nodes) && x < |next| && x !in nodes
    ensures var h, p := nodes[0], nodes[|nodes| - 1];
            p < |next| && Forward(next[x := h][p := x], nodes + [x])
    ensures nodes != []
  {
    hide Closed;
    Parts(next, nodes);
    var h, p, more := nodes[0], nodes[|nodes| - 1], nodes + [x];
    LinkClosed(next, nodes, x, h, p);
    forall i | 0 <= i < |more| ensures next[x := h][p := x][more[i]] == Succ(more, i) {
      if i < |nodes| { assert more[i] == nodes[i]; }
    }
  }

  lemma LinkBackward(prev: seq<nat>, nodes: seq<nat>, x: nat)
    requires Backward(prev, nodes) && x < |prev| && x !in nodes
    ensures var h := nodes[0];
            h < |prev| && prev[h] == nodes[|nodes| - 1] && Backward(prev[x := prev[h]][h := x], nodes + [x])
  {
    hide Closed;
    Parts(prev, nodes);
    var h, p, more := nodes[0], prev[nodes[0]], nodes + [x];
    LinkClosed(prev, nodes, x, p, h);
    forall i | 0 <= i < |more| ensures prev[x := p][h := x][more[i]] == Pred(more, i) {
      if i < |nodes| { assert more[i] == nodes[i]; }
    }
  }

  /** The pointer writes of `list_add_tail` of node `x` in front of head `h` make the ring that of `nodes`. */
  ghost predicate LinkedLast(next: seq<nat>, prev: seq<nat>, h: nat, x: nat, nodes: seq<nat>) {
    && |next| == |prev| && x < |next| && h < |next| && prev[h] < |next|
    && Ring(next[x := h][prev[h] := x], prev[x := prev[h]][h := x], nodes)
  }

  /** `list_add_tail` of an unlinked node. */
  lemma LinkLast(next: seq<nat>, prev: seq<nat>, nodes: seq<nat>, x: nat)
    requires Ring(next, prev, nodes) && x < |next| && x !in nodes
    ensures LinkedLast(next, prev, nodes[0], x, nodes + [x])
  {
    hide Forward, Backward;
    LinkForward(next, nodes, x);
    LinkBackward(prev, nodes, x);
  }

  // ---- which slots are linked ----

  /** The slot at distance `k` from the oldest of `n` entries, when the next slot to use is `header`. */
  function SlotAt(size: nat, header: nat, n: nat, k: nat): (r: nat)
    requires 0 < size && header <= size && k < n <= size
    ensures r < size
  {
    var r := header + size - n + k;
    if r < size then r else r - size
  }

  /** The linked slots are the last `|slots|` ones handed out. */
  predicate Recent(size: nat, header: nat, slots: seq<nat>) {
    0 < size && header <= size && |slots| <= size
    && forall k :: 0 <= k < |slots| ==> slots[k] == SlotAt(size, header, |slots|, k)
  }

  /** The slot about to be reused is linked only when the ring is full, and then it is the oldest entry. */
  lemma ReusedIsOldest(size: nat, header: nat, slots: seq<nat>)
    requires Recent(size, header, slots)
    ensures var h := if header == size then 0 else header;
            && (h in slots <==> |slots| == size)
            && (|slots| == size ==> slots[0] == h)
  {
    if |slots| == size { assert slots[0] == SlotAt(size, header, size, 0); }
  }

  lemma ReusedSlot(size: nat, header: nat, slots: seq<nat>)
    requires Recent(size, header, slots)
    ensures size > 0 && header % size < size && (header % size in slots <==> |slots| == size)
    ensures |slots| == size ==> slots[0] == header % size
    ensures forall k :: 0 <= k < |slots| ==> slots[k] < size
  {
    assert header % size == if header == size then 0 else header;
    ReusedIsOldest(size, header, slots);
  }

  lemma RecentPush(size: nat, header: nat, slots: seq<nat>)
    requires Recent(size, header, slots) && |slots| < size
    ensures var h := if header == size then 0 else header;
            Recent(size, h + 1, slots + [h])
  {
  }

  lemma RecentPop(size: nat, header: nat, slots: seq<nat>)
    requires Recent(size, header, slots) && slots != []
    ensures Recent(size, header, slots[1..])
  {
  }

  // ---- the bounded queue it implements ----

  /** A queue of at most `size` entries that makes room by dropping the oldest one. */
  function Push<T>(size: nat, q: seq<T>, r: T): seq<T> {
    (if q != [] && |q| == size then q[1..] else q) + [r]
  }

  datatype Op<T> = Enqueue(r: T) | Dequeue | Clear

  /** A queue together with everything that ever entered and left it, in order. */
  datatype Log<T> = Log(queue: seq<T>, entered: seq<T>, left: seq<T>)

  function Step<T>(size: nat, l: Log<T>, op: Op<T>): Log<T> {
    match op
    case Enqueue(r) =>
      Log(Push(size, l.queue, r), l.entered + [r],
          if l.queue != [] && |l.queue| == size then l.left + [l.queue[0]] else l.left)
    case Dequeue => if l.queue == [] then l else Log(l.queue[1..], l.entered, l.left + [l.queue[0]])
    case Clear => Log([], l.entered, l.left + l.queue)
  }

  function Run<T>(size: nat, l: Log<T>, ops: seq<Op<T>>): Log<T>
    decreases |ops|
  {
    if ops == [] then l else Run(size, Step(size, l, ops[0]), ops[1..])
  }

  /**
   What left, followed by what waits, is what entered: nothing is lost, duplicated or reordered; and never more than
   `size` wait.
   */
  lemma {:induction false} RunIsFifo<T>(size: nat, l: Log<T>, ops: seq<Op<T>>)
    requires size > 0 && l.left + l.queue == l.entered && |l.queue| <= size
    ensures var r := Run(size, l, ops); r.left + r.queue == r.entered && |r.queue| <= size
    decreases |ops|
  {
    if ops != [] {
      StepIsFifo(size, l, ops[0]);
      RunIsFifo(size, Step(size, l, ops[0]), ops[1..]);
    }
  }

  lemma StepIsFifo<T>(size: nat, l: Log<T>, op: Op<T>)
    requires size > 0 && l.left + l.queue == l.entered && |l.queue| <= size
    ensures var r := Step(size, l, op); r.left + r.queue == r.entered && |r.queue| <= size
  {
    if l.queue != [] { assert l.queue == [l.queue[0]] + l.queue[1..]; }
  }

  // ---- the pool ----

  ghost function Gather<T>(mem: seq<T>, slots: seq<nat>): seq<T>
    requires forall k :: 0 <= k < |slots| ==> slots[k] < |mem|
  {
    seq(|slots|, k requires 0 <= k < |slots| => mem[slots[k]])
  }

  /** What the links of the list head and of a slot tell. */
  lemma HeadLinks(next: seq<nat>, prev: seq<nat>, size: nat, slots: seq<nat>)
    requires Ring(next, prev, [size] + slots)
    ensures size < |next| && next[size] == if slots == [] then size else slots[0]
    ensures slots != [] ==> slots[0] != size
  {
    var nodes := [size] + slots;
    assert nodes[0] == size;
    if slots != [] { assert nodes[1] == slots[0]; }
  }

  lemma SecondLink(next: seq<nat>, prev: seq<nat>, size: nat, slots: seq<nat>)
    requires Ring(next, prev, [size] + slots) && slots != []
    ensures slots[0] < |next| && next[slots[0]] == if slots[1..] == [] then size else slots[1]
  {
    var nodes := [size] + slots;
    assert nodes[1] == slots[0] && nodes[0] == size;
    if |slots| > 1 { assert nodes[2] == slots[1]; }
  }

  /** After the overflow guard, the slot at the header is free and the rest are the most recent ones. */
  lemma KeptSlots(size: nat, header: nat, was: seq<nat>, kept: seq<nat>)
    requires Recent(size, header, was) && kept == if |was| == size then was[1..] else was
    ensures var x := header % size;
            x < size && x !in kept && Recent(size, x + 1, kept + [x])
  {
    var x := if header == size then 0 else header;
    assert header % size == x;
    if |was| == size { RecentPop(size, header, was); }
    ReusedIsOldest(size, header, kept);
    RecentPush(size, header, kept);
  }

  /** The queue after slot `x` was rewritten and appended. */
  lemma Requeued<T>(size: nat, mem: seq<T>, was: seq<nat>, kept: seq<nat>, x: nat, r: T)
    requires size > 0 && |mem| == size && (forall k :: 0 <= k < |was| ==> was[k] < size)
    requires kept == (if |was| == size then was[1..] else was) && x < size && x !in kept
    ensures Gather(mem[x := r], kept + [x]) == Push(size, Gather(mem, was), r)
  {
  }

  /** A slot is linked exactly when it is in the list. */
  lemma LinkedIff(next: seq<nat>, prev: seq<nat>, size: nat, slots: seq<nat>, x: nat)
    requires Ring(next, prev, [size] + slots) && x < |next| && x != size
    ensures next[x] != x <==> x in slots
  {
    var nodes := [size] + slots;
    if x in slots {
      var i :| 0 <= i < |slots| && slots[i] == x;
      assert nodes[i + 1] == x;
      assert nodes[0] != x;
    }
  }

  class ResponsePool<T> {
    const size: nat
    const next: array<nat>
    const prev: array<nat>
    const response: array<T>
    var header: nat
    ghost var slots: seq<nat>    // the linked slots, oldest first

    /** The links of the list are in order. */
    ghost predicate Linked()
      reads this, next, prev
    {
      && next.Length == prev.Length == size + 1 && response.Length == size && next != prev
      && Ring(next[..], prev[..], [size] + slots)
    }

    ghost predicate Valid()
      reads this, next, prev
    {
      Linked() && Recent(size, header, slots)
    }

    /** The waiting responses, oldest first. */
    ghost function Queue(): seq<T>
      requires Valid()
      reads this, next, prev, response
    {
      Gather(response[..], slots)
    }

    constructor (size: nat, blank: T)
      requires size > 0
      ensures Valid() && this.size == size && Queue() == []
      ensures fresh(next) && fresh(prev) && fresh(response)
    {
      this.size := size;
      next := new nat[size + 1](i => i);
      prev := new nat[size + 1](i => i);
      response := new T[size](_ => blank);
      header := 0;
      slots := [];
    }

    method IsEmpty() returns (empty: bool)
      requires Valid()
      ensures empty <==> Queue() == []
    {
      HeadLinks(next[..], prev[..], size, slots);
      empty := next[size] == size;
    }

    /** `list_del_init` of the oldest entry. */
    method DelFirst(x: nat)
      requires Linked() && slots != [] && x == slots[0]
      modifies this`slots, next, prev
      ensures Linked() && slots == old(slots)[1..]
    {
      hide Ring;
      Unlink(next[..], prev[..], [size] + slots, 1);
      assert Removed([size] + slots, 1) == [size] + slots[1..];
      var p, n := prev[x], next[x];
      next[p] := n;
      prev[n] := p;
      next[x], prev[x] := x, x;
      assert next[..] == old(next[..])[p := n][x := x];
      assert prev[..] == old(prev[..])[n := p][x := x];
      slots := slots[1..];
    }

    /** `list_add_tail` of an unlinked slot. */
    method AddTail(x: nat)
      requires Linked() && x < size && x !in slots
      modifies this`slots, next, prev
      ensures Linked() && slots == old(slots) + [x]
    {
      hide Ring;
      LinkLast(next[..], prev[..], [size] + slots, x);
      assert ([size] + slots) + [x] == [size] + (slots + [x]);
      var p := prev[size];
      next[x], prev[x] := size, p;
      prev[size] := x;
      next[p] := x;
      assert next[..] == old(next[..])[x := size][p := x];
      assert prev[..] == old(prev[..])[x := p][size := x];
      slots := slots + [x];
    }

    /** `dx_pcie_enqueue_response` under the channel's lock. */
    method Enqueue(r: T)
      requires Valid()
      modifies this, next, prev, response
      ensures Valid() && Queue() == Push(size, old(Queue()), r)
    {
      hide Ring, Recent, Push, Gather;
      ghost var was, mem := slots, response[..];
      ReusedSlot(size, header, slots);
      var x := header % size;
      LinkedIff(next[..], prev[..], size, slots, x);
      header := x + 1;
      if next[x] != x {
        DelFirst(x);
      }
      ghost var kept := slots;
      KeptSlots(size, old(header), was, kept);
      response[x] := r;
      AddTail(x);
      assert response[..] == mem[x := r];
      Requeued(size, mem, was, kept, x, r);
    }

    /** `dx_pcie_dequeue_response` under the channel's lock. */
    method Dequeue() returns (r: Option<T>)
      requires Valid()
      modifies this`slots, next, prev
      ensures Valid()
      ensures old(Queue()) == [] ==> r == None && Queue() == []
      ensures old(Queue()) != [] ==> r == Some(old(Queue())[0]) && Queue() == old(Queue())[1..]
    {
      hide Ring;
      HeadLinks(next[..], prev[..], size, slots);
      r := None;
      if next[size] != size {
        var x := next[size];
        RecentPop(size, header, slots);
        r := Some(response[x]);
        DelFirst(x);
      }
    }

    /** `dx_pcie_clear_response_queue` for one channel. */
    method Clear()
      requires Valid()
      modifies this, next, prev
      ensures Valid() && Queue() == [] && header == 0
    {
      hide Ring;
      HeadLinks(next[..], prev[..], size, slots);
      var x := next[size];
      while x != size
        invariant Linked() && Recent(size, header, slots)
        invariant x == if slots == [] then size else slots[0]
        decreases |slots|
      {
        RecentPop(size, header, slots);
        SecondLink(next[..], prev[..], size, slots);
        var tmp := next[x];
        DelFirst(x);
        x := tmp;
      }
      header := 0;
    }
  }
}
