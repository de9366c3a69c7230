/** Splitting a pinned user buffer into per-page scatter-gather pieces. */
module PageSplit {
  import opened Basics

  const PAGE := 4096

  /** Piece of pinned page number `page`: `size` bytes at `offset`. */
  datatype Piece = Piece(page: nat, offset: nat, size: nat)

  datatype Errno = EINVAL | ENOMEM | EFAULT | EPIN(code: int)
  datatype Result = Mapped(pieces: seq<Piece>) | Failed(e: Errno)

  function Min(a: nat, b: nat): nat {
    if a <= b then a else b
  }

  /** The number of pages, as the 32-bit variable holds it. */
  function PagesNr(buf: nat, len: nat): nat {
    (buf + len + PAGE - 1 - (buf - buf % PAGE)) / PAGE % WORD
  }

  /** The user address of the first byte of a piece, given that page 0 is the page of `buf`. */
  function Start(buf: nat, p: Piece): nat {
    (buf / PAGE + p.page) * PAGE + p.offset
  }

  /** The pieces are whole, within their pages, in page order, and cover the addresses from `buf` up to `end`. */
  ghost predicate Covers(pieces: seq<Piece>, buf: nat, end: nat) {
    && (forall i :: 0 <= i < |pieces| ==>
        pieces[i].page == i && pieces[i].size > 0 && pieces[i].offset + pieces[i].size <= PAGE)
    && (forall i :: 0 < i < |pieces| ==> Start(buf, pieces[i]) == Start(buf, pieces[i - 1]) + pieces[i - 1].size)
    && (if pieces == [] then end == buf
        else Start(buf, pieces[0]) == buf && Start(buf, pieces[|pieces| - 1]) + pieces[|pieces| - 1].size == end)
  }

  /** Memory for the tables, and the pages `get_user_pages_fast` pinned (`pinned` is its return value). */
  datatype Resources = Resources(tableOk: bool, arrayOk: bool, pinned: int, pages: seq<nat>)

  /** The buffers that can be mapped at all. */
  predicate Mappable(buf: nat, len: nat) {
    len < WORD && !(len == 0 && buf % PAGE == 0)
  }

  predicate Pinned(buf: nat, len: nat, res: Resources) {
    res.tableOk && res.arrayOk && res.pinned == PagesNr(buf, len)
    && forall i :: 0 < i < |res.pages| ==> res.pages[i - 1] != res.pages[i]
  }

  // ---- arithmetic of the loop ----

  lemma PagesOf(buf: nat, len: nat)
    requires len < WORD
    ensures PagesNr(buf, len) == (buf % PAGE + len + PAGE - 1) / PAGE
    ensures len > 0 ==> PagesNr(buf, len) > 0
    ensures PagesNr(buf, len) == 0 <==> len == 0 && buf % PAGE == 0
  {
  }

  /** Page `i` of the buffer begins before its end exactly for `i` below the page count. */
  lemma PageInside(buf: nat, len: nat, i: nat)
    requires 0 < len < WORD
    ensures i < PagesNr(buf, len) <==> (buf / PAGE + i) * PAGE < buf + len
  {
    PagesOf(buf, len);
    assert buf == buf / PAGE * PAGE + buf % PAGE;
  }

  /** The loop's variables after `i` pieces: `cur` is the next address, `rem` what is left. */
  ghost predicate At(buf: nat, len: nat, i: nat, cur: nat, rem: nat) {
    && cur + rem == buf + len
    && cur == (if i == 0 then buf else if i < PagesNr(buf, len) then (buf / PAGE + i) * PAGE else buf + len)
  }

  /** The loop's variables after one piece more: it lies within its page, and within what is left. */
  lemma NextAt(buf: nat, len: nat, i: nat, cur: nat, rem: nat)
    requires 0 < len < WORD && i < PagesNr(buf, len) && At(buf, len, i, cur, rem)
    ensures rem % WORD == rem
    ensures var n := Min(PAGE - cur % PAGE, rem);
            0 < n <= rem && cur % PAGE + n <= PAGE && At(buf, len, i + 1, cur + n, rem - n)
    ensures Start(buf, Piece(i, cur % PAGE, Min(PAGE - cur % PAGE, rem))) == cur
  {
    hide PagesNr;
    PageInside(buf, len, i);
    PageInside(buf, len, i + 1);
    CurPage(buf, i, cur, PagesNr(buf, len), buf + len);
    assert 0 < rem <= len;
  }

  lemma NextPiece(buf: nat, len: nat, i: nat, cur: nat, rem: nat, pieces: seq<Piece>)
    requires 0 < len < WORD && i < PagesNr(buf, len) && At(buf, len, i, cur, rem) && |pieces| == i
    requires Covers(pieces, buf, cur)
    ensures var n := Min(PAGE - cur % PAGE, rem % WORD);
            && n <= rem && At(buf, len, i + 1, cur + n, rem - n)
            && Covers(pieces + [Piece(i, cur % PAGE, n)], buf, cur + n)
  {
    hide Covers, At, PagesNr, Start;
    NextAt(buf, len, i, cur, rem);
    CoversMore(pieces, buf, cur, Piece(i, cur % PAGE, Min(PAGE - cur % PAGE, rem)));
  }

  lemma CoversMore(pieces: seq<Piece>, buf: nat, end: nat, p: Piece)
    requires Covers(pieces, buf, end) && p.page == |pieces| && p.size > 0 && p.offset + p.size <= PAGE
    requires Start(buf, p) == end
    ensures Covers(pieces + [p], buf, end + p.size)
  {
    hide Start;
  }

  lemma CurPage(buf: nat, i: nat, cur: nat, pages: nat, end: nat)
    requires i < pages && cur == (if i == 0 then buf else (buf / PAGE + i) * PAGE)
    ensures cur / PAGE == buf / PAGE + i && Start(buf, Piece(i, cur % PAGE, 0)) == cur
    ensures cur + (PAGE - cur % PAGE) == (buf / PAGE + i + 1) * PAGE
  {
  }

  lemma TruncatedRemainder(rem: nat, n: nat)
    requires rem >= WORD && n <= rem % WORD
    ensures n <= rem && rem - n >= WORD
  {
  }

  /**
   `char_sgdma_map_user_buf_to_sgl`.  It succeeds exactly for the mappable lengths, and then the pieces are the
   buffer: a length of 2^32 or more is never exhausted, because the piece size is computed from its low 32 bits.
   */
  method MapUserBuf(buf: nat, len: nat, res: Resources) returns (r: Result)
    requires buf + len + PAGE - 1 <= U64_MAX
    requires res.pinned >= 0 ==> |res.pages| == res.pinned
    ensures r.Mapped? <==> Mappable(buf, len) && Pinned(buf, len, res)
    ensures r.Mapped? && len > 0 ==> |r.pieces| == PagesNr(buf, len) && Covers(r.pieces, buf, buf + len)
    ensures r.Mapped? && len == 0 ==> r.pieces == [Piece(0, buf % PAGE, 0)]
    ensures r == Failed(EINVAL) <==> PagesNr(buf, len) == 0 || (Pinned(buf, len, res) && !Mappable(buf, len))
    ensures r == Failed(ENOMEM) <==> PagesNr(buf, len) > 0 && !(res.tableOk && res.arrayOk)
    ensures PagesNr(buf, len) > 0 && res.tableOk && res.arrayOk && !Pinned(buf, len, res) ==>
              r == Failed(if res.pinned < 0 then EPIN(res.pinned) else EFAULT)
  {
    var n := PagesNr(buf, len);
    if len < WORD { PagesOf(buf, len); }
    if n == 0 {
      return Failed(EINVAL);
    }
    if !res.tableOk || !res.arrayOk {
      return Failed(ENOMEM);
    }
    if res.pinned < 0 {
      return Failed(EPIN(res.pinned));
    }
    if res.pinned != n {
      return Failed(EFAULT);
    }
    for i := 1 to n
      invariant forall k :: 0 < k < i ==> res.pages[k - 1] != res.pages[k]
    {
      if res.pages[i - 1] == res.pages[i] {
        return Failed(EFAULT);
      }
    }
    var pieces: seq<Piece>, cur: nat, rem: nat := [], buf, len;
    for i := 0 to n
      invariant |pieces| == i
      invariant len >= WORD ==> rem >= WORD
      invariant 0 < len < WORD ==> At(buf, len, i, cur, rem) && Covers(pieces, buf, cur)
      invariant len == 0 ==> rem == 0 && cur == buf && forall k :: 0 <= k < i ==> pieces[k] == Piece(k, buf % PAGE, 0)
    {
      var size := Min(PAGE - cur % PAGE, rem % WORD);
      if len >= WORD { TruncatedRemainder(rem, size); }
      if 0 < len < WORD { NextPiece(buf, len, i, cur, rem, pieces); }
      pieces := pieces + [Piece(i, cur % PAGE, size)];
      cur, rem := cur + size, rem - size;
    }
    if rem != 0 {
      return Failed(EINVAL);
    }
    return Mapped(pieces);
  }

  // ---- what covering means ----

  /** The user addresses of the bytes of the pieces, in order. */
  function Bytes(pieces: seq<Piece>, buf: nat): seq<int> {
    if pieces == [] then []
    else
      var p := pieces[|pieces| - 1];
      Bytes(pieces[..|pieces| - 1], buf) + seq(p.size, k requires 0 <= k < p.size => Start(buf, p) + k)
  }

  /** Pieces that cover a buffer are, byte for byte and in order, the buffer. */
  lemma {:induction false} CoversIsWhole(pieces: seq<Piece>, buf: nat, end: nat)
    requires Covers(pieces, buf, end)
    ensures buf <= end && Bytes(pieces, buf) == seq(end - buf, k requires 0 <= k < end - buf => buf + k)
    decreases |pieces|
  {
    if pieces != [] {
      var n := |pieces| - 1;
      var front, p := pieces[..n], pieces[n];
      if n > 0 { assert front[n - 1] == pieces[n - 1]; }
      CoversIsWhole(front, buf, Start(buf, p));
    }
  }
}
