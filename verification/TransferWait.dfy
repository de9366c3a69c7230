/**
 The epoch-guarded wait of one transfer.  Everything the waiting thread reads (epoch, error flag, completion flag,
 channel status, clock, progress counters) belongs to other threads; it is given as a sequence of observations, one
 per read, and every statement is about every sequence.
 */
module TransferWait {
  import opened Basics
  import opened Observe

  datatype Status = Complete | InProgress | Error

  datatype Obs = Obs(epoch: nat, hwErr: bool, done: bool, aborted: bool, status: Status, live: bool, cs: nat, now: nat,
                     isr: nat, replay: nat, seen: nat,   // the three progress counters
                     signal: bool, ok: bool)

  /** The recovery epoch only grows. */
  ghost predicate Monotone(env: seq<Obs>) {
    forall a, b :: 0 <= a <= b < |env| ==> env[a].epoch <= env[b].epoch
  }

  /** Between equal epochs, a completion or an error once seen stays. */
  ghost predicate Sticky(env: seq<Obs>) {
    forall a, b :: 0 <= a <= b < |env| && env[a].epoch == env[b].epoch ==>
      (env[a].done ==> env[b].done) && (env[a].hwErr ==> env[b].hwErr)
  }

  const MAX_STALLS := 2

  /** `done || hw_err`, read one after the other; `k` is the read that made it true. */
  method DoneOrError(env: seq<Obs>, i: nat) returns (r: Step<bool>, j: nat, ghost k: nat)
    ensures i <= j && if r.Value? then i < j <= |env| else |env| <= j
    ensures r == Value(true) ==> k == j - 1 && ((k == i && env[k].done) || (k == i + 1 && !env[i].done && env[k].hwErr))
    ensures r == Value(false) ==> j == i + 2 && !env[i].done && !env[i + 1].hwErr
  {
    var o;
    k := i;
    o, j :- Read(env, i);
    if o.done { return Value(true), j, k; }
    k := j;
    o, j :- Read(env, j);
    return Value(o.hwErr), j, k;
  }

  /** Another epoch, or else the error flag, was read from `i` on. */
  ghost predicate Overtaken(env: seq<Obs>, i: nat, j: nat, start: nat) {
    && i < |env|
    && if env[i].epoch != start then j == i + 1 else j == i + 2 <= |env| && env[i + 1].hwErr
  }

  /** `epoch changed || hw_err`, read one after the other. */
  method Disturbed(env: seq<Obs>, i: nat, start: nat) returns (r: Step<bool>, j: nat)
    ensures i <= j && if r.Value? then i < j <= |env| else |env| <= j
    ensures r == Value(false) ==> j == i + 2 && env[i].epoch == start && !env[i + 1].hwErr
    ensures r == Value(true) ==> Overtaken(env, i, j, start)
  {
    var o;
    o, j :- Read(env, i);
    if o.epoch != start { return Value(true), j; }
    o, j :- Read(env, j);
    return Value(o.hwErr), j;
  }

  // ---- dw_edma_wait_done ----

  /** The three progress counters, read one after the other. */
  method Counters(env: seq<Obs>, i: nat) returns (r: Step<(nat, nat, nat)>, j: nat)
    ensures i <= j && (r.Value? <==> i + 3 <= |env|) && (r.Pending? ==> |env| <= j)
    ensures r.Value? ==> j == i + 3 && r.v == (env[i].isr, env[i + 1].replay, env[i + 2].seen)
  {
    var x, y, z;
    x, j :- Read(env, i);
    y, j :- Read(env, j);
    z, j :- Read(env, j);
    return Value((x.isr, y.replay, z.seen)), j;
  }

  datatype Wait = Expired | Woken | Interrupted

  /** The counters read from `a` on, one after the other, are those read from `b` on. */
  ghost predicate NoProgress(env: seq<Obs>, a: nat, b: nat)
    requires a + 2 < |env| && b + 2 < |env|
  {
    env[a].isr == env[b].isr && env[a + 1].replay == env[b + 1].replay && env[a + 2].seen == env[b + 2].seen
  }

  /**
   One round of the wait.  It reads the counters from `c` on and compares them with those read from `a` on; the
   deadline counts from the clock read at `p`.  The clock is then read at `poll - 2`, a signal looked for at `poll - 1`,
   the flags from `poll` on and the epoch at `poll + 2`.
   */
  datatype Round = Round(c: nat, a: nat, p: nat, poll: nat)

  /** The round that starts at `c`: progress is a new reading of the counters, and moves the deadline. */
  ghost function RoundAt(env: seq<Obs>, c: nat, a: nat, p: nat): Round
    requires a + 2 < |env| && c + 2 < |env|
  {
    if NoProgress(env, a, c) then Round(c, a, p, c + 5) else Round(c, c, c + 3, c + 6)
  }

  /** A round in which time is left when the clock is read. */
  ghost predicate Timely(env: seq<Obs>, rd: Round, total: nat) {
    2 <= rd.poll < |env| + 2 && rd.p < |env| && env[rd.poll - 2].now < env[rd.p].now + total
  }

  /** And no signal counts. */
  ghost predicate Sleeps(env: seq<Obs>, rd: Round, total: nat, interruptible: bool) {
    Timely(env, rd, total) && rd.poll <= |env| && !(interruptible && env[rd.poll - 1].signal)
  }

  /** And no flag is up. */
  ghost predicate NoFlag(env: seq<Obs>, rd: Round, total: nat, interruptible: bool) {
    Sleeps(env, rd, total, interruptible) && rd.poll + 1 < |env| && !env[rd.poll].done && !env[rd.poll + 1].hwErr
  }

  /** And the epoch is the same: the wait goes on. */
  ghost predicate Quiet(env: seq<Obs>, rd: Round, start: nat, total: nat, interruptible: bool) {
    NoFlag(env, rd, total, interruptible) && rd.poll + 2 < |env| && env[rd.poll + 2].epoch == start
  }

  /** The rounds of a wait from `i` on: each starts where a quiet one ended. */
  ghost predicate Rounds(env: seq<Obs>, i: nat, start: nat, total: nat, interruptible: bool, rs: seq<Round>) {
    rs != [] ==>
      var n := |rs| - 1;
      && Rounds(env, i, start, total, interruptible, rs[..n])
      && if n == 0 then i + 6 < |env| && rs[n] == RoundAt(env, i + 4, i + 1, i)
         else
           var last := rs[n - 1];
           && Quiet(env, last, start, total, interruptible) && last.a + 2 < |env| && last.poll + 5 < |env|
           && rs[n] == RoundAt(env, last.poll + 3, last.a, last.p)
  }

  /** How the last round ended, at `j`. */
  ghost predicate EndsIn(env: seq<Obs>, rd: Round, j: nat, start: nat, total: nat, interruptible: bool, w: Wait) {
    && j <= |env| && 2 <= rd.poll && rd.p < |env|
    && match w
       case Interrupted => j == rd.poll && Timely(env, rd, total) && interruptible && env[j - 1].signal
       case Woken =>
         && Sleeps(env, rd, total, interruptible)
         && ((j == rd.poll + 1 && env[j - 1].done) || (j == rd.poll + 2 && !env[j - 2].done && env[j - 1].hwErr))
       case Expired =>
         || (0 < j == rd.poll - 1 && env[j - 1].now >= env[rd.p].now + total)
         || (j == rd.poll + 3 && NoFlag(env, rd, total, interruptible) && env[j - 1].epoch != start)
  }

  /** The wait from `i` on ended at `j` with `w`, after the rounds `rs`. */
  ghost predicate Waited(env: seq<Obs>, i: nat, j: nat, start: nat, total: nat, interruptible: bool, w: Wait,
                         rs: seq<Round>)
  {
    && rs != [] && Rounds(env, i, start, total, interruptible, rs)
    && EndsIn(env, rs[|rs| - 1], j, start, total, interruptible, w)
  }

  /** The next round starts at `c`, with the counters read from `a` on and the clock at `p` to compare with. */
  ghost predicate Next(env: seq<Obs>, i: nat, start: nat, total: nat, interruptible: bool, rs: seq<Round>,
                       c: nat, a: nat, p: nat)
  {
    && Rounds(env, i, start, total, interruptible, rs)
    && if rs == [] then c == i + 4 && a == i + 1 && p == i
       else
         var last := rs[|rs| - 1];
         Quiet(env, last, start, total, interruptible) && c == last.poll + 3 && a == last.a && p == last.p
  }

  lemma OneMore(env: seq<Obs>, i: nat, start: nat, total: nat, interruptible: bool, rs: seq<Round>,
                c: nat, a: nat, p: nat)
    requires Next(env, i, start, total, interruptible, rs, c, a, p) && a + 2 < |env| && c + 2 < |env|
    ensures Rounds(env, i, start, total, interruptible, rs + [RoundAt(env, c, a, p)])
  {
    hide Quiet;
    assert (rs + [RoundAt(env, c, a, p)])[..|rs|] == rs;
  }

  /** The rest of a round, once its deadline is known: `None` if it is quiet. */
  method Doze(env: seq<Obs>, i: nat, deadline: nat, start: nat, interruptible: bool, ghost rd: Round, ghost total: nat)
    returns (r: Step<Option<Wait>>, j: nat)
    requires rd.poll == i + 2 && rd.p < i && (rd.p < |env| ==> env[rd.p].now + total == deadline)
    ensures i <= j && if r.Value? then i < j <= |env| else |env| <= j
    ensures r == Value(None) ==> Quiet(env, rd, start, total, interruptible) && j == rd.poll + 3
    ensures r.Value? && r.v.Some? ==> EndsIn(env, rd, j, start, total, interruptible, r.v.value)
  {
    var o, flag;
    ghost var k;
    o, j :- Read(env, i);
    if o.now >= deadline { return Value(Some(Expired)), j; }
    o, j :- Read(env, j);
    if interruptible && o.signal { return Value(Some(Interrupted)), j; }
    flag, j, k :- DoneOrError(env, j);
    if flag { return Value(Some(Woken)), j; }
    o, j :- Read(env, j);
    return Value(if o.epoch != start then Some(Expired) else None), j;
  }

  /** `dw_edma_wait_done`. */
  method WaitDone(env: seq<Obs>, i: nat, start: nat, total: nat, interruptible: bool)
    returns (r: Step<Wait>, j: nat, ghost rs: seq<Round>)
    ensures i <= j && if r.Value? then i + 4 < j <= |env| else |env| <= j
    ensures r.Value? ==> Waited(env, i, j, start, total, interruptible, r.v, rs)
  {
    hide Rounds, NoProgress, EndsIn, Quiet;
    rs := [];
    var o, c, last, w;
    o, j :- Read(env, i);
    var deadline := o.now + total;
    last, j :- Counters(env, j);
    ghost var a, p := i + 1, i;
    NoRounds(env, i, start, total, interruptible);
    while true
      invariant i + 4 <= j <= |env| && i <= a && a + 2 < j && i <= p < j
      invariant last == (env[a].isr, env[a + 1].replay, env[a + 2].seen) && env[p].now + total == deadline
      invariant Next(env, i, start, total, interruptible, rs, j, a, p)
      decreases |env| - j
    {
      ghost var b := j;
      c, j :- Counters(env, j);
      OneMore(env, i, start, total, interruptible, rs, b, a, p);
      Progressed(env, b, a);
      ghost var rd := RoundAt(env, b, a, p);
      rs := rs + [rd];
      if c != last {
        last := c;
        o, j :- Read(env, j);
        deadline := o.now + total;
        a, p := b, b + 3;
      }
      w, j :- Doze(env, j, deadline, start, interruptible, rd, total);
      if w.Some? { return Value(w.value), j, rs; }
    }
  }

  lemma NoRounds(env: seq<Obs>, i: nat, start: nat, total: nat, interruptible: bool)
    ensures Rounds(env, i, start, total, interruptible, [])
  {
  }

  lemma Progressed(env: seq<Obs>, b: nat, a: nat)
    requires a + 2 < |env| && b + 2 < |env|
    ensures NoProgress(env, a, b) <==>
              (env[b].isr, env[b + 1].replay, env[b + 2].seen) == (env[a].isr, env[a + 1].replay, env[a + 2].seen)
  {
  }

  // ---- what the rounds mean ----

  /** Every round compares with a reading of the counters no older than the wait, whose clock was read next to it. */
  lemma {:induction false} RoundShape(env: seq<Obs>, i: nat, start: nat, total: nat, interruptible: bool,
                                      rs: seq<Round>)
    requires rs != [] && Rounds(env, i, start, total, interruptible, rs)
    ensures var rd := rs[|rs| - 1];
            && i < rd.a <= rd.c && rd.c + 2 < |env| && NoProgress(env, rd.a, rd.c)
            && (rd.p == rd.a + 3 || rd.a == rd.p + 1) && i <= rd.p < rd.poll - 2 && rd.c + 3 <= rd.poll - 2 <= rd.c + 4
            && i + 9 <= rd.poll && (|rs| > 1 ==> rs[|rs| - 2].poll + 8 <= rd.poll <= rs[|rs| - 2].poll + 9)
            && (|rs| == 1 ==> rd.poll <= i + 10)
  {
    hide Quiet;
    var n := |rs| - 1;
    if n > 0 { RoundShape(env, i, start, total, interruptible, rs[..n]); }
  }

  /**
   Why a wait ended: woken by a flag, interrupted by a signal if that is allowed, and expired because of a new epoch or
   because the counters read the same with a whole timeout between the clock read next to the first reading and one
   after the second.
   */
  lemma WaitMeans(env: seq<Obs>, i: nat, j: nat, start: nat, total: nat, interruptible: bool, w: Wait, rs: seq<Round>)
    requires Waited(env, i, j, start, total, interruptible, w, rs)
    ensures i + 4 < j <= |env|
    ensures w.Woken? ==> env[j - 1].done || env[j - 1].hwErr
    ensures w.Interrupted? ==> interruptible && env[j - 1].signal
    ensures w.Expired? && env[j - 1].epoch == start ==>
              exists a: nat, b: nat, p: nat ::
                && i <= p && i < a <= b && b + 2 < j - 1 && (p == a + 3 || a == p + 1) && p < j - 1
                && NoProgress(env, a, b) && env[p].now + total <= env[j - 1].now
  {
    hide NoProgress, Rounds;
    RoundShape(env, i, start, total, interruptible, rs);
    var rd := rs[|rs| - 1];
    if w.Expired? && env[j - 1].epoch == start {
      assert NoProgress(env, rd.a, rd.c) && env[rd.p].now + total <= env[j - 1].now;
    }
  }

  /** Some quiet round polls between `x` and `x + 14`, if the wait lasts that long. */
  lemma {:induction false} QuietRound(env: seq<Obs>, i: nat, start: nat, total: nat, interruptible: bool,
                                      rs: seq<Round>, x: nat) returns (m: nat)
    requires |rs| > 1 && Rounds(env, i, start, total, interruptible, rs) && i <= x <= rs[|rs| - 2].poll
    ensures m + 1 < |rs| && x <= rs[m].poll <= x + 10 && Quiet(env, rs[m], start, total, interruptible)
    ensures Rounds(env, i, start, total, interruptible, rs[..m + 1])
  {
    hide Quiet;
    var n := |rs| - 1;
    RoundShape(env, i, start, total, interruptible, rs[..n]);
    if n > 1 && x <= rs[n - 2].poll {
      m := QuietRound(env, i, start, total, interruptible, rs[..n], x);
      assert rs[..n][..m + 1] == rs[..m + 1];
    } else {
      m := n - 1;
    }
  }

  lemma EndsNear(env: seq<Obs>, rd: Round, j: nat, start: nat, total: nat, interruptible: bool, w: Wait)
    requires EndsIn(env, rd, j, start, total, interruptible, w)
    ensures j <= rd.poll + 3
  {
  }

  /** The counters never move among the reads from `i` on. */
  ghost predicate Frozen(env: seq<Obs>, i: nat) {
    forall a, b :: i <= a < |env| && i <= b < |env| ==>
      env[a].isr == env[b].isr && env[a].replay == env[b].replay && env[a].seen == env[b].seen
  }

  lemma {:induction false} FrozenDeadline(env: seq<Obs>, i: nat, start: nat, total: nat, interruptible: bool,
                                          rs: seq<Round>)
    requires rs != [] && Rounds(env, i, start, total, interruptible, rs) && Frozen(env, i)
    ensures rs[|rs| - 1].p == i && i < rs[|rs| - 1].a
  {
    hide Quiet;
    var n := |rs| - 1;
    RoundShape(env, i, start, total, interruptible, rs);
    if n > 0 {
      FrozenDeadline(env, i, start, total, interruptible, rs[..n]);
      RoundShape(env, i, start, total, interruptible, rs[..n]);
    }
  }

  /**
   The wait does not outlast what it waits for: within any fourteen reads that it goes on, a completion flag and an
   error flag were read down, and the epoch unchanged; and as long as the counters do not move, the clock short of the
   timeout.
   */
  lemma WaitIsPrompt(env: seq<Obs>, i: nat, j: nat, start: nat, total: nat, interruptible: bool, w: Wait,
                     rs: seq<Round>, x: nat) returns (y: nat)
    requires Waited(env, i, j, start, total, interruptible, w, rs) && i <= x && x + 14 <= j
    ensures x <= y < x + 11 && y + 2 < |env|
    ensures !env[y].done && !env[y + 1].hwErr && env[y + 2].epoch == start
    ensures Frozen(env, i) ==> y >= 2 && env[y - 2].now < env[i].now + total
  {
    hide NoProgress, Frozen, Rounds, EndsIn;
    RoundShape(env, i, start, total, interruptible, rs);
    EndsNear(env, rs[|rs| - 1], j, start, total, interruptible, w);
    var m := QuietRound(env, i, start, total, interruptible, rs, x);
    y := rs[m].poll;
    if Frozen(env, i) { FrozenDeadline(env, i, start, total, interruptible, rs[..m + 1]); }
  }

  // ---- the timeout stages: 0 completed, 1 undecided, otherwise an error ----

  /** What one look at epoch, error flag and completion flag, read one after the other from `i` on, says. */
  ghost predicate Looked(env: seq<Obs>, i: nat, j: nat, start: nat, v: int) {
    if v == EIO then Overtaken(env, i, j, start)
    else (v == 0 || v == 1) && j == i + 3 <= |env| && env[i].epoch == start && !env[i + 1].hwErr
         && (v == 0 <==> env[i + 2].done)
  }

  /** `dw_edma_check_done`. */
  method CheckDone(env: seq<Obs>, i: nat, start: nat) returns (r: Step<int>, j: nat)
    ensures i <= j && if r.Value? then i < j <= |env| else |env| <= j
    ensures r.Value? ==> Looked(env, i, j, start, r.v)
  {
    var bad, o;
    bad, j :- Disturbed(env, i, start);
    if bad { return Value(EIO), j; }
    o, j :- Read(env, j);
    return Value(if o.done then 0 else 1), j;
  }

  /** `dw_edma_rewait_done`: sleep, then check. */
  method RewaitDone(env: seq<Obs>, i: nat, start: nat) returns (r: Step<int>, j: nat)
    ensures i <= j && if r.Value? then i + 1 < j <= |env| else |env| <= j
    ensures r.Value? ==> Looked(env, i + 1, j, start, r.v)
  {
    var o;
    o, j :- Read(env, i);
    r, j := CheckDone(env, j, start);
  }

  /**
   Stage 1.  Undecided exactly if the cookie is not complete; if it is, the first look that shows anything decides, and
   two that show nothing are an error.
   */
  ghost predicate LateBy(env: seq<Obs>, i: nat, j: nat, start: nat, v: int) {
    && i < |env|
    && if !env[i].status.Complete? then v == 1 && j == i + 1
       else
         || (v != 1 && Looked(env, i + 2, j, start, v))
         || (Looked(env, i + 2, i + 5, start, 1)
             && ((v != 1 && Looked(env, i + 5, j, start, v)) || (v == EIO && Looked(env, i + 5, j, start, 1))))
  }

  /** `dw_edma_try_late_callback_recovery`. */
  method LateCallback(env: seq<Obs>, i: nat, start: nat) returns (r: Step<int>, j: nat)
    ensures i <= j && if r.Value? then i < j <= |env| else |env| <= j
    ensures r.Value? ==> LateBy(env, i, j, start, r.v)
  {
    var o, rc;
    o, j :- Read(env, i);
    if o.status != Complete { return Value(1), j; }
    rc, j :- RewaitDone(env, j, start);
    if rc <= 0 { return Value(rc), j; }
    rc, j :- CheckDone(env, j, start);
    if rc <= 0 { return Value(rc), j; }
    return Value(EIO), j;
  }

  /** Stage 4: graceful stop, then force.  Never a success; a timeout exactly if the last look shows nothing. */
  method StuckThenForce(env: seq<Obs>, i: nat, start: nat) returns (r: Step<int>, j: nat)
    ensures i <= j && if r.Value? then i + 1 < j <= |env| else |env| <= j
    ensures r.Value? ==> Stuck(env, i, j, start, r.v)
  {
    var rc;
    rc, j :- RewaitDone(env, i, start);
    if rc <= 0 { return Value(if rc == 0 then EIO else rc), j; }
    return Value(ETIMEDOUT), j;
  }

  ghost predicate Stuck(env: seq<Obs>, i: nat, j: nat, start: nat, v: int) {
    if v == ETIMEDOUT then Looked(env, i + 1, j, start, 1)
    else v == EIO && (Looked(env, i + 1, j, start, 0) || Looked(env, i + 1, j, start, EIO))
  }

  /** The four stages: the first one that decides. */
  ghost predicate TimedOut(env: seq<Obs>, i: nat, j: nat, start: nat, v: int) {
    || (v != 1 && LateBy(env, i, j, start, v))
    || (LateBy(env, i, i + 1, start, 1)
        && (|| (v != 1 && Looked(env, i + 3, j, start, v))
            || (Looked(env, i + 3, i + 6, start, 1) && i + 6 < |env|
                && if env[i + 6].cs == 2 then v == EIO && j == i + 8 <= |env| else Stuck(env, i + 7, j, start, v))))
  }

  /** `dw_edma_handle_wait_timeout`. */
  method HandleTimeout(env: seq<Obs>, i: nat, start: nat) returns (r: Step<int>, j: nat)
    ensures i <= j && if r.Value? then i < j <= |env| else |env| <= j
    ensures r.Value? ==> TimedOut(env, i, j, start, r.v)
  {
    var rc, o;
    rc, j :- LateCallback(env, i, start);
    if rc != 1 { return Value(rc), j; }
    o, j :- Read(env, j);                       // channel status
    rc, j :- RewaitDone(env, j, start);         // stage 2
    if rc <= 0 { return Value(rc), j; }
    o, j :- Read(env, j);
    if o.cs == 2 {                              // stage 3: soft reset, reported as an error either way
      o, j :- Read(env, j);
      return Value(EIO), j;
    }
    r, j := StuckThenForce(env, j, start);
  }

  /**
   The stages report completion only after the completion flag was read; a timeout only if the cookie was not complete,
   the channel showed no error, and neither look found a flag or another epoch; and an error in any other case.  If the
   completion flag is found undisturbed, late or in the extra wait, they do report completion.
   */
  lemma TimeoutMeans(env: seq<Obs>, i: nat, j: nat, start: nat, v: int)
    requires TimedOut(env, i, j, start, v)
    ensures i < j <= |env| && (v == 0 || v == EIO || v == ETIMEDOUT)
    ensures v == 0 ==> i + 3 <= j && env[j - 3].epoch == start && !env[j - 2].hwErr && env[j - 1].done
    ensures v == ETIMEDOUT <==>
              && j == i + 11 && !env[i].status.Complete? && env[i + 6].cs != 2
              && Looked(env, i + 3, i + 6, start, 1) && Looked(env, i + 8, j, start, 1)
    ensures v == EIO && !env[i].status.Complete? && j < i + 7 ==> Overtaken(env, i + 3, j, start)
    ensures env[i].status.Complete? && ShowsDone(env, i + 2, start) ==> v == 0
    ensures env[i].status.Complete? && ShowsNothing(env, i + 2, start) ==>
              (v == 0 <==> ShowsDone(env, i + 5, start)) && v != ETIMEDOUT
    ensures !env[i].status.Complete? && ShowsDone(env, i + 3, start) ==> v == 0
  {
  }

  /** Captured epoch, no error and the completion flag, read one after the other. */
  ghost predicate ShowsDone(env: seq<Obs>, x: nat, start: nat) {
    x + 2 < |env| && env[x].epoch == start && !env[x + 1].hwErr && env[x + 2].done
  }

  ghost predicate ShowsNothing(env: seq<Obs>, x: nat, start: nat) {
    x + 2 < |env| && env[x].epoch == start && !env[x + 1].hwErr && !env[x + 2].done
  }

  // ---- the drain after a signal ----

  /** Neither flag is up and the epoch is the same, read one after the other from `x` on. */
  ghost predicate Idle(env: seq<Obs>, x: nat, start: nat) {
    x + 2 < |env| && !env[x].done && !env[x + 1].hwErr && env[x + 2].epoch == start
  }

  /** The first of them that is not so was read at `j - 1`. */
  ghost predicate EndedAt(env: seq<Obs>, x: nat, j: nat, start: nat) {
    && x < j <= |env|
    && if env[x].done then j == x + 1
       else
         && x + 1 < j
         && if env[x + 1].hwErr then j == x + 2 else j == x + 3 && env[x + 2].epoch != start
  }

  /** `done || hw_err || epoch changed`. */
  method Ended(env: seq<Obs>, i: nat, start: nat) returns (r: Step<bool>, j: nat)
    ensures i <= j && if r.Value? then i < j <= |env| else |env| <= j
    ensures r == Value(true) ==> EndedAt(env, i, j, start)
    ensures r == Value(false) ==> j == i + 3 && Idle(env, i, start)
  {
    var flag, o;
    ghost var k;
    flag, j, k :- DoneOrError(env, i);
    if flag { return Value(true), j; }
    o, j :- Read(env, j);
    return Value(o.epoch != start), j;
  }

  /** One wait of the drain. */
  datatype Sleep = Sleep(from: nat, to: nat, w: Wait, rs: seq<Round>)

  /** Where the loop looks next. */
  function Head(i: nat, ws: seq<Sleep>): nat {
    if ws == [] then i else ws[|ws| - 1].to + 3
  }

  /** The last waits all expired. */
  predicate GivesUp(ws: seq<Sleep>) {
    |ws| >= MAX_STALLS && forall n :: |ws| - MAX_STALLS <= n < |ws| ==> ws[n].w.Expired?
  }

  ghost predicate Slept(env: seq<Obs>, x: nat, start: nat, total: nat, s: Sleep) {
    Idle(env, x, start) && s.from == x + 3 && Waited(env, s.from, s.to, start, total, false, s.w, s.rs)
  }

  /** The waits of a drain from `i` on, with nothing seen before or after any of them. */
  ghost predicate Drains(env: seq<Obs>, i: nat, start: nat, total: nat, ws: seq<Sleep>) {
    ws != [] ==>
      var n := |ws| - 1;
      && Drains(env, i, start, total, ws[..n]) && !GivesUp(ws[..n])
      && Slept(env, Head(i, ws[..n]), start, total, ws[n]) && Idle(env, ws[n].to, start)
  }

  lemma DrainsMore(env: seq<Obs>, i: nat, start: nat, total: nat, ws: seq<Sleep>, s: Sleep)
    requires Drains(env, i, start, total, ws) && !GivesUp(ws)
    requires Slept(env, Head(i, ws), start, total, s) && Idle(env, s.to, start)
    ensures Drains(env, i, start, total, ws + [s])
  {
    hide Slept, Idle;
    assert (ws + [s])[..|ws|] == ws;
  }

  /** The drain from `i` on ended at `j`: it saw something before or after a wait, or gave up. */
  ghost predicate Drained(env: seq<Obs>, i: nat, j: nat, start: nat, total: nat, seen: bool, ws: seq<Sleep>,
                          last: Option<Sleep>)
  {
    && Drains(env, i, start, total, ws)
    && if !seen then GivesUp(ws) && j == Head(i, ws) <= |env|
       else
         && !GivesUp(ws)
         && if last.None? then EndedAt(env, Head(i, ws), j, start)
            else Slept(env, Head(i, ws), start, total, last.value) && EndedAt(env, last.value.to, j, start)
  }

  method SignalDrain(env: seq<Obs>, i: nat, start: nat, total: nat)
    returns (seen: Step<bool>, j: nat, ghost ws: seq<Sleep>, ghost last: Option<Sleep>)
    ensures i <= j && if seen.Value? then i < j <= |env| else |env| <= j
    ensures seen.Value? ==> Drained(env, i, j, start, total, seen.v, ws, last)
  {
    hide Drains, Waited;
    j, ws, last := i, [], None;
    NothingDrained(env, i, start, total);
    var stalls := 0;
    var any;
    while true
      invariant i <= j && (ws != [] ==> i < j <= |env|) && j == Head(i, ws)
      invariant Drains(env, i, start, total, ws)
      invariant 0 <= stalls < MAX_STALLS && stalls <= |ws|
      invariant forall n :: |ws| - stalls <= n < |ws| ==> ws[n].w.Expired?
      invariant stalls < |ws| ==> !ws[|ws| - 1 - stalls].w.Expired?
      decreases |env| + i - j
    {
      assert !GivesUp(ws);
      any, j :- Ended(env, j, start);
      if any { return Value(true), j, ws, None; }
      var w;
      ghost var rs, from := [], j;
      w, j, rs :- WaitDone(env, j, start, total, false);
      ghost var s := Sleep(from, j, w, rs);
      any, j :- Ended(env, j, start);
      if any { return Value(true), j, ws, Some(s); }
      DrainsMore(env, i, start, total, ws, s);
      ws := ws + [s];
      if w.Woken? {
        stalls := 0;
      } else {
        NotInterrupted(env, s.from, s.to, start, total, w, rs);
        stalls := stalls + 1;
        if stalls >= MAX_STALLS { return Value(false), j, ws, None; }
      }
    }
  }

  lemma NothingDrained(env: seq<Obs>, i: nat, start: nat, total: nat)
    ensures Drains(env, i, start, total, [])
  {
  }

  lemma NotInterrupted(env: seq<Obs>, i: nat, j: nat, start: nat, total: nat, w: Wait, rs: seq<Round>)
    requires Waited(env, i, j, start, total, false, w, rs)
    ensures !w.Interrupted?
  {
  }

  // ---- dw_edma_sg_process from the admission gate on ----

  /**
   What the end of the wait means, read from `i` on: a result to go on with at `j`, or (`None`) an error exit.
   */
  ghost predicate Classified(env: seq<Obs>, i: nat, j: nat, start: nat, total: nat, w: Wait, res: Option<int>,
                             d: Drain)
  {
    && i < j <= |env|
    && if env[i].epoch != start then res.None? && j == i + 1
       else
         && i + 1 < j
         && if env[i + 1].hwErr then res == Some(EIO) && j == i + 2
            else if w.Interrupted? then
              && Drained(env, i + 2, d.to, start, total, d.seen, d.ws, d.last)
              && if !d.seen then res.None? && j == d.to
                 else if res.None? then Overtaken(env, d.to, j, start)
                 else res == Some(0) && j == d.to + 2 && env[d.to].epoch == start && !env[d.to + 1].hwErr
            else
              && i + 2 < j
              && if env[i + 2].done then res == Some(0) && j == i + 3
                 else res.Some? && TimedOut(env, i + 3, j, start, res.value)
  }

  /** A drain that ended at `to`. */
  datatype Drain = Drain(to: nat, seen: bool, ws: seq<Sleep>, last: Option<Sleep>)

  method Classify(env: seq<Obs>, i: nat, start: nat, total: nat, w: Wait)
    returns (r: Step<Option<int>>, j: nat, ghost d: Drain)
    ensures i <= j && if r.Value? then i < j <= |env| else |env| <= j
    ensures r.Value? ==> Classified(env, i, j, start, total, w, r.v, d)
  {
    hide Drained, TimedOut;
    d := Drain(i, false, [], None);
    var o, bad, rc, seen;
    o, j :- Read(env, i);
    if o.epoch != start { return Value(None), j, d; }
    o, j :- Read(env, j);
    if o.hwErr { return Value(Some(EIO)), j, d; }
    if w.Interrupted? {
      ghost var ws, last := [], None;
      seen, j, ws, last :- SignalDrain(env, j, start, total);
      d := Drain(j, seen, ws, last);
      if !seen { return Value(None), j, d; }
      bad, j :- Disturbed(env, j, start);
      return Value(if bad then None else Some(0)), j, d;
    }
    o, j :- Read(env, j);
    if o.done { return Value(Some(0)), j, d; }
    rc, j :- HandleTimeout(env, j, start);
    return Value(Some(rc)), j, d;
  }

  /** Where a transfer got to: its wait, up to `mid`, what that meant, up to `fin`. */
  datatype Course = Course(mid: nat, w: Wait, rs: seq<Round>, fin: nat, res: Option<int>, d: Drain)

  /** Admitted, submitted, waited for and classified. */
  ghost predicate Ran(env: seq<Obs>, i: nat, total: nat, c: Course) {
    && i + 2 < |env| && env[i + 1].live && env[i + 2].ok
    && Waited(env, i + 3, c.mid, env[i].epoch, total, true, c.w, c.rs)
    && Classified(env, c.mid, c.fin, env[i].epoch, total, c.w, c.res, c.d)
  }

  /** The last look shows the captured epoch and no error. */
  ghost predicate Kept(env: seq<Obs>, i: nat, c: Course) {
    i < |env| && c.fin + 1 < |env| && env[c.fin].epoch == env[i].epoch && !env[c.fin + 1].hwErr
  }

  /** And the cookie complete and no abort. */
  ghost predicate Good(env: seq<Obs>, i: nat, c: Course) {
    Kept(env, i, c) && c.fin + 3 < |env| && env[c.fin + 2].status.Complete? && !env[c.fin + 3].aborted
  }

  /**
   The ordinary course: no signal; after the wait the captured epoch, no error and the completion flag; and then, in the
   last look, the captured epoch, no error, a complete cookie and no abort.
   */
  ghost predicate Ordinary(env: seq<Obs>, i: nat, c: Course) {
    && !c.w.Interrupted? && i < |env| && c.mid + 6 < |env|
    && env[c.mid].epoch == env[i].epoch && !env[c.mid + 1].hwErr && env[c.mid + 2].done
    && env[c.mid + 3].epoch == env[i].epoch && !env[c.mid + 4].hwErr
    && env[c.mid + 5].status.Complete? && !env[c.mid + 6].aborted
  }

  /** A signal does not change that: completed after it, with both looks undisturbed, the transfer succeeds. */
  lemma SignalledSucceeds(env: seq<Obs>, i: nat, total: nat, c: Course)
    requires Ran(env, i, total, c) && c.w.Interrupted? && c.d.seen && c.d.to + 1 < |env|
    requires c.mid + 1 < |env| && env[c.mid].epoch == env[i].epoch && !env[c.mid + 1].hwErr
    requires env[c.d.to].epoch == env[i].epoch && !env[c.d.to + 1].hwErr
    ensures c.res == Some(0) && c.fin == c.d.to + 2
  {
    hide Waited, TimedOut, Drained;
  }

  lemma OrdinarySucceeds(env: seq<Obs>, i: nat, total: nat, c: Course)
    requires Ran(env, i, total, c) && Ordinary(env, i, c)
    ensures c.res == Some(0) && Good(env, i, c)
  {
    hide Waited, TimedOut, Drained;
  }

  /**
   `dw_edma_sg_process`.  It succeeds exactly if the device is live, the transfer submitted, the end of its wait means
   completion, and the last look shows it undisturbed, complete and not aborted.  It times out exactly if the stages
   after the wait do and the last look shows it undisturbed; any other end is an I/O error.
   */
  method SgProcess(env: seq<Obs>, i: nat, total: nat) returns (r: Step<int>, j: nat, ghost c: Course)
    ensures i <= j && if r.Value? then i < j <= |env| else |env| <= j
    ensures r.Value? ==> r.v == 0 || r.v == EIO || r.v == ETIMEDOUT
    ensures r.Value? ==> i + 1 < j && (env[i + 1].live ==> i + 2 < j && (env[i + 2].ok ==> Ran(env, i, total, c)))
    ensures r.Value? ==> (r.v == 0 <==> Ran(env, i, total, c) && c.res == Some(0) && Good(env, i, c))
    ensures r.Value? && Ran(env, i, total, c) && Ordinary(env, i, c) ==> r.v == 0
    ensures r.Value? ==> (r.v == ETIMEDOUT <==> Ran(env, i, total, c) && c.res == Some(ETIMEDOUT) && Kept(env, i, c))
  {
    hide Waited, Classified, Ordinary;
    c := Course(i, Expired, [], i, None, Drain(i, false, [], None));
    var o, w, result;
    ghost var rs, d := [], c.d;
    o, j :- Read(env, i);
    var start := o.epoch;
    o, j :- Read(env, j);
    if !o.live { return Value(EIO), j, c; }
    o, j :- Read(env, j);                       // prepare and submit
    if !o.ok { return Value(EIO), j, c; }
    w, j, rs :- WaitDone(env, j, start, total, true);
    ghost var mid := j;
    result, j, d :- Classify(env, j, start, total, w);
    c := Course(mid, w, rs, j, result, d);
    ClassifiedResult(env, mid, j, start, total, w, result, d);
    if Ordinary(env, i, c) { OrdinarySucceeds(env, i, total, c); }
    if result.None? { return Value(EIO), j, c; }
    var bad, status;
    bad, j :- Disturbed(env, j, start);
    if bad { return Value(EIO), j, c; }
    if result.value != 0 { return Value(result.value), j, c; }
    status, j :- Read(env, j);
    o, j :- Read(env, j);
    return Value(if o.aborted || status.status != Complete then EIO else 0), j, c;
  }

  lemma ClassifiedResult(env: seq<Obs>, i: nat, j: nat, start: nat, total: nat, w: Wait, res: Option<int>, d: Drain)
    requires Classified(env, i, j, start, total, w, res, d)
    ensures res.Some? ==> res.value == 0 || res.value == EIO || res.value == ETIMEDOUT
  {
    hide Drained, TimedOut;
    if res.Some? && i + 3 <= |env| && TimedOut(env, i + 3, j, start, res.value) {
      TimeoutMeans(env, i + 3, j, start, res.value);
    }
  }

  // ---- what success means ----

  lemma DrainedWithin(env: seq<Obs>, i: nat, j: nat, start: nat, total: nat, d: Drain)
    requires Drained(env, i, j, start, total, d.seen, d.ws, d.last) && d.seen
    ensures 0 < j <= |env| && (env[j - 1].done || env[j - 1].hwErr || env[j - 1].epoch != start)
  {
    hide Drains, Slept;
  }

  /** A classified wait that goes on with 0 has read what ended it at `k`. */
  lemma CompletionRead(env: seq<Obs>, i: nat, j: nat, start: nat, total: nat, w: Wait, d: Drain) returns (k: nat)
    requires Classified(env, i, j, start, total, w, Some(0), d)
    ensures k < j <= |env|
    ensures if w.Interrupted? then k == d.to - 1 && j == d.to + 2 && !env[j - 1].hwErr else i <= k && env[k].done
    ensures env[k].done || env[k].hwErr || env[k].epoch != start
  {
    hide Drained, TimedOut;
    if w.Interrupted? {
      DrainedWithin(env, i + 2, d.to, start, total, d);
      k := d.to - 1;
    } else if env[i + 2].done {
      k := i + 2;
    } else {
      TimeoutMeans(env, i + 3, j, start, 0);
      k := j - 1;
    }
  }

  lemma {:induction false} DrainsForward(env: seq<Obs>, i: nat, start: nat, total: nat, ws: seq<Sleep>)
    requires Drains(env, i, start, total, ws)
    ensures i <= Head(i, ws) && (ws != [] ==> i < Head(i, ws) <= |env|)
  {
    hide Waited;
    if ws != [] {
      var n := |ws| - 1;
      DrainsForward(env, i, start, total, ws[..n]);
      WaitMeans(env, ws[n].from, ws[n].to, start, total, false, ws[n].w, ws[n].rs);
    }
  }

  lemma DrainedAfter(env: seq<Obs>, i: nat, j: nat, start: nat, total: nat, d: Drain)
    requires Drained(env, i, j, start, total, d.seen, d.ws, d.last) && d.seen
    ensures i < j
  {
    hide Drains, Waited;
    DrainsForward(env, i, start, total, d.ws);
    if d.last.Some? {
      var s := d.last.value;
      WaitMeans(env, s.from, s.to, start, total, false, s.w, s.rs);
    }
  }

  /**
   A transfer that reports success saw no epoch bump between its admission and the final re-check; and, if flags do
   not clear by themselves within an epoch, it was completed by its own callback.
   */
  lemma SuccessMeansSameEpoch(env: seq<Obs>, i: nat, total: nat, c: Course)
    requires Monotone(env) && Ran(env, i, total, c) && c.res == Some(0) && Good(env, i, c)
    ensures i < c.fin && forall a :: i <= a <= c.fin ==> env[a].epoch == env[i].epoch
    ensures Sticky(env) ==> exists k :: i < k < c.fin && env[k].done
  {
    hide Waited, Classified, Sticky, Drained;
    var start := env[i].epoch;
    WaitMeans(env, i + 3, c.mid, start, total, true, c.w, c.rs);
    var k := CompletionRead(env, c.mid, c.fin, start, total, c.w, c.d);
    assert i < k by {
      if c.w.Interrupted? {
        InterruptedDrain(env, c.mid, c.fin, start, total, c.w, c.d);
        DrainedAfter(env, c.mid + 2, c.d.to, start, total, c.d);
      }
    }
    forall a | i <= a <= c.fin ensures env[a].epoch == start {
      assert env[i].epoch <= env[a].epoch <= env[c.fin].epoch;
    }
    if Sticky(env) { StaysUp(env, k, c.fin - 1); }
  }

  lemma InterruptedDrain(env: seq<Obs>, i: nat, j: nat, start: nat, total: nat, w: Wait, d: Drain)
    requires Classified(env, i, j, start, total, w, Some(0), d) && w.Interrupted?
    ensures d.seen && Drained(env, i + 2, d.to, start, total, d.seen, d.ws, d.last)
  {
    hide Drained, TimedOut;
  }

  lemma StaysUp(env: seq<Obs>, k: nat, h: nat)
    requires Sticky(env) && k <= h < |env| && env[k].epoch == env[h].epoch
    ensures env[k].hwErr ==> env[h].hwErr
  {
  }
}
