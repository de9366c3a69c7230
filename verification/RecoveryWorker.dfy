/**
 The readiness worker as it runs, with its polling loops, read by read.  Everything it reads (epoch, device state,
 mailbox, clock, replies) belongs to others; it is given as a sequence of observations, and every statement is about
 every sequence.
 */
module RecoveryWorker {
  import opened Basics
  import opened Observe
  import Recovery

  datatype Obs = Obs(epoch: nat, transportOk: bool, permFail: bool, mapped: bool, reason: Recovery.Reason,
                     ready: bool, expired: bool, hasMsg: bool, seqNo: nat, ack: nat, sizeOk: bool, magicOk: bool,
                     echo: nat)

  /** The outcome of a wait or probe: done, to be given up because recovery was restarted, or failed. */
  datatype Outcome = Done | Again | Failed

  /** The captured epoch and TRANSPORT_OK, read one after the other from `x` on. */
  ghost predicate Still(env: seq<Obs>, x: nat, start: nat) {
    x + 1 < |env| && env[x].epoch == start && env[x + 1].transportOk
  }

  /** The first of them that is not so was read at `j - 1`. */
  ghost predicate Moved(env: seq<Obs>, x: nat, j: nat, start: nat) {
    x < |env| && if env[x].epoch != start then j == x + 1 else j == x + 2 <= |env| && !env[x + 1].transportOk
  }

  /** `epoch changed || state != TRANSPORT_OK`, read one after the other. */
  method Changed(env: seq<Obs>, i: nat, start: nat) returns (r: Step<bool>, j: nat)
    ensures i <= j && if r.Value? then i < j <= |env| else |env| <= j
    ensures r == Value(true) ==> Moved(env, i, j, start)
    ensures r == Value(false) ==> j == i + 2 && Still(env, i, start)
  {
    var o;
    o, j :- Read(env, i);
    if o.epoch != start { return Value(true), j; }
    o, j :- Read(env, j);
    return Value(!o.transportOk), j;
  }

  // ---- the mailbox ----

  /** Rounds of four reads from `i` to `x`: recovery not restarted, the mailbox as given, time left. */
  ghost predicate Watched(env: seq<Obs>, i: nat, x: nat, start: nat, ready: bool)
    decreases x
  {
    i != x ==>
      && i + 4 <= x <= |env| && Watched(env, i, x - 4, start, ready)
      && Still(env, x - 4, start) && env[x - 2].ready == ready && !env[x - 1].expired
  }

  /** The round at `x` ends the watch for a mailbox that is not as given: restarted, changed, or out of time. */
  ghost predicate WatchEnds(env: seq<Obs>, x: nat, j: nat, start: nat, ready: bool, out: Outcome) {
    match out
    case Again => Moved(env, x, j, start)
    case Done => Still(env, x, start) && j == x + 3 <= |env| && env[x + 2].ready != ready
    case Failed => Still(env, x, start) && j == x + 4 <= |env| && env[x + 2].ready == ready && env[x + 3].expired
  }

  /** What an undisturbed round shows decides. */
  lemma WatchDecides(env: seq<Obs>, x: nat, j: nat, start: nat, ready: bool, out: Outcome)
    requires WatchEnds(env, x, j, start, ready, out) && Still(env, x, start) && x + 2 < |env|
    ensures out == if env[x + 2].ready != ready then Done else Failed
    ensures out == Failed ==> x + 3 < |env| && env[x + 3].expired
  {
  }

  /** The drop was looked for up to the round at `x`, and, if it came, the return up to the round at `y`. */
  ghost predicate Cycled(env: seq<Obs>, i: nat, j: nat, start: nat, out: Outcome, x: nat, y: nat) {
    && Watched(env, i, x, start, true)
    && ((out != Done && WatchEnds(env, x, j, start, true, out))
        || (WatchEnds(env, x, x + 3, start, true, Done) && Watched(env, x + 3, y, start, false)
            && WatchEnds(env, y, j, start, false, out)))
  }

  /** One of the two loops: until the mailbox is not as given. */
  method Watch(env: seq<Obs>, i: nat, start: nat, ready: bool) returns (r: Step<Outcome>, j: nat, ghost x: nat)
    ensures i <= j && if r.Value? then i <= x < j <= |env| else |env| <= j
    ensures r.Value? ==> Watched(env, i, x, start, ready) && WatchEnds(env, x, j, start, ready, r.v)
  {
    j, x := i, i;
    var gone, o;
    while true
      invariant i <= j == x && (i < j ==> j <= |env|) && Watched(env, i, x, start, ready)
      decreases |env| + i - j
    {
      gone, j :- Changed(env, j, start);
      if gone { return Value(Again), j, x; }
      o, j :- Read(env, j);
      if o.ready != ready { return Value(Done), j, x; }
      o, j :- Read(env, j);
      if o.expired { return Value(Failed), j, x; }
      x := j;
    }
  }

  /** `dxrt_wait_fw_reboot_mailbox_cycle`: the mailbox read not ready in the round at `x`, then ready in that at `y`. */
  method MailboxCycle(env: seq<Obs>, i: nat, start: nat) returns (r: Step<Outcome>, j: nat, ghost x: nat, ghost y: nat)
    ensures i <= j && if r.Value? then i < j <= |env| else |env| <= j
    ensures r.Value? ==> Cycled(env, i, j, start, r.v, x, y)
  {
    var out;
    y := i;
    out, j, x :- Watch(env, i, start, true);
    if out != Done { return Value(out), j, x, y; }
    r, j, y := Watch(env, j, start, false);
  }

  /** Rounds of three reads from `i` to `x`: recovery not restarted, time left. */
  ghost predicate Settles(env: seq<Obs>, i: nat, x: nat, start: nat)
    decreases x
  {
    i != x ==> i + 3 <= x <= |env| && Settles(env, i, x - 3, start) && Still(env, x - 3, start) && !env[x - 1].expired
  }

  ghost predicate Settled(env: seq<Obs>, i: nat, j: nat, start: nat, out: Outcome, x: nat) {
    && Settles(env, i, x, start)
    && match out
       case Again => Moved(env, x, j, start)
       case Done => Still(env, x, start) && j == x + 3 <= |env| && env[x + 2].expired
       case Failed => false
  }

  /** `dxrt_wait_fw_reboot_legacy_settle`. */
  method LegacySettle(env: seq<Obs>, i: nat, start: nat) returns (r: Step<Outcome>, j: nat, ghost x: nat)
    ensures i <= j && if r.Value? then i < j <= |env| else |env| <= j
    ensures r.Value? ==> Settled(env, i, j, start, r.v, x)
  {
    j, x := i, i;
    var gone, o;
    while true
      invariant i <= j == x && (i < j ==> j <= |env|) && Settles(env, i, x, start)
      decreases |env| + i - j
    {
      gone, j :- Changed(env, j, start);
      if gone { return Value(Again), j, x; }
      o, j :- Read(env, j);
      if o.expired { return Value(Done), j, x; }
      x := j;
    }
  }

  /** Step 1, the passive wait: which of the three depends on the reason read at `i`. */
  ghost predicate Awaited(env: seq<Obs>, i: nat, j: nat, start: nat, out: Outcome, x: nat, y: nat) {
    && i < |env|
    && match env[i].reason
       case FwUpdateLegacy => Settled(env, i + 1, j, start, out, x)
       case LinkFlap =>
         && i + 1 < |env|
         && (match out
             case Again => Moved(env, i + 2, j, start)
             case Done => Still(env, i + 2, start) && j == i + 4 && env[i + 1].ready
             case Failed => Still(env, i + 2, start) && j == i + 4 && !env[i + 1].ready)
       case _ => Cycled(env, i + 1, j, start, out, x, y)
  }

  method AwaitMailbox(env: seq<Obs>, i: nat, start: nat)
    returns (r: Step<Outcome>, j: nat, legacy: bool, ghost x: nat, ghost y: nat)
    ensures i <= j && if r.Value? then i < j <= |env| && (legacy <==> env[i].reason.FwUpdateLegacy?) else |env| <= j
    ensures r.Value? ==> Awaited(env, i, j, start, r.v, x, y)
  {
    hide Cycled, Settled;
    x, y, legacy := i, i, false;
    var o, gone;
    o, j :- Read(env, i);
    legacy := o.reason.FwUpdateLegacy?;
    match o.reason {
      case FwUpdateLegacy =>
        r, j, x := LegacySettle(env, j, start);
      case LinkFlap =>
        o, j :- Read(env, j);
        gone, j :- Changed(env, j, start);
        r := Value(if gone then Again else if o.ready then Done else Failed);
      case _ =>
        r, j, x, y := MailboxCycle(env, j, start);
    }
  }

  // ---- the ping ----

  const ALL_ONES := WORD - 1

  /** Rounds of four reads from `i` to `x`: time left, no acknowledgement yet, recovery not restarted. */
  ghost predicate Polls(env: seq<Obs>, i: nat, x: nat, start: nat)
    decreases x
  {
    i != x ==>
      && i + 4 <= x <= |env| && Polls(env, i, x - 4, start)
      && !env[x - 4].expired && Still(env, x - 2, start) && env[x - 3].ack != ALL_ONES && env[x - 3].ack != 1
  }

  /** The round at `x` ends the polling with an acknowledgement, or without one. */
  ghost predicate PollEnds(env: seq<Obs>, x: nat, j: nat, start: nat, out: Outcome) {
    && x < |env|
    && if env[x].expired then out == Failed && j == x + 1
       else
         && x + 1 < |env|
         && match out
            case Again => Moved(env, x + 2, j, start)
            case Done => Still(env, x + 2, start) && j == x + 4 && env[x + 1].ack == 1
            case Failed => Still(env, x + 2, start) && j == x + 4 && env[x + 1].ack == ALL_ONES
  }

  method PollAck(env: seq<Obs>, i: nat, start: nat) returns (r: Step<Outcome>, j: nat, ghost x: nat)
    ensures i <= j && if r.Value? then i <= x < j <= |env| else |env| <= j
    ensures r.Value? ==> Polls(env, i, x, start) && PollEnds(env, x, j, start, r.v)
  {
    j, x := i, i;
    var gone, o, ack;
    while true
      invariant i <= j == x && (i < j ==> j <= |env|) && Polls(env, i, x, start)
      decreases |env| + i - j
    {
      o, j :- Read(env, j);
      if o.expired { return Value(Failed), j, x; }
      ack, j :- Read(env, j);
      gone, j :- Changed(env, j, start);
      if gone { return Value(Again), j, x; }
      if ack.ack == ALL_ONES { return Value(Failed), j, x; }
      if ack.ack == 1 { return Value(Done), j, x; }
      x := j;
    }
  }

  /** The reply to an acknowledged ping, read from `k` on, with the number drawn at `q`. */
  ghost predicate Replied(env: seq<Obs>, k: nat, j: nat, q: nat, out: Outcome) {
    && k < |env| && q < |env|
    && if !env[k].sizeOk then out == Failed && j == k + 1
       else
         && j == k + 2 <= |env|
         && out == if env[k + 1].magicOk && env[k + 1].echo == env[q].seqNo then Done else Failed
  }

  /** `fw_ping_probe`: its number is drawn at `i + 3`, and the acknowledgement polled for up to the round at `x`. */
  ghost predicate Pinged(env: seq<Obs>, i: nat, j: nat, start: nat, out: Outcome, x: nat) {
    && i < |env|
    && if !env[i].hasMsg then out == Failed && j == i + 1
       else if !Still(env, i + 1, start) then out == Again && Moved(env, i + 1, j, start)
       else if !Still(env, i + 4, start) then out == Again && i + 3 < |env| && Moved(env, i + 4, j, start)
       else
         && Polls(env, i + 6, x, start)
         && ((out != Done && PollEnds(env, x, j, start, out))
             || (PollEnds(env, x, x + 4, start, Done) && Replied(env, x + 4, j, i + 3, out)))
  }

  /** An undisturbed probe that is acknowledged in time succeeds exactly with a reply of its own. */
  lemma PingDecides(env: seq<Obs>, i: nat, j: nat, start: nat, out: Outcome, x: nat)
    requires Pinged(env, i, j, start, out, x) && env[i].hasMsg && Still(env, i + 1, start) && Still(env, i + 4, start)
    requires x + 5 < |env| && !env[x].expired && Still(env, x + 2, start)
    ensures env[x + 1].ack == 1 ==>
              (out == Done <==> env[x + 4].sizeOk && env[x + 5].magicOk && env[x + 5].echo == env[i + 3].seqNo)
    ensures env[x + 1].ack == ALL_ONES ==> out == Failed
  {
  }

  method Ping(env: seq<Obs>, i: nat, start: nat) returns (r: Step<Outcome>, j: nat, ghost x: nat)
    ensures i <= j && if r.Value? then i < j <= |env| else |env| <= j
    ensures r.Value? ==> Pinged(env, i, j, start, r.v, x)
  {
    hide Polls, PollEnds;
    x := i;
    var o, gone, seqNo, out;
    o, j :- Read(env, i);
    if !o.hasMsg { return Value(Failed), j, x; }
    gone, j :- Changed(env, j, start);
    if gone { return Value(Again), j, x; }
    o, j :- Read(env, j);
    seqNo := o.seqNo;
    gone, j :- Changed(env, j, start);
    if gone { return Value(Again), j, x; }
    out, j, x :- PollAck(env, j, start);
    PollEnd(env, x, j, start, out);
    if out != Done { return Value(out), j, x; }
    o, j :- Read(env, j);
    if !o.sizeOk { return Value(Failed), j, x; }
    o, j :- Read(env, j);
    return Value(if o.magicOk && o.echo == seqNo then Done else Failed), j, x;
  }

  lemma PollEnd(env: seq<Obs>, x: nat, j: nat, start: nat, out: Outcome)
    requires PollEnds(env, x, j, start, out)
    ensures out == Done ==> j == x + 4
  {
  }

  // ---- the pass ----

  datatype Pass = Left | Hung | Published

  /** Where a pass got to: its wait with outcome `w` up to `p`, its ping with outcome `o` up to `k`, its last check. */
  datatype Track = Track(w: Outcome, x: nat, y: nat, p: nat, o: Outcome, v: nat, k: nat, fin: nat)

  /** The ping, and the check after it. */
  ghost predicate Probed(env: seq<Obs>, j: nat, start: nat, t: Track, r: Pass) {
    && Pinged(env, t.p, t.k, start, t.o, t.v)
    && match r
       case Left =>
         Moved(env, t.k, j, start) || (t.o == Done && Still(env, t.k, start) && Moved(env, t.k + 2, j, start))
       case Hung => t.o != Done && Still(env, t.k, start) && j == t.k + 2
       case Published =>
         && t.o == Done && Still(env, t.k, start) && Still(env, t.k + 2, start)
         && j == t.k + 4 && t.fin == t.k + 2
  }

  /** What follows the wait. */
  ghost predicate Concludes(env: seq<Obs>, j: nat, start: nat, skipPing: bool, t: Track, r: Pass) {
    if !skipPing then Probed(env, j, start, t, r)
    else match r
      case Left => Moved(env, t.p, j, start)
      case Hung => false
      case Published => Still(env, t.p, start) && j == t.p + 2 && t.fin == t.p
  }

  /**
   How a pass from `i` on ends.  It leaves when it finds the device given up, or recovery restarted at one of its
   checks; it declares the firmware hung when a wait or the ping fails and recovery was not restarted meanwhile; and
   it publishes in every other case.
   */
  ghost predicate PassEnds(env: seq<Obs>, i: nat, j: nat, t: Track, r: Pass) {
    && i < |env|
    && if env[i].permFail then r == Left && j == i + 1
       else
         && i + 1 < |env|
         && var start := env[i + 1].epoch;
            if !Still(env, i + 2, start) then r == Left && Moved(env, i + 2, j, start)
            else
              && i + 4 < |env|
              && if !env[i + 4].mapped then t.p == i + 5 && Concludes(env, j, start, false, t, r)
                 else
                   && Awaited(env, i + 5, t.p, start, t.w, t.x, t.y)
                   && match t.w
                      case Again => r == Left && j == t.p
                      case Failed => r == Hung && j == t.p
                      case Done => Concludes(env, j, start, env[i + 5].reason.FwUpdateLegacy?, t, r)
  }

  /** Where a pass read what it has to show: mapping, reason, mailbox (not ready, ready), its own number, the reply. */
  datatype Shown = Shown(m: nat, z: nat, a: nat, b: nat, q: nat, g: nat)

  ghost predicate Legacy(env: seq<Obs>, e: Shown)
    requires e.m < |env| && e.z < |env|
  {
    env[e.m].mapped && env[e.z].reason.FwUpdateLegacy?
  }

  ghost predicate Within(env: seq<Obs>, e: Shown) {
    e.m < |env| && e.z < |env| && e.a < |env| && e.b < |env| && e.q < |env| && e.g < |env|
  }

  /**
   Between `cap` and `fin`: the ready edge where it is called for, and the echo of the pass's own number, or, if the
   firmware is legacy, the end of the settling time.
   */
  ghost predicate Proves(env: seq<Obs>, cap: nat, fin: nat, e: Shown) {
    && cap < e.m <= e.z < fin <= |env| && Within(env, e)
    && (env[e.m].mapped && (env[e.z].reason.CpuReset? || env[e.z].reason.FwUpdate?) ==>
          e.z < e.a < e.b < e.q < fin && !env[e.a].ready && env[e.b].ready)
    && (env[e.m].mapped && env[e.z].reason.LinkFlap? ==> e.z < e.b < e.q < fin && env[e.b].ready)
    && (if Legacy(env, e) then e.z < e.a < fin && env[e.a].expired
        else e.z < e.q < e.g < fin && env[e.g].magicOk && env[e.g].echo == env[e.q].seqNo)
  }

  lemma AwaitedDone(env: seq<Obs>, i: nat, j: nat, start: nat, x: nat, y: nat)
    requires Awaited(env, i, j, start, Done, x, y)
    ensures i < j <= |env|
    ensures env[i].reason.CpuReset? || env[i].reason.FwUpdate? ==>
              i < x && x + 2 < y && j == y + 3 && !env[x + 2].ready && env[y + 2].ready
    ensures env[i].reason.LinkFlap? ==> i + 1 < j && env[i + 1].ready
    ensures env[i].reason.FwUpdateLegacy? ==> i < j - 1 && env[j - 1].expired
  {
  }

  lemma PingedDone(env: seq<Obs>, i: nat, j: nat, start: nat, x: nat)
    requires Pinged(env, i, j, start, Done, x)
    ensures i + 6 <= x && j == x + 6 <= |env| && env[x + 5].magicOk && env[x + 5].echo == env[i + 3].seqNo
  {
  }

  /** A pass publishes only with proof. */
  lemma PublishedProves(env: seq<Obs>, i: nat, j: nat, t: Track) returns (e: Shown)
    requires PassEnds(env, i, j, t, Published)
    ensures t.fin + 1 < |env| && Proves(env, i + 1, t.fin, e)
    ensures env[t.fin].epoch == env[i + 1].epoch && env[t.fin + 1].transportOk
  {
    hide Awaited, Pinged, Proves;
    var start, z, a, b := env[i + 1].epoch, i + 4, i, i;
    var legacy := false;
    if env[i + 4].mapped {
      z := i + 5;
      AwaitedDone(env, z, t.p, start, t.x, t.y);
      legacy := env[z].reason.FwUpdateLegacy?;
      if env[z].reason.CpuReset? || env[z].reason.FwUpdate? { a, b := t.x + 2, t.y + 2; } else { b := z + 1; }
    }
    var q, g := i, i;
    if !legacy {
      PingedDone(env, t.p, t.k, start, t.v);
      q, g := t.p + 3, t.v + 5;
    } else {
      a, b := t.p - 1, i;
    }
    e := Shown(i + 4, z, a, b, q, g);
    ShownProves(env, i + 1, t.fin, e);
  }

  lemma ShownProves(env: seq<Obs>, cap: nat, fin: nat, e: Shown)
    requires cap < e.m <= e.z < fin <= |env| && Within(env, e)
    requires env[e.m].mapped && (env[e.z].reason.CpuReset? || env[e.z].reason.FwUpdate?) ==>
               e.z < e.a < e.b < e.q < fin && !env[e.a].ready && env[e.b].ready
    requires env[e.m].mapped && env[e.z].reason.LinkFlap? ==> e.z < e.b < e.q < fin && env[e.b].ready
    requires if Legacy(env, e) then e.z < e.a < fin && env[e.a].expired
             else e.z < e.q < e.g < fin && env[e.g].magicOk && env[e.g].echo == env[e.q].seqNo
    ensures Proves(env, cap, fin, e)
  {
  }

  /**
   And a pass with proof does publish: if no check finds recovery restarted, the outcome of the wait and of the ping
   decides between READY and a hung firmware.
   */
  lemma PassDecides(env: seq<Obs>, i: nat, j: nat, t: Track, r: Pass)
    requires PassEnds(env, i, j, t, r) && !env[i].permFail && i + 5 < |env| && Still(env, i + 2, env[i + 1].epoch)
    ensures var start, mapped := env[i + 1].epoch, env[i + 4].mapped;
            var legacy := mapped && env[i + 5].reason.FwUpdateLegacy?;
            && (mapped && t.w == Failed ==> r == Hung)
            && (mapped && t.w == Again ==> r == Left)
            && ((mapped ==> t.w == Done) && !legacy && t.o != Done && Still(env, t.k, start) ==> r == Hung)
            && ((mapped ==> t.w == Done) && !legacy && t.o == Done && Still(env, t.k, start) ==>
                  Still(env, t.k + 2, start) ==> r == Published)
            && (legacy && t.w == Done && Still(env, t.p, start) ==> r == Published)
  {
    hide Awaited, Pinged;
  }

  /** The ping, unless it is skipped, and the checks after it. */
  method Conclude(env: seq<Obs>, i: nat, start: nat, skipPing: bool, ghost t0: Track)
    returns (r: Step<Pass>, j: nat, ghost t: Track)
    requires t0.p == i
    ensures i <= j && if r.Value? then i < j <= |env| else |env| <= j
    ensures t == t0.(o := t.o, v := t.v, k := t.k, fin := t.fin)
    ensures r.Value? ==> Concludes(env, j, start, skipPing, t, r.v)
  {
    hide Pinged;
    j, t := i, t0.(fin := i);
    var gone;
    if !skipPing {
      var done; ghost var v;
      done, j, v :- Ping(env, j, start);
      t := t.(o := done, v := v, k := j, fin := j + 2);
      gone, j :- Changed(env, j, start);
      if gone { return Value(Left), j, t; }
      if done != Done { return Value(Hung), j, t; }
    }
    gone, j :- Changed(env, j, start);
    return Value(if gone then Left else Published), j, t;
  }

  /** `dxrt_recovery_ready_work_fn`: the epoch is captured at `i + 1` and checked for the last time at `t.fin`. */
  method ReadyWork(env: seq<Obs>, i: nat) returns (r: Step<Pass>, j: nat, ghost t: Track)
    ensures i <= j && if r.Value? then i < j <= |env| else |env| <= j
    ensures r.Value? ==> PassEnds(env, i, j, t, r.v)
  {
    hide Awaited, Concludes;
    t := Track(Done, i, i, i, Done, i, i, i);
    var o, gone;
    o, j :- Read(env, i);
    if o.permFail { return Value(Left), j, t; }
    o, j :- Read(env, j);
    var start := o.epoch;
    gone, j :- Changed(env, j, start);
    if gone { return Value(Left), j, t; }
    o, j :- Read(env, j);
    var skipPing := false;
    if o.mapped {
      var done; ghost var x, y;
      done, j, skipPing, x, y :- AwaitMailbox(env, j, start);
      t := t.(w := done, x := x, y := y, p := j);
      if done == Again { return Value(Left), j, t; }
      if done == Failed { return Value(Hung), j, t; }
    }
    r, j, t := Conclude(env, j, start, skipPing, t.(p := j));
  }

  // ---- the same pass in the state machine ----

  /** What the pass read, as events in the order of the reads. */
  ghost function Events(env: seq<Obs>, e: Shown): seq<Recovery.Event>
    requires Within(env, e)
  {
    var mapped, reason := env[e.m].mapped, env[e.z].reason;
    [Recovery.Chose(reason, mapped)]
    + (if !mapped then []
       else if reason.FwUpdateLegacy? then (if env[e.a].expired then [Recovery.Elapsed] else [])
       else if reason.LinkFlap? then [Recovery.Sample(env[e.b].ready)]
       else [Recovery.Sample(env[e.a].ready), Recovery.Sample(env[e.b].ready)])
    + (if Legacy(env, e) then [] else [Recovery.Sent(env[e.q].seqNo), Recovery.Pong(env[e.g].echo)])
  }

  /** The waiting steps of `Recovery` with what the pass read. */
  ghost function Waits(env: seq<Obs>, e: Shown): seq<Recovery.Action>
    requires Within(env, e)
  {
    if !env[e.m].mapped then []
    else match env[e.z].reason
      case FwUpdateLegacy => [Recovery.Settle(env[e.a].expired)]
      case LinkFlap => [Recovery.WatchReady(env[e.b].ready)]
      case _ => [Recovery.WatchDrop(env[e.a].ready, false), Recovery.WatchReturn(env[e.b].ready, false)]
  }

  /** And the steps of the ping. */
  ghost function Pings(env: seq<Obs>, e: Shown): seq<Recovery.Action>
    requires Within(env, e)
  {
    [Recovery.StartPing(true), Recovery.SendPing, Recovery.Poll(1, false),
     Recovery.Reply(true, env[e.g].magicOk, env[e.g].echo), Recovery.EndPing]
  }

  ghost function Script(env: seq<Obs>, e: Shown): seq<Recovery.Action>
    requires Within(env, e)
  {
    [Recovery.Begin, Recovery.Choose] + Waits(env, e)
    + (if Legacy(env, e) then [] else Pings(env, e)) + [Recovery.Publish]
  }

  /** The state after the actions, if each is enabled in its turn. */
  ghost function Perform(p: Recovery.Params, s: Recovery.State, actions: seq<Recovery.Action>): Option<Recovery.State>
    decreases |actions|
  {
    if actions == [] then Some(s)
    else if !Recovery.Enabled(s, actions[0]) then None
    else Perform(p, Recovery.Apply(p, s, actions[0]), actions[1..])
  }

  lemma {:induction false} PerformThen(p: Recovery.Params, s: Recovery.State, a: seq<Recovery.Action>,
                                       b: seq<Recovery.Action>)
    requires Perform(p, s, a).Some?
    ensures Perform(p, s, a + b) == Perform(p, Perform(p, s, a).value, b)
    decreases |a|
  {
    hide Recovery.Apply, Recovery.Enabled;
    if a == [] {
      assert a + b == b;
    } else {
      assert (a + b)[1..] == a[1..] + b;
      PerformThen(p, Recovery.Apply(p, s, a[0]), a[1..], b);
    }
  }

  lemma PerformOne(p: Recovery.Params, s: Recovery.State, a: Recovery.Action)
    requires Recovery.Enabled(s, a)
    ensures Perform(p, s, [a]) == Some(Recovery.Apply(p, s, a))
  {
    hide Recovery.Apply, Recovery.Enabled;
    assert [a][1..] == [];
    assert Perform(p, Recovery.Apply(p, s, a), []) == Some(Recovery.Apply(p, s, a));
  }

  /** `s` about to choose, `t` done waiting with the events read so far. */
  ghost function Waited(env: seq<Obs>, e: Shown, s: Recovery.State): Recovery.State
    requires Within(env, e)
  {
    s.(chosen := s.reason, onMap := s.mapped, pass := Recovery.Before(s.reason, s.mapped),
       pc := if Legacy(env, e) then Recovery.Publishing(s.epoch, 0) else Recovery.PingStart(s.epoch))
  }

  lemma Chosen(p: Recovery.Params, s: Recovery.State) returns (t: Recovery.State)
    requires s.pc == Recovery.Begun(s.epoch) && s.pass == []
    ensures Perform(p, s, [Recovery.Choose]) == Some(t)
    ensures t == s.(chosen := s.reason, onMap := s.mapped, pass := [Recovery.Chose(s.reason, s.mapped)], pc := t.pc)
    ensures t.pc == if !s.mapped then Recovery.PingStart(s.epoch)
                    else match s.reason
                      case FwUpdateLegacy => Recovery.Settling(s.epoch)
                      case LinkFlap => Recovery.AwaitReady(s.epoch)
                      case _ => Recovery.AwaitDrop(s.epoch)
  {
    hide Perform;
    PerformOne(p, s, Recovery.Choose);
    t := Recovery.DoChoose(s);
  }

  lemma WaitsReplayed(p: Recovery.Params, env: seq<Obs>, cap: nat, fin: nat, e: Shown, s: Recovery.State)
    requires Proves(env, cap, fin, e) && s.pc == Recovery.Begun(s.epoch) && s.pass == [] && s.dev.TransportOk?
    requires s.mapped == env[e.m].mapped && s.reason == env[e.z].reason
    ensures Perform(p, s, [Recovery.Choose] + Waits(env, e)) == Some(Waited(env, e, s))
  {
    hide Perform;
    var t := Chosen(p, s);
    PerformThen(p, s, [Recovery.Choose], Waits(env, e));
    assert [Recovery.Chose(s.reason, s.mapped)] + [] == [Recovery.Chose(s.reason, s.mapped)];
    if !s.mapped {
      PerformNone(p, t);
    } else if s.reason.FwUpdateLegacy? {
      PerformOne(p, t, Recovery.Settle(true));
    } else if s.reason.LinkFlap? {
      PerformOne(p, t, Recovery.WatchReady(true));
    } else {
      PerformOne(p, t, Recovery.WatchDrop(false, false));
      PerformThen(p, t, [Recovery.WatchDrop(false, false)], [Recovery.WatchReturn(true, false)]);
      PerformOne(p, Recovery.DoWatchDrop(p, t, false, false), Recovery.WatchReturn(true, false));
      assert Waits(env, e) == [Recovery.WatchDrop(false, false)] + [Recovery.WatchReturn(true, false)];
      assert Recovery.Before(s.reason, s.mapped)
          == [Recovery.Chose(s.reason, s.mapped)] + [Recovery.Sample(false)] + [Recovery.Sample(true)];
    }
  }

  lemma PerformNone(p: Recovery.Params, s: Recovery.State)
    ensures Perform(p, s, []) == Some(s)
  {
  }

  /** `s` with the ping sent and the reply awaited. */
  ghost function Asked(s: Recovery.State, q: nat): Recovery.State {
    s.(seqGen := q, pass := s.pass + [Recovery.Sent(q)], pc := Recovery.Polling(s.epoch, q))
  }

  ghost function Answered(s: Recovery.State, q: nat): Recovery.State {
    s.(seqGen := q, pass := s.pass + [Recovery.Sent(q), Recovery.Pong(q)], pc := Recovery.Publishing(s.epoch, q))
  }

  lemma PingAsked(p: Recovery.Params, s: Recovery.State, q: nat)
    requires q == Recovery.NextSeq(s) && s.pc == Recovery.PingStart(s.epoch) && s.dev.TransportOk?
    ensures Perform(p, s, [Recovery.StartPing(true), Recovery.SendPing]) == Some(Asked(s, q))
  {
    hide Perform;
    var s1 := s.(seqGen := q, pc := Recovery.PingLocked(s.epoch, q));
    PerformOne(p, s, Recovery.StartPing(true));
    PerformOne(p, s1, Recovery.SendPing);
    PerformThen(p, s, [Recovery.StartPing(true)], [Recovery.SendPing]);
    assert [Recovery.StartPing(true), Recovery.SendPing] == [Recovery.StartPing(true)] + [Recovery.SendPing];
  }

  lemma PingAnswered(p: Recovery.Params, s: Recovery.State, q: nat)
    requires s.dev.TransportOk?
    ensures Perform(p, Asked(s, q), [Recovery.Poll(1, false), Recovery.Reply(true, true, q), Recovery.EndPing])
            == Some(Answered(s, q))
  {
    hide Perform;
    var a, b, c := Recovery.Poll(1, false), Recovery.Reply(true, true, q), Recovery.EndPing;
    var s1 := Asked(s, q);
    var s2 := s1.(pc := Recovery.Replied(s.epoch, q));
    var s3 := s2.(pass := s1.pass + [Recovery.Pong(q)], pc := Recovery.Pinged(s.epoch, q, true));
    PerformOne(p, s1, a);
    PerformOne(p, s2, b);
    PerformOne(p, s3, c);
    PerformThen(p, s1, [a], [b]);
    PerformThen(p, s1, [a] + [b], [c]);
    assert [a, b, c] == [a] + [b] + [c];
    assert s3.pass == s.pass + [Recovery.Sent(q), Recovery.Pong(q)];
  }

  lemma PingsReplayed(p: Recovery.Params, env: seq<Obs>, e: Shown, s: Recovery.State)
    requires Within(env, e) && env[e.g].magicOk && env[e.g].echo == env[e.q].seqNo == Recovery.NextSeq(s)
    requires s.pc == Recovery.PingStart(s.epoch) && s.dev.TransportOk?
    ensures Perform(p, s, Pings(env, e)) == Some(Answered(s, env[e.q].seqNo))
  {
    hide Perform, Asked, Answered;
    var q := env[e.q].seqNo;
    var ask := [Recovery.StartPing(true), Recovery.SendPing];
    var rest := [Recovery.Poll(1, false), Recovery.Reply(true, true, q), Recovery.EndPing];
    PingAsked(p, s, q);
    PingAnswered(p, s, q);
    PerformThen(p, s, ask, rest);
    assert Pings(env, e) == ask + rest;
  }

  /**
   A published pass is one the state machine can make: from a state that agrees with what the pass read, the machine's
   worker takes the same observations to READY, and has logged exactly what was read.
   */
  lemma PublishedPassReplays(p: Recovery.Params, env: seq<Obs>, cap: nat, fin: nat, e: Shown, s: Recovery.State)
    requires Proves(env, cap, fin, e) && s.queued && s.pc.Resting? && s.dev.TransportOk?
    requires s.mapped == env[e.m].mapped && s.reason == env[e.z].reason
    requires !Legacy(env, e) ==> env[e.q].seqNo == Recovery.NextSeq(s)
    ensures Events(env, e) == Recovery.Proof(s.reason, s.mapped, env[e.q].seqNo)
    ensures var t := Perform(p, s, Script(env, e));
            t.Some? && t.value.dev.Ready? && t.value.epoch == s.epoch && t.value.pass == Events(env, e)
  {
    hide Perform;
    var b := s.(queued := false, pc := Recovery.Begun(s.epoch), pass := []);
    PerformOne(p, s, Recovery.Begin);
    WaitsReplayed(p, env, cap, fin, e, b);
    var front := [Recovery.Choose] + Waits(env, e);
    PerformThen(p, s, [Recovery.Begin], front);
    assert [Recovery.Begin] + front == [Recovery.Begin, Recovery.Choose] + Waits(env, e);
    var w := Waited(env, e, b);
    if Legacy(env, e) {
      PerformThen(p, s, [Recovery.Begin] + front, [Recovery.Publish]);
      PerformOne(p, w, Recovery.Publish);
      assert Script(env, e) == [Recovery.Begin] + front + [Recovery.Publish];
    } else {
      PingsReplayed(p, env, e, w);
      PerformThen(p, s, [Recovery.Begin] + front, Pings(env, e));
      var v := Answered(w, env[e.q].seqNo);
      PerformThen(p, s, [Recovery.Begin] + front + Pings(env, e), [Recovery.Publish]);
      PerformOne(p, v, Recovery.Publish);
    }
  }

  /** Published under a growing epoch: it did not move at all during the pass. */
  lemma PublishedUnderOneEpoch(env: seq<Obs>, cap: nat, fin: nat)
    requires cap <= fin < |env| && env[fin].epoch == env[cap].epoch
    requires forall a, b :: 0 <= a <= b < |env| ==> env[a].epoch <= env[b].epoch
    ensures forall k :: cap <= k <= fin ==> env[k].epoch == env[cap].epoch
  {
    forall k | cap <= k <= fin ensures env[k].epoch == env[cap].epoch {
      assert env[cap].epoch <= env[k].epoch <= env[fin].epoch;
    }
  }
}
