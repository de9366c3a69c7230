/**
 Tumbling windows: a counter that starts again once more than a window length has passed since the window was opened.
 The link-recovery limiter and the permanent-failure guard both count this way.
 */
module RateWindow {

  /** A counted event, and the start of the window it was counted in. */
  datatype Mark = Mark(time: nat, win: nat)

  datatype Window = Window(start: nat, count: nat)

  /** The window in force at `now`: a new one if the old one has expired. */
  function Roll(w: Window, length: nat, now: nat): Window {
    if now > w.start + length then Window(now, 0) else w
  }

  function Bump(w: Window): Window {
    w.(count := w.count + 1)
  }

  // ---- what a log of counted events looks like ----

  /** Events are in order, each inside its window, and windows are more than a window length apart. */
  ghost predicate Tumbling(log: seq<Mark>, length: nat) {
    && (forall i :: 0 <= i < |log| ==> log[i].win <= log[i].time <= log[i].win + length)
    && (forall i, j :: 0 <= i < j < |log| ==> log[i].time <= log[j].time)
    && (forall i, j :: 0 <= i < j < |log| ==> log[i].win == log[j].win || log[i].win + length < log[j].win)
  }

  /** No window holds more than `cap` events. */
  ghost predicate Capped(log: seq<Mark>, cap: nat) {
    forall i, j :: 0 <= i < |log| && i + cap <= j < |log| ==> log[i].win != log[j].win
  }

  /** The last `w.count` events, and no others, are in window `w`. */
  ghost predicate Counts(log: seq<Mark>, length: nat, w: Window) {
    && w.count <= |log|
    && (forall i :: |log| - w.count <= i < |log| ==> log[i].win == w.start)
    && (forall i :: 0 <= i < |log| - w.count ==> log[i].win + length < w.start)
  }

  ghost predicate Tracks(log: seq<Mark>, length: nat, w: Window, now: nat) {
    && Tumbling(log, length) && Counts(log, length, w)
    && w.start <= now && forall i :: 0 <= i < |log| ==> log[i].time <= now
  }

  lemma RollTracks(log: seq<Mark>, length: nat, w: Window, now: nat, later: nat)
    requires Tracks(log, length, w, now) && now <= later
    ensures Tracks(log, length, Roll(w, length, later), later)
  {
  }

  lemma BumpTracks(log: seq<Mark>, length: nat, w: Window, now: nat, cap: nat)
    requires Tracks(log, length, w, now) && now <= w.start + length && Capped(log, cap)
    ensures Tracks(log + [Mark(now, w.start)], length, Bump(w), now)
    ensures w.count < cap ==> Capped(log + [Mark(now, w.start)], cap)
  {
    hide Capped, Tumbling, Counts;
    BumpTumbles(log, length, w, now);
    BumpCounts(log, length, w, now);
    if w.count < cap { BumpCaps(log, length, w, now, cap); }
  }

  lemma BumpTumbles(log: seq<Mark>, length: nat, w: Window, now: nat)
    requires Tracks(log, length, w, now) && now <= w.start + length
    ensures Tumbling(log + [Mark(now, w.start)], length)
  {
  }

  lemma BumpCounts(log: seq<Mark>, length: nat, w: Window, now: nat)
    requires Counts(log, length, w)
    ensures Counts(log + [Mark(now, w.start)], length, Bump(w))
  {
  }

  lemma BumpCaps(log: seq<Mark>, length: nat, w: Window, now: nat, cap: nat)
    requires Counts(log, length, w) && Capped(log, cap) && w.count < cap
    ensures Capped(log + [Mark(now, w.start)], cap)
  {
  }

  /** Events `2 * cap` apart in the log are more than a window length apart in time. */
  lemma Spread(log: seq<Mark>, length: nat, cap: nat, i: nat)
    requires Tumbling(log, length) && Capped(log, cap) && i + 2 * cap < |log|
    ensures log[i].time + length < log[i + 2 * cap].time
  {
    var j := i + cap;
    assert log[i].win != log[j].win && log[j].win != log[j + cap].win;
    assert log[i].time <= log[i].win + length < log[j].win;
    assert log[j].win + length < log[j + cap].win <= log[j + cap].time;
  }

  /** The events of the closed interval of one window length that starts at `t`. */
  ghost function Within(log: seq<Mark>, length: nat, t: nat): set<int> {
    set i | 0 <= i < |log| && t <= log[i].time <= t + length
  }

  /** The `n` numbers from `lo` on. */
  ghost function Span(lo: int, n: nat): (r: set<int>)
    ensures forall i :: i in r <==> lo <= i < lo + n
    ensures |r| == n
  {
    if n == 0 then {} else Span(lo, n - 1) + {lo + n - 1}
  }

  lemma SubsetSize(a: set<int>, b: set<int>)
    requires a <= b
    ensures |a| <= |b|
  {
    assert b == a + (b - a);
  }

  /** Any closed interval of one window length holds at most `2 * cap` events. */
  lemma AtMostTwiceCap(log: seq<Mark>, length: nat, cap: nat, t: nat)
    requires Tumbling(log, length) && Capped(log, cap)
    ensures |Within(log, length, t)| <= 2 * cap
  {
    var inside := Within(log, length, t);
    if inside != {} {
      var first := First(log, length, t);
      forall i | i in inside ensures i in Span(first, 2 * cap) {
        if i >= first + 2 * cap { Spread(log, length, cap, first); }
      }
      SubsetSize(inside, Span(first, 2 * cap));
    }
  }

  /** The first event at or after `t`. */
  lemma First(log: seq<Mark>, length: nat, t: nat) returns (first: nat)
    requires Tumbling(log, length) && Within(log, length, t) != {}
    ensures first in Within(log, length, t) && forall i :: i in Within(log, length, t) ==> first <= i
  {
    var k: int :| k in Within(log, length, t);
    first := k;
    while exists i :: i in Within(log, length, t) && i < first
      invariant first in Within(log, length, t)
      decreases first
    {
      var i :| i in Within(log, length, t) && i < first;
      first := i;
    }
  }

  predicate Ordered(times: seq<nat>, from: nat) {
    (forall i :: 0 <= i < |times| ==> from <= times[i]) && forall i, j :: 0 <= i < j < |times| ==> times[i] <= times[j]
  }

  // ---- the recovery limiter ----

  /** Recovery asked for at `time`; `blocked` if another owner takes over between the rate check and the attempt. */
  datatype Request = Request(time: nat, blocked: bool)

  predicate TimeOrdered(reqs: seq<Request>, from: nat) {
    && (forall i :: 0 <= i < |reqs| ==> from <= reqs[i].time)
    && forall i, j :: 0 <= i < j < |reqs| ==> reqs[i].time <= reqs[j].time
  }

  /** Rate check and recorded attempt: the new window, and whether recovery is attempted. */
  function Ask(w: Window, length: nat, max: nat, q: Request): (Window, bool) {
    var r := Roll(w, length, q.time);
    if r.count >= max || q.blocked then (r, false) else (Bump(r), true)
  }

  /** The attempts made on `reqs`, after those of `log`. */
  function Attempts(log: seq<Mark>, w: Window, length: nat, max: nat, reqs: seq<Request>): seq<Mark>
    decreases |reqs|
  {
    if reqs == [] then log
    else
      var (w', ok) := Ask(w, length, max, reqs[0]);
      Attempts(if ok then log + [Mark(reqs[0].time, w'.start)] else log, w', length, max, reqs[1..])
  }

  /** The times at which a window is restarted. */
  function Restarts(w: Window, length: nat, max: nat, reqs: seq<Request>): set<nat>
    decreases |reqs|
  {
    if reqs == [] then {}
    else
      var w' := Ask(w, length, max, reqs[0]).0;
      (if w'.start != w.start then {w'.start} else {}) + Restarts(w', length, max, reqs[1..])
  }

  lemma AskTracks(log: seq<Mark>, w: Window, length: nat, max: nat, now: nat, q: Request)
    requires Tracks(log, length, w, now) && now <= q.time && Capped(log, max)
    ensures var (w', ok) := Ask(w, length, max, q);
            var log' := if ok then log + [Mark(q.time, w'.start)] else log;
            Tracks(log', length, w', q.time) && Capped(log', max)
  {
    hide Tracks, Capped;
    RollTracks(log, length, w, now, q.time);
    var r := Roll(w, length, q.time);
    if r.count < max && !q.blocked { BumpTracks(log, length, r, q.time, max); }
  }

  lemma {:induction false} AttemptsTrack(log: seq<Mark>, w: Window, length: nat, max: nat, now: nat, reqs: seq<Request>)
    requires Tracks(log, length, w, now) && TimeOrdered(reqs, now) && Capped(log, max)
    ensures var all := Attempts(log, w, length, max, reqs); Tumbling(all, length) && Capped(all, max)
    decreases |reqs|
  {
    hide Tumbling, Capped;
    if reqs != [] {
      AskTracks(log, w, length, max, now, reqs[0]);
      var (w', ok) := Ask(w, length, max, reqs[0]);
      AttemptsTrack(if ok then log + [Mark(reqs[0].time, w'.start)] else log, w', length, max, reqs[0].time, reqs[1..]);
    }
  }

  /** Every attempt after those of `log` is counted in the window in force or in one restarted later. */
  lemma {:induction false} AttemptsIn(log: seq<Mark>, w: Window, length: nat, max: nat, reqs: seq<Request>)
    ensures var all := Attempts(log, w, length, max, reqs);
            && |log| <= |all| && all[..|log|] == log
            && forall i :: |log| <= i < |all| ==> all[i].win == w.start || all[i].win in Restarts(w, length, max, reqs)
    ensures forall r :: r in Restarts(w, length, max, reqs) ==> w.start < r
    decreases |reqs|
  {
    if reqs != [] {
      var (w', ok) := Ask(w, length, max, reqs[0]);
      AttemptsIn(if ok then log + [Mark(reqs[0].time, w'.start)] else log, w', length, max, reqs[1..]);
    }
  }

  /** All events of an interval in which no window starts, except at its beginning, are in one window. */
  lemma AtMostCap(log: seq<Mark>, length: nat, cap: nat, t: nat)
    requires Tumbling(log, length) && Capped(log, cap)
    requires forall i, j :: 0 <= i < j < |log| && log[i].win < log[j].win ==> !(t < log[j].win <= t + length)
    ensures |Within(log, length, t)| <= cap
  {
    var inside := Within(log, length, t);
    if inside != {} {
      var first := First(log, length, t);
      forall i | i in inside ensures i in Span(first, cap) {
        assert first < i ==> log[first].win == log[i].win;
      }
      SubsetSize(inside, Span(first, cap));
    }
  }

  /**
   Whenever recovery is asked for, and whatever blocks it after the rate check, at most `max` attempts fall into one
   window and at most `2 * max` into any closed interval of one window length.  More than `max` fall into it only if a
   window is restarted inside it.
   */
  lemma RecoveryAttemptsBounded(start: nat, length: nat, max: nat, reqs: seq<Request>, t: nat)
    requires TimeOrdered(reqs, start)
    ensures var all := Attempts([], Window(start, 0), length, max, reqs);
            && (forall i, j :: 0 <= i < |all| && i + max <= j < |all| ==> all[i].win != all[j].win)
            && |Within(all, length, t)| <= 2 * max
            && (|Within(all, length, t)| > max ==>
                exists r :: r in Restarts(Window(start, 0), length, max, reqs) && t < r <= t + length)
  {
    var w := Window(start, 0);
    var all := Attempts([], w, length, max, reqs);
    AttemptsTrack([], w, length, max, start, reqs);
    AtMostTwiceCap(all, length, max, t);
    AttemptsIn([], w, length, max, reqs);
    if forall r :: r in Restarts(w, length, max, reqs) ==> !(t < r <= t + length) {
      AtMostCap(all, length, max, t);
    }
  }

  // ---- the bound is reached ----

  function Often(time: nat, n: nat): (r: seq<Request>)
    ensures |r| == n
  {
    seq(n, _ => Request(time, false))
  }

  function Marks(time: nat, win: nat, n: nat): (r: seq<Mark>)
    ensures |r| == n
  {
    seq(n, _ => Mark(time, win))
  }

  /** Requests that fit the window in force are all attempted. */
  lemma {:induction false} AllAttempted(log: seq<Mark>, w: Window, length: nat, max: nat, time: nat, n: nat,
                                        rest: seq<Request>)
    requires time <= w.start + length && w.count + n <= max
    ensures Attempts(log, w, length, max, Often(time, n) + rest)
         == Attempts(log + Marks(time, w.start, n), w.(count := w.count + n), length, max, rest)
    decreases n
  {
    if n == 0 {
      assert Often(time, 0) + rest == rest && log + Marks(time, w.start, 0) == log;
    } else {
      var reqs := Often(time, n) + rest;
      assert reqs[0] == Request(time, false) && reqs[1..] == Often(time, n - 1) + rest;
      AllAttempted(log + [Mark(time, w.start)], Bump(w), length, max, time, n - 1, rest);
      assert log + [Mark(time, w.start)] + Marks(time, w.start, n - 1) == log + Marks(time, w.start, n);
    }
  }

  /** An expired window might as well have been restarted before the next request. */
  lemma RestartedFirst(log: seq<Mark>, w: Window, length: nat, max: nat, reqs: seq<Request>)
    requires reqs != [] && reqs[0].time > w.start + length
    ensures Attempts(log, w, length, max, reqs) == Attempts(log, Window(reqs[0].time, 0), length, max, reqs)
  {
  }

  /** For every maximum: an interval of one window length that holds twice as many attempts. */
  lemma TwiceTheMaximumHappens(length: nat, max: nat)
    requires length > 0 && max > 0
    ensures TimeOrdered(Often(length, max) + Often(length + 1, max), 0)
    ensures var all := Attempts([], Window(0, 0), length, max, Often(length, max) + Often(length + 1, max));
            |Within(all, length, length)| == 2 * max
  {
    var early, late := Often(length, max), Often(length + 1, max);
    var log := [] + Marks(length, 0, max);
    AllAttempted([], Window(0, 0), length, max, length, max, late);
    RestartedFirst(log, Window(0, max), length, max, late);
    AllAttempted(log, Window(length + 1, 0), length, max, length + 1, max, []);
    assert late + [] == late;
    var all := log + Marks(length + 1, length + 1, max);
    assert Attempts([], Window(0, 0), length, max, early + late) == all;
    assert Within(all, length, length) == Span(0, 2 * max);
  }

  /** The limiter's fields in the device structure. */
  class RecoveryLimiter {
    const length: nat
    const max: nat
    var windowStart: nat
    var countInWindow: nat
    var lastRecovery: nat
    var cooldownUntil: nat

    constructor (length: nat, max: nat, now: nat)
      ensures this.length == length && this.max == max && View() == Window(now, 0)
    {
      this.length, this.max := length, max;
      windowStart, countInWindow, lastRecovery, cooldownUntil := now, 0, 0, 0;
    }

    function View(): Window
      reads this
    {
      Window(windowStart, countInWindow)
    }

    /** `dx_dma_recovery_rate_ok`. */
    method RateOk(now: nat) returns (ok: bool)
      modifies this`windowStart, this`countInWindow
      ensures View() == Roll(old(View()), length, now) && (ok <==> View().count < max)
    {
      if now > windowStart + length {
        windowStart := now;
        countInWindow := 0;
      }
      ok := countInWindow < max;
    }

    /** `dx_dma_recovery_rate_record_attempt`. */
    method RecordAttempt(now: nat)
      modifies this`countInWindow, this`lastRecovery
      ensures View() == Bump(old(View())) && lastRecovery == now
    {
      lastRecovery := now;
      countInWindow := countInWindow + 1;
    }

    /** `dx_dma_recovery_work_fn` up to the reinitialisation; `busy` says, check by check, whether it is blocked. */
    method RecoveryWork(now: nat, busy: bool, linkDown: bool, busyLater: bool, cooldown: nat) returns (attempted: bool)
      modifies this
      ensures busy || linkDown ==> !attempted && View() == old(View()) && cooldownUntil == old(cooldownUntil)
      ensures !busy && !linkDown ==> (View(), attempted) == Ask(old(View()), length, max, Request(now, busyLater))
      ensures var spent := if now > old(windowStart) + length then 0 else old(countInWindow);
              && (attempted <==> !busy && !linkDown && spent < max && !busyLater)
              && cooldownUntil == (if !busy && !linkDown && spent >= max then now + cooldown else old(cooldownUntil))
      ensures lastRecovery == if attempted then now else old(lastRecovery)
    {
      attempted := false;
      if busy || linkDown {
        return;
      }
      var ok := RateOk(now);
      if !ok {
        cooldownUntil := now + cooldown;
        return;
      }
      if busyLater {
        return;
      }
      RecordAttempt(now);
      attempted := true;
    }
  }

  // ---- the permanent-failure guard ----

  /** One failure: the new window, and whether the device is given up. */
  function Failure(w: Window, length: nat, max: nat, now: nat): (Window, bool) {
    var r := Bump(Roll(w, length, now));
    (r, r.count >= max)
  }

  /** A run of failures: those counted, the window, and whether the device was given up, which ends the run. */
  datatype FailRun = FailRun(log: seq<Mark>, w: Window, given: bool)

  function Failures(r: FailRun, length: nat, max: nat, times: seq<nat>): FailRun
    decreases |times|
  {
    if times == [] || r.given then r
    else
      var (w', given) := Failure(r.w, length, max, times[0]);
      Failures(FailRun(r.log + [Mark(times[0], w'.start)], w', given), length, max, times[1..])
  }

  lemma FailureTracks(log: seq<Mark>, w: Window, length: nat, max: nat, now: nat, later: nat)
    requires max > 0 && Tracks(log, length, w, now) && now <= later && Capped(log, max - 1) && w.count < max
    ensures var (w', given) := Failure(w, length, max, later);
            var log' := log + [Mark(later, w'.start)];
            Tracks(log', length, w', later) && (!given ==> Capped(log', max - 1)) && w'.count <= max
            && later <= w'.start + length
  {
    hide Tracks, Capped;
    RollTracks(log, length, w, now, later);
    BumpTracks(log, length, Roll(w, length, later), later, max - 1);
  }

  /** What a run of failures at `times`, the last one at `now`, has established. */
  ghost predicate FailOk(r: FailRun, length: nat, max: nat, now: nat)
    requires max > 0
  {
    && Tracks(r.log, length, r.w, now)
    && (!r.given ==> Capped(r.log, max - 1) && r.w.count < max)
    && (r.given ==> r.w.count >= max)
  }

  lemma {:induction false} FailuresOk(r: FailRun, length: nat, max: nat, now: nat, times: seq<nat>) returns (end: nat)
    requires max > 0 && FailOk(r, length, max, now) && Ordered(times, now)
    ensures FailOk(Failures(r, length, max, times), length, max, end)
    decreases |times|
  {
    hide Tracks, Capped;
    end := now;
    if times != [] && !r.given {
      FailureTracks(r.log, r.w, length, max, now, times[0]);
      var (w', given) := Failure(r.w, length, max, times[0]);
      end := FailuresOk(FailRun(r.log + [Mark(times[0], w'.start)], w', given), length, max, times[0], times[1..]);
    }
  }

  /** Every failure up to the end of the run is counted at its own time. */
  lemma {:induction false} FailureTimes(r: FailRun, length: nat, max: nat, times: seq<nat>)
    ensures var f := Failures(r, length, max, times);
            && |r.log| <= |f.log| <= |r.log| + |times|
            && (!f.given ==> |f.log| == |r.log| + |times|)
            && (forall i :: 0 <= i < |r.log| ==> f.log[i] == r.log[i])
            && (forall i :: |r.log| <= i < |f.log| ==> f.log[i].time == times[i - |r.log|])
    decreases |times|
  {
    if times != [] && !r.given {
      var (w', given) := Failure(r.w, length, max, times[0]);
      FailureTimes(FailRun(r.log + [Mark(times[0], w'.start)], w', given), length, max, times[1..]);
    }
  }

  /**
   The device is given up only at a failure that, with the `max - 1` failures before it, falls within one window length;
   and it is given up at the latest when `2 * max - 1` consecutive failures fall within one window length.
   */
  lemma GivenUpWhen(start: nat, length: nat, max: nat, times: seq<nat>)
    requires max > 0 && Ordered(times, start)
    ensures var f := Failures(FailRun([], Window(start, 0), false), length, max, times);
            var n := |f.log|;
            && n <= |times|
            && (f.given ==> max <= n && times[n - 1] <= times[n - max] + length)
            && (!f.given ==>
                  forall i :: 0 <= i < |times| - 2 * (max - 1) ==> times[i] + length < times[i + 2 * (max - 1)])
  {
    hide Failures, FailOk;
    var r := FailRun([], Window(start, 0), false);
    var f := Failures(r, length, max, times);
    StartOk(start, length, max);
    var end := FailuresOk(r, length, max, start, times);
    FailureTimes(r, length, max, times);
    if f.given {
      LastWithin(f, length, max, end);
    } else {
      forall i | 0 <= i < |times| - 2 * (max - 1) ensures times[i] + length < times[i + 2 * (max - 1)] {
        SpreadOut(f, length, max, end, i);
      }
    }
  }

  lemma StartOk(start: nat, length: nat, max: nat)
    requires max > 0
    ensures FailOk(FailRun([], Window(start, 0), false), length, max, start)
  {
  }

  lemma LastWithin(f: FailRun, length: nat, max: nat, end: nat)
    requires max > 0 && FailOk(f, length, max, end) && f.given
    ensures max <= |f.log| && f.log[|f.log| - 1].time <= f.log[|f.log| - max].time + length
  {
    var n := |f.log|;
    assert f.log[n - 1].win == f.w.start && f.log[n - max].win == f.w.start;
  }

  lemma SpreadOut(f: FailRun, length: nat, max: nat, end: nat, i: nat)
    requires max > 0 && FailOk(f, length, max, end) && !f.given && i + 2 * (max - 1) < |f.log|
    ensures f.log[i].time + length < f.log[i + 2 * (max - 1)].time
  {
    Spread(f.log, length, max - 1, i);
  }
}
