/**
 Runtime recovery of one device: link events and firmware-reboot kicks interleaved with the readiness worker.
 A handler is one step; the worker moves by one re-check, with the commit that follows it, at a time.
 */
module Recovery {
  import opened Basics
  import opened RateWindow

  datatype DevState = Ready | Recovering | TransportOk | FwHang | PermFail

  datatype Reason = LinkFlap | CpuReset | FwUpdate | FwUpdateLegacy

  /** Where the readiness worker is; `e` is the epoch it started with. */
  datatype Pc =
    | Resting
    | Begun(e: nat)
    | Settling(e: nat)                  // legacy firmware: fixed wait
    | AwaitDrop(e: nat) | AwaitReturn(e: nat)
    | AwaitReady(e: nat)
    | PingStart(e: nat) | PingLocked(e: nat, q: nat) | Polling(e: nat, q: nat) | Replied(e: nat, q: nat)
    | Pinged(e: nat, q: nat, ok: bool)
    | Publishing(e: nat, q: nat)

  /** What happened since the worker's current pass began. */
  datatype Event =
    | Bumped | Chose(reason: Reason, mapped: bool) | Sample(ready: bool) | Elapsed | Sent(q: nat) | Pong(q: nat)

  datatype Params = Params(window: nat, maxRetries: nat)

  datatype State = State(
    dev: DevState, reason: Reason, recovering: bool, epoch: nat, mapped: bool, queued: bool, pc: Pc,
    seqGen: nat, permWindow: Window, now: nat, count: nat, failCount: nat,
    pass: seq<Event>, chosen: Reason, onMap: bool, failures: seq<nat>)   // history

  datatype Action =
    | LinkDown | LinkUp(mapped: bool) | Kick(reason: Reason) | OtherPing | Clock(now: nat)
    | Begin | Choose
    | Settle(elapsed: bool) | WatchDrop(ready: bool, expired: bool) | WatchReturn(ready: bool, expired: bool)
    | WatchReady(ready: bool)
    | StartPing(hasMsg: bool) | SendPing | Poll(ack: nat, expired: bool) | Reply(sizeOk: bool, magicOk: bool, q: nat)
    | EndPing
    | Publish

  function Log(s: State, e: Event): State {
    s.(pass := s.pass + [e])
  }

  // ---- handlers ----

  /** The epoch guard's start of a recovery. */
  function Restart(s: State, reason: Reason): State {
    Log(s.(dev := Recovering, reason := reason, recovering := true, epoch := s.epoch + 1, queued := false), Bumped)
  }

  function DoLinkDown(s: State): State {
    if s.dev.PermFail? then s else Restart(s, LinkFlap)
  }

  function DoLinkUp(s: State, mapped: bool): State {
    if s.dev.PermFail? then s else s.(mapped := mapped, dev := TransportOk, queued := true)
  }

  function DoKick(s: State, reason: Reason): State {
    if s.dev.PermFail? then s else Restart(s, reason).(dev := TransportOk, queued := true)
  }

  // ---- the worker ----

  predicate Changed(s: State) {
    s.pc.Resting? || s.epoch != s.pc.e || !s.dev.TransportOk?
  }

  /** The firmware is declared hung, and the device given up when this happens too often. */
  function Hang(p: Params, s: State): State {
    var (w, given) := Failure(s.permWindow, p.window, p.maxRetries, s.now);
    s.(pc := Resting, recovering := false, permWindow := w, dev := if given then PermFail else FwHang,
       failures := s.failures + [s.now])
  }

  function Quit(s: State): State {
    s.(pc := Resting)
  }

  function DoBegin(s: State): State {
    if s.dev.TransportOk? then s.(queued := false, pc := Begun(s.epoch), pass := [])
    else s.(queued := false)
  }

  function DoChoose(s: State): State
    requires s.pc.Begun?
  {
    var e := s.pc.e;
    Log(s, Chose(s.reason, s.mapped)).(chosen := s.reason, onMap := s.mapped,
      pc := if !s.mapped then PingStart(e)
            else match s.reason
              case FwUpdateLegacy => Settling(e)
              case CpuReset => AwaitDrop(e)
              case FwUpdate => AwaitDrop(e)
              case LinkFlap => AwaitReady(e))
  }

  function DoWatchDrop(p: Params, s: State, ready: bool, expired: bool): State
    requires s.pc.AwaitDrop?
  {
    if Changed(s) then Quit(s)
    else if !ready then Log(s, Sample(false)).(pc := AwaitReturn(s.pc.e))
    else if expired then Hang(p, s)
    else s
  }

  function DoWatchReturn(p: Params, s: State, ready: bool, expired: bool): State
    requires s.pc.AwaitReturn?
  {
    if Changed(s) then Quit(s)
    else if ready then Log(s, Sample(true)).(pc := PingStart(s.pc.e))
    else if expired then Hang(p, s)
    else s
  }

  function DoWatchReady(p: Params, s: State, ready: bool): State
    requires s.pc.AwaitReady?
  {
    if Changed(s) then Quit(s)
    else if !ready then Hang(p, s)
    else Log(s, Sample(true)).(pc := PingStart(s.pc.e))
  }

  function NextSeq(s: State): nat {
    (s.seqGen + 1) % WORD
  }

  function DoStartPing(s: State, hasMsg: bool): State
    requires s.pc.PingStart?
  {
    if !hasMsg || Changed(s) then s.(pc := Pinged(s.pc.e, 0, false))
    else s.(seqGen := NextSeq(s), pc := PingLocked(s.pc.e, NextSeq(s)))
  }

  function DoSendPing(s: State): State
    requires s.pc.PingLocked?
  {
    if Changed(s) then s.(pc := Pinged(s.pc.e, s.pc.q, false))
    else Log(s, Sent(s.pc.q)).(pc := Polling(s.pc.e, s.pc.q))
  }

  function DoPoll(s: State, ack: nat, expired: bool): State
    requires s.pc.Polling?
  {
    s.(pc := if expired || Changed(s) || ack == WORD - 1 then Pinged(s.pc.e, s.pc.q, false)
             else if ack == 1 then Replied(s.pc.e, s.pc.q)
             else s.pc)
  }

  function DoReply(s: State, sizeOk: bool, magicOk: bool, q: nat): State
    requires s.pc.Replied?
  {
    if sizeOk && magicOk then Log(s, Pong(q)).(pc := Pinged(s.pc.e, s.pc.q, q == s.pc.q))
    else s.(pc := Pinged(s.pc.e, s.pc.q, false))
  }

  function DoEndPing(p: Params, s: State): State
    requires s.pc.Pinged?
  {
    if Changed(s) then Quit(s)
    else if !s.pc.ok then Hang(p, s.(failCount := s.failCount + 1))
    else s.(pc := Publishing(s.pc.e, s.pc.q))
  }

  function DoPublish(s: State): State
    requires s.pc.Publishing?
  {
    if Changed(s) then Quit(s)
    else s.(pc := Resting, count := s.count + 1, recovering := false, dev := Ready)
  }

  predicate Enabled(s: State, a: Action) {
    match a
    case LinkDown => true
    case LinkUp(_) => true
    case Kick(reason) => !reason.LinkFlap?
    case OtherPing => true
    case Clock(now) => s.now <= now
    case Begin => s.queued && s.pc.Resting?
    case Choose => s.pc.Begun?
    case Settle(_) => s.pc.Settling?
    case WatchDrop(_, _) => s.pc.AwaitDrop?
    case WatchReturn(_, _) => s.pc.AwaitReturn?
    case WatchReady(_) => s.pc.AwaitReady?
    case StartPing(_) => s.pc.PingStart?
    case SendPing => s.pc.PingLocked?
    case Poll(_, _) => s.pc.Polling?
    case Reply(_, _, _) => s.pc.Replied?
    case EndPing => s.pc.Pinged?
    case Publish => s.pc.Publishing?
  }

  function Apply(p: Params, s: State, a: Action): State
    requires Enabled(s, a)
  {
    match a
    case LinkDown => DoLinkDown(s)
    case LinkUp(mapped) => DoLinkUp(s, mapped)
    case Kick(reason) => DoKick(s, reason)
    case OtherPing => s.(seqGen := NextSeq(s))
    case Clock(now) => s.(now := now)
    case Begin => DoBegin(s)
    case Choose => DoChoose(s)
    case Settle(elapsed) =>
      if Changed(s) then Quit(s) else if elapsed then Log(s, Elapsed).(pc := Publishing(s.pc.e, 0)) else s
    case WatchDrop(ready, expired) => DoWatchDrop(p, s, ready, expired)
    case WatchReturn(ready, expired) => DoWatchReturn(p, s, ready, expired)
    case WatchReady(ready) => DoWatchReady(p, s, ready)
    case StartPing(hasMsg) => DoStartPing(s, hasMsg)
    case SendPing => DoSendPing(s)
    case Poll(ack, expired) => DoPoll(s, ack, expired)
    case Reply(sizeOk, magicOk, q) => DoReply(s, sizeOk, magicOk, q)
    case EndPing => DoEndPing(p, s)
    case Publish => DoPublish(s)
  }

  predicate Init(s: State) {
    s.dev.Ready? && !s.recovering && !s.queued && s.pc.Resting? && s.permWindow == Window(s.now, 0) && s.pass == []
    && s.failures == []
  }

  predicate IsRun(p: Params, states: seq<State>, actions: seq<Action>) {
    && |states| == |actions| + 1 && Init(states[0])
    && forall i :: 0 <= i < |actions| ==>
         Enabled(states[i], actions[i]) && states[i + 1] == Apply(p, states[i], actions[i])
  }

  // ---- what a pass has to show for itself ----

  /** `xs`, in this order, among `pass`, possibly with other events in between. */
  predicate InOrder(pass: seq<Event>, xs: seq<Event>)
    decreases |pass|
  {
    xs == [] || (pass != [] && (if pass[0] == xs[0] then InOrder(pass[1..], xs[1..]) else InOrder(pass[1..], xs)))
  }

  lemma {:induction false} InOrderMore(pass: seq<Event>, xs: seq<Event>, e: Event)
    requires InOrder(pass, xs)
    ensures InOrder(pass + [e], xs) && InOrder(pass + [e], xs + [e])
    decreases |pass|
  {
    if pass == [] {
      assert [e][1..] == [] && xs == [];
      assert InOrder([], []);
    } else {
      assert (pass + [e])[1..] == pass[1..] + [e];
      if xs == [] {
        InOrderMore(pass[1..], [], e);
      } else if pass[0] == xs[0] {
        assert (xs + [e])[1..] == xs[1..] + [e];
        InOrderMore(pass[1..], xs[1..], e);
      } else {
        InOrderMore(pass[1..], xs, e);
      }
    }
  }

  /** What a pass that read `reason` must have seen before it pings. */
  function Before(reason: Reason, mapped: bool): seq<Event> {
    [Chose(reason, mapped)]
    + (if !mapped then [] else match reason
         case FwUpdateLegacy => [Elapsed]
         case LinkFlap => [Sample(true)]
         case _ => [Sample(false), Sample(true)])
  }

  /** What it must have seen before it publishes; `q` is its own sequence number. */
  function Proof(reason: Reason, mapped: bool, q: nat): seq<Event> {
    Before(reason, mapped) + (if mapped && reason.FwUpdateLegacy? then [] else [Sent(q), Pong(q)])
  }

  /** What it has seen so far. */
  function Shown(s: State): seq<Event> {
    match s.pc
    case AwaitReturn(_) => [Chose(s.chosen, s.onMap), Sample(false)]
    case PingStart(_) => Before(s.chosen, s.onMap)
    case PingLocked(_, _) => Before(s.chosen, s.onMap)
    case Polling(_, q) => Before(s.chosen, s.onMap) + [Sent(q)]
    case Replied(_, q) => Before(s.chosen, s.onMap) + [Sent(q)]
    case Pinged(_, q, ok) => if ok then Proof(s.chosen, s.onMap, q) else []
    case Publishing(_, q) => Proof(s.chosen, s.onMap, q)
    case _ => if s.pc.Resting? || s.pc.Begun? then [] else [Chose(s.chosen, s.onMap)]
  }

  /** The pc fits what was chosen. */
  predicate Branch(s: State) {
    match s.pc
    case Settling(_) => s.onMap && s.chosen.FwUpdateLegacy?
    case AwaitDrop(_) => s.onMap && (s.chosen.CpuReset? || s.chosen.FwUpdate?)
    case AwaitReturn(_) => s.onMap && (s.chosen.CpuReset? || s.chosen.FwUpdate?)
    case AwaitReady(_) => s.onMap && s.chosen.LinkFlap?
    case _ => s.pc.Resting? || s.pc.Begun? || s.pc.Publishing? || !(s.onMap && s.chosen.FwUpdateLegacy?)
  }

  predicate PassOk(s: State) {
    && Branch(s)
    && InOrder(s.pass, Shown(s))
    && (!s.pc.Resting? ==> s.pc.e <= s.epoch && (s.epoch == s.pc.e <==> Bumped !in s.pass))
    && (!s.pc.Resting? && !s.pc.Begun? && s.epoch == s.pc.e ==> s.reason == s.chosen)
    && (s.dev.Ready? || s.dev.FwHang? || s.dev.PermFail? ==> !s.recovering)
  }

  lemma LogShows(s: State, e: Event)
    requires InOrder(s.pass, Shown(s))
    ensures InOrder(s.pass + [e], Shown(s)) && InOrder(s.pass + [e], Shown(s) + [e])
  {
    InOrderMore(s.pass, Shown(s), e);
  }

  lemma HandlerKeepsPass(p: Params, s: State, a: Action)
    requires PassOk(s) && (a.LinkDown? || a.LinkUp? || a.Kick? || a.OtherPing? || a.Clock?) && Enabled(s, a)
    ensures PassOk(Apply(p, s, a))
  {
    hide InOrder;
    LogShows(s, Bumped);
  }

  lemma WaitKeepsPass(p: Params, s: State, a: Action)
    requires PassOk(s) && Enabled(s, a)
    requires a.Begin? || a.Choose? || a.Settle? || a.WatchDrop? || a.WatchReturn? || a.WatchReady?
    ensures PassOk(Apply(p, s, a))
  {
    hide InOrder;
    var t := Apply(p, s, a);
    InOrderNil(t.pass);
    var c := Chose(s.chosen, s.onMap);
    match a
    case Begin =>
    case Choose =>
      LogShows(s, Chose(s.reason, s.mapped));
      assert Shown(t) == [] + [Chose(s.reason, s.mapped)];
    case Settle(_) =>
      LogShows(s, Elapsed);
      assert Proof(s.chosen, s.onMap, 0) == [c] + [Elapsed];
    case WatchDrop(_, _) =>
      LogShows(s, Sample(false));
      assert [c] + [Sample(false)] == [c, Sample(false)];
    case WatchReturn(_, _) =>
      LogShows(s, Sample(true));
      assert [c, Sample(false)] + [Sample(true)] == Before(s.chosen, s.onMap);
    case WatchReady(_) =>
      LogShows(s, Sample(true));
      assert [c] + [Sample(true)] == Before(s.chosen, s.onMap);
  }

  lemma InOrderNil(pass: seq<Event>)
    ensures InOrder(pass, [])
  {
  }

  lemma PingKeepsPass(p: Params, s: State, a: Action)
    requires PassOk(s) && Enabled(s, a) && (a.StartPing? || a.Poll?)
    ensures PassOk(Apply(p, s, a))
  {
    hide InOrder, Before, NextSeq;
    InOrderNil(s.pass);
  }

  lemma SendKeepsPass(p: Params, s: State)
    requires PassOk(s) && s.pc.PingLocked?
    ensures PassOk(DoSendPing(s))
  {
    hide InOrder, Before;
    InOrderNil(s.pass);
    LogShows(s, Sent(s.pc.q));
  }

  lemma ReplyKeepsPass(p: Params, s: State, sizeOk: bool, magicOk: bool, q: nat)
    requires PassOk(s) && s.pc.Replied?
    ensures PassOk(DoReply(s, sizeOk, magicOk, q))
  {
    hide InOrder, Before;
    LogShows(s, Pong(q));
    InOrderNil(s.pass);
    InOrderNil(s.pass + [Pong(q)]);
    var b := Before(s.chosen, s.onMap);
    assert (b + [Sent(s.pc.q)]) + [Pong(q)] == b + [Sent(s.pc.q), Pong(q)];
  }

  lemma PongKeepsPass(p: Params, s: State, a: Action)
    requires PassOk(s) && Enabled(s, a) && (a.EndPing? || a.Publish?)
    ensures PassOk(Apply(p, s, a))
  {
    hide InOrder, Before;
    InOrderNil(s.pass);
  }

  lemma StepKeepsPass(p: Params, s: State, a: Action)
    requires PassOk(s) && Enabled(s, a)
    ensures PassOk(Apply(p, s, a))
  {
    hide PassOk, Restart, DoLinkUp, DoBegin, DoChoose, DoWatchDrop, DoWatchReturn, DoWatchReady, DoStartPing,
         DoSendPing, DoPoll, DoReply, DoEndPing, DoPublish;
    match a
    case LinkDown => HandlerKeepsPass(p, s, a);
    case LinkUp(_) => HandlerKeepsPass(p, s, a);
    case Kick(_) => HandlerKeepsPass(p, s, a);
    case OtherPing => HandlerKeepsPass(p, s, a);
    case Clock(_) => HandlerKeepsPass(p, s, a);
    case StartPing(_) => PingKeepsPass(p, s, a);
    case SendPing => SendKeepsPass(p, s);
    case Poll(_, _) => PingKeepsPass(p, s, a);
    case Reply(sizeOk, magicOk, q) => ReplyKeepsPass(p, s, sizeOk, magicOk, q);
    case EndPing => PongKeepsPass(p, s, a);
    case Publish => PongKeepsPass(p, s, a);
    case _ => WaitKeepsPass(p, s, a);
  }

  lemma {:induction false} RunKeepsPass(p: Params, states: seq<State>, actions: seq<Action>, i: nat)
    requires IsRun(p, states, actions) && i < |states|
    ensures PassOk(states[i])
  {
    hide Apply, Enabled;
    if i == 0 {
      InOrderNil([]);
    } else {
      RunKeepsPass(p, states, actions, i - 1);
      StepKeepsPass(p, states[i - 1], actions[i - 1]);
    }
  }

  lemma OnlyPublishMakesReady(p: Params, s: State, a: Action)
    requires Enabled(s, a) && !s.dev.Ready? && Apply(p, s, a).dev.Ready?
    ensures a.Publish? && s.pc.Publishing? && s.epoch == s.pc.e
  {
    hide Apply, Enabled;
    StepFails(p, s, a);
    PublishReady(p, s, a);
  }

  lemma PublishReady(p: Params, s: State, a: Action)
    requires Enabled(s, a) && a.Publish?
    ensures s.pc.Publishing? && (s.dev.Ready? || !Apply(p, s, a).dev.Ready? || s.epoch == s.pc.e)
  {
  }

  /**
   READY is published only by a pass during which the epoch never moved and which has seen, in this order: for a
   processor reset or firmware update with the boot block mapped, the mailbox not ready and then ready again; for legacy
   firmware with the block mapped, the settling time elapsed; and otherwise the reply to its own ping, under its own
   sequence number.
   */
  lemma ReadyIsProven(p: Params, states: seq<State>, actions: seq<Action>, i: nat)
    requires IsRun(p, states, actions) && i < |actions|
    requires !states[i].dev.Ready? && states[i + 1].dev.Ready?
    ensures var s := states[i];
            && s.pc.Publishing? && s.epoch == s.pc.e && Bumped !in s.pass
            && InOrder(s.pass, Proof(s.reason, s.onMap, s.pc.q))
            && !states[i + 1].recovering
  {
    hide InOrder, Apply, Enabled;
    RunKeepsPass(p, states, actions, i);
    RunKeepsPass(p, states, actions, i + 1);
    OnlyPublishMakesReady(p, states[i], actions[i]);
  }

  // ---- every restart is answered ----

  /** A link loss or a firmware reboot, both of which start recovery anew. */
  predicate Restarts(a: Action) {
    a.LinkDown? || a.Kick?
  }

  /** The reason recorded for it. */
  function ReasonOf(a: Action): Reason
    requires Restarts(a)
  {
    if a.Kick? then a.reason else LinkFlap
  }

  /** What the handlers do, and that nothing else moves epoch, reason or mapping. */
  predicate Handled(s: State, a: Action, t: State) {
    && (s.dev.PermFail? && (Restarts(a) || a.LinkUp?) ==> t == s)
    && (!s.dev.PermFail? && Restarts(a) ==>
          && t.epoch == s.epoch + 1 && t.reason == ReasonOf(a) && t.recovering && t.mapped == s.mapped
          && t.dev == (if a.Kick? then TransportOk else Recovering) && t.queued == a.Kick?)
    && (!s.dev.PermFail? && a.LinkUp? ==>
          && t.epoch == s.epoch && t.reason == s.reason && t.recovering == s.recovering && t.mapped == a.mapped
          && t.dev.TransportOk? && t.queued)
    && (!Restarts(a) && !a.LinkUp? ==> t.epoch == s.epoch && t.reason == s.reason && t.mapped == s.mapped)
    && (Restarts(a) || a.LinkUp? || a.OtherPing? || a.Clock? ==> t.pc == s.pc)
    && (a.Begin? ==> !t.queued && t.pc == if s.dev.TransportOk? then Begun(s.epoch) else s.pc)
  }

  /** A pass goes on with the epoch it began with, begins only by `Begin` and ends only at rest. */
  predicate SamePass(s: State, a: Action, t: State) {
    && (s.pc.Resting? && !t.pc.Resting? ==> a.Begin? && t.pc.e == s.epoch)
    && (!s.pc.Resting? && !t.pc.Resting? ==> t.pc.e == s.pc.e && !a.Begin?)
  }

  lemma StepHandles(p: Params, s: State, a: Action)
    requires Enabled(s, a)
    ensures Handled(s, a, Apply(p, s, a)) && SamePass(s, a, Apply(p, s, a))
  {
    hide Failure, NextSeq, Apply, Enabled, Handled, SamePass;
    match a
    case WatchDrop(_, _) => WatchHandles(p, s, a);
    case WatchReturn(_, _) => WatchHandles(p, s, a);
    case WatchReady(_) => WatchHandles(p, s, a);
    case EndPing => PingHandles(p, s, a);
    case Settle(_) => WatchHandles(p, s, a);
    case StartPing(_) => PingHandles(p, s, a);
    case SendPing => PingHandles(p, s, a);
    case Poll(_, _) => PingHandles(p, s, a);
    case Reply(_, _, _) => PingHandles(p, s, a);
    case Publish => PingHandles(p, s, a);
    case _ => HandlerHandles(p, s, a);
  }

  lemma WatchHandles(p: Params, s: State, a: Action)
    requires Enabled(s, a) && (a.WatchDrop? || a.WatchReturn? || a.WatchReady? || a.Settle?)
    ensures Handled(s, a, Apply(p, s, a)) && SamePass(s, a, Apply(p, s, a))
  {
    hide Failure;
  }

  lemma PingHandles(p: Params, s: State, a: Action)
    requires Enabled(s, a) && (a.StartPing? || a.SendPing? || a.Poll? || a.Reply? || a.EndPing? || a.Publish?)
    ensures Handled(s, a, Apply(p, s, a)) && SamePass(s, a, Apply(p, s, a))
  {
    hide Failure, NextSeq;
  }

  lemma HandlerHandles(p: Params, s: State, a: Action)
    requires Enabled(s, a) && (a.LinkDown? || a.LinkUp? || a.Kick? || a.Begin? || a.Choose? || a.OtherPing? || a.Clock?)
    ensures Handled(s, a, Apply(p, s, a)) && SamePass(s, a, Apply(p, s, a))
  {
    hide Failure, NextSeq;
  }

  /**
   In every run, a link loss or firmware reboot outside PERM_FAIL starts a new epoch, records its own reason, closes the
   gate and makes the device anything but READY; in PERM_FAIL it changes nothing; and nothing else moves the epoch.
   */
  lemma RestartTakesEffect(p: Params, states: seq<State>, actions: seq<Action>, i: nat)
    requires IsRun(p, states, actions) && i < |actions|
    ensures var s, a, t := states[i], actions[i], states[i + 1];
            && (Restarts(a) && !s.dev.PermFail? ==>
                  t.epoch == s.epoch + 1 && t.recovering && !t.dev.Ready? && t.reason == ReasonOf(a))
            && (a.LinkUp? && !s.dev.PermFail? ==>
                t.dev.TransportOk? && t.queued && t.mapped == a.mapped && t.epoch == s.epoch)
            && ((Restarts(a) || a.LinkUp?) && s.dev.PermFail? ==> t == s)
            && (!Restarts(a) ==> t.epoch == s.epoch && t.reason == s.reason)
  {
    hide Apply, Enabled;
    StepHandles(p, states[i], actions[i]);
  }

  lemma {:induction false} EpochGrows(p: Params, states: seq<State>, actions: seq<Action>, i: nat, j: nat)
    requires IsRun(p, states, actions) && i <= j < |states|
    ensures states[i].epoch <= states[j].epoch
    ensures (forall x :: i <= x < j ==> !Restarts(actions[x])) ==> states[j].reason == states[i].reason
    decreases j - i
  {
    hide Apply, Enabled;
    if i < j {
      EpochGrows(p, states, actions, i, j - 1);
      StepHandles(p, states[j - 1], actions[j - 1]);
    }
  }

  /** The pass a worker is in began at `k`, with the epoch it carries, and has gone on since. */
  lemma {:induction false} PassBegan(p: Params, states: seq<State>, actions: seq<Action>, m: nat) returns (k: nat)
    requires IsRun(p, states, actions) && m < |states| && !states[m].pc.Resting?
    ensures k < m && actions[k].Begin? && states[k].epoch == states[m].pc.e
    ensures forall x :: k < x <= m ==> !states[x].pc.Resting?
  {
    hide Apply, Enabled;
    StepHandles(p, states[m - 1], actions[m - 1]);
    if states[m - 1].pc.Resting? {
      k := m - 1;
    } else {
      k := PassBegan(p, states, actions, m - 1);
    }
  }

  lemma {:induction false} BecomesReady(states: seq<State>, i: nat, j: nat) returns (m: nat)
    requires i < j < |states| && !states[i].dev.Ready? && states[j].dev.Ready?
    ensures i <= m < j && !states[m].dev.Ready? && states[m + 1].dev.Ready?
    decreases j - i
  {
    if states[i + 1].dev.Ready? { m := i; } else { m := BecomesReady(states, i + 1, j); }
  }

  /**
   In every run, once a link loss or firmware reboot has been noted, the device is READY again only through a pass that
   began after it, ran through to its publication, and saw no other restart; and if there was no other in between, that
   pass has shown what the reason given with the event calls for.
   */
  lemma RestartIsAnswered(p: Params, states: seq<State>, actions: seq<Action>, i: nat, j: nat) returns (k: nat, m: nat)
    requires IsRun(p, states, actions) && i < j < |states| && Restarts(actions[i]) && !states[i].dev.PermFail?
    requires states[j].dev.Ready?
    ensures i < k < m < j && actions[k].Begin? && actions[m].Publish? && states[m + 1].dev.Ready?
    ensures (forall x :: k < x <= m ==> !states[x].pc.Resting?) && Bumped !in states[m].pass && states[m].pc.Publishing?
    ensures states[i].epoch < states[k].epoch == states[m].epoch
    ensures (forall x :: i < x < m ==> !Restarts(actions[x])) ==>
              InOrder(states[m].pass, Proof(ReasonOf(actions[i]), states[m].onMap, states[m].pc.q))
  {
    hide Apply, Enabled, InOrder;
    RestartTakesEffect(p, states, actions, i);
    m := BecomesReady(states, i + 1, j);
    ReadyIsProven(p, states, actions, m);
    OnlyPublishMakesReady(p, states[m], actions[m]);
    k := PassBegan(p, states, actions, m);
    EpochGrows(p, states, actions, i + 1, m);
    if k <= i { EpochGrows(p, states, actions, k, i); }
    EpochGrows(p, states, actions, k, m);
  }

  // ---- how a pass ends ----

  /** The step finds out that the pass has failed: out of time, not ready, or no valid reply to the ping. */
  predicate FailsIn(s: State, a: Action) {
    || (s.pc.AwaitDrop? && a.WatchDrop? && a.ready && a.expired)
    || (s.pc.AwaitReturn? && a.WatchReturn? && !a.ready && a.expired)
    || (s.pc.AwaitReady? && a.WatchReady? && !a.ready)
    || (s.pc.Pinged? && a.EndPing? && !s.pc.ok)
  }

  /** The step probes as it must: an acknowledgement in time, then a reply of the right kind with the own number. */
  predicate ProbesWell(s: State, a: Action, t: State) {
    && (t.pc.Replied? && !s.pc.Replied? ==> s.pc.Polling? && a.Poll? && a.ack == 1 && !a.expired)
    && (s.pc.Polling? && a.Poll? && (a.expired || a.ack == WORD - 1) ==> t.pc == Pinged(s.pc.e, s.pc.q, false))
    && (t.pc.Pinged? && !s.pc.Pinged? && t.pc.ok ==> a.Reply? && a.sizeOk && a.magicOk && a.q == t.pc.q)
    && (s.pc.Replied? && a.Reply? ==> t.pc == Pinged(s.pc.e, s.pc.q, a.sizeOk && a.magicOk && a.q == s.pc.q))
  }

  /** The step ends its pass as it must. */
  predicate EndsWell(s: State, a: Action, t: State) {
    && (!s.pc.Resting? && t.pc.Resting? ==>
          || ((s.epoch != s.pc.e || !s.dev.TransportOk?) && t == s.(pc := Resting))
          || (a.Publish? && t.dev.Ready? && !t.recovering && t.count == s.count + 1 && t.failures == s.failures)
          || (FailsIn(s, a) && t.failures == s.failures + [s.now] && !t.recovering
              && (t.dev.FwHang? || t.dev.PermFail?)))
    && (!s.pc.Resting? && s.epoch == s.pc.e && s.dev.TransportOk? && (FailsIn(s, a) || a.Publish?) && Enabled(s, a) ==>
          t.pc.Resting? && (a.Publish? <==> t.dev.Ready?))
    && (t.failures == s.failures || FailsIn(s, a))
    && ProbesWell(s, a, t)
  }

  lemma WatchEndsWell(p: Params, s: State, a: Action)
    requires Enabled(s, a) && (a.WatchDrop? || a.WatchReturn? || a.WatchReady? || a.Settle?)
    ensures EndsWell(s, a, Apply(p, s, a))
  {
    hide Failure;
  }

  lemma PingEndsWell(p: Params, s: State, a: Action)
    requires Enabled(s, a) && (a.StartPing? || a.SendPing? || a.Poll? || a.Reply? || a.EndPing? || a.Publish?)
    ensures EndsWell(s, a, Apply(p, s, a))
  {
    hide Failure, NextSeq;
  }

  lemma HandlerEndsWell(p: Params, s: State, a: Action)
    requires Enabled(s, a) && (a.LinkDown? || a.LinkUp? || a.Kick? || a.Begin? || a.Choose? || a.OtherPing? || a.Clock?)
    ensures EndsWell(s, a, Apply(p, s, a))
  {
    hide Failure, NextSeq;
  }

  /**
   In every run, a pass ends only because recovery was restarted under it, by publishing READY, or by a counted failure
   that makes the device FW_HANG or PERM_FAIL; and if recovery was not restarted, one that times out, finds the mailbox
   not ready or gets no valid reply does fail, and one that is about to publish does publish.  A reply counts only after
   an acknowledgement in time, with the right size and magic and the pass's own number.
   */
  lemma PassEndsWell(p: Params, states: seq<State>, actions: seq<Action>, i: nat)
    requires IsRun(p, states, actions) && i < |actions|
    ensures EndsWell(states[i], actions[i], states[i + 1])
  {
    hide Apply, Enabled, EndsWell;
    var s, a := states[i], actions[i];
    match a
    case WatchDrop(_, _) => WatchEndsWell(p, s, a);
    case WatchReturn(_, _) => WatchEndsWell(p, s, a);
    case WatchReady(_) => WatchEndsWell(p, s, a);
    case Settle(_) => WatchEndsWell(p, s, a);
    case StartPing(_) => PingEndsWell(p, s, a);
    case SendPing => PingEndsWell(p, s, a);
    case Poll(_, _) => PingEndsWell(p, s, a);
    case Reply(_, _, _) => PingEndsWell(p, s, a);
    case EndPing => PingEndsWell(p, s, a);
    case Publish => PingEndsWell(p, s, a);
    case _ => HandlerEndsWell(p, s, a);
  }

  // ---- permanent failure ----

  /** A step that is not a failure. */
  predicate NoFailure(s: State, t: State) {
    t.failures == s.failures && t.permWindow == s.permWindow && (t.dev.PermFail? <==> s.dev.PermFail?) && s.now <= t.now
  }

  /** A step that is one: it happens only in state TRANSPORT_OK, is counted, and decides about PERM_FAIL. */
  predicate OneFailure(p: Params, s: State, t: State) {
    && s.dev.TransportOk? && t.failures == s.failures + [s.now] && t.now == s.now
    && (t.permWindow, t.dev.PermFail?) == Failure(s.permWindow, p.window, p.maxRetries, s.now)
  }

  /** Every step is one or the other, and only `Publish` makes the device ready. */
  predicate Stepped(p: Params, s: State, a: Action, t: State) {
    && (NoFailure(s, t) || OneFailure(p, s, t))
    && (t.dev.Ready? ==> s.dev.Ready? || a.Publish?)
  }

  lemma StepFails(p: Params, s: State, a: Action)
    requires Enabled(s, a)
    ensures Stepped(p, s, a, Apply(p, s, a))
  {
    hide Failure, NextSeq, Apply, Enabled, Stepped;
    match a
    case WatchDrop(_, _) => WatchStep(p, s, a);
    case WatchReturn(_, _) => WatchStep(p, s, a);
    case WatchReady(_) => CheckStep(p, s, a);
    case EndPing => CheckStep(p, s, a);
    case Settle(_) => PingStep(p, s, a);
    case StartPing(_) => PingStep(p, s, a);
    case SendPing => PingStep(p, s, a);
    case Poll(_, _) => PollStep(p, s, a);
    case Reply(_, _, _) => PollStep(p, s, a);
    case Publish => PollStep(p, s, a);
    case _ => HandlerStep(p, s, a);
  }

  lemma WatchStep(p: Params, s: State, a: Action)
    requires Enabled(s, a) && (a.WatchDrop? || a.WatchReturn?)
    ensures Stepped(p, s, a, Apply(p, s, a))
  {
    hide Failure;
  }

  lemma CheckStep(p: Params, s: State, a: Action)
    requires Enabled(s, a) && (a.WatchReady? || a.EndPing?)
    ensures Stepped(p, s, a, Apply(p, s, a))
  {
    hide Failure;
  }

  lemma HandlerStep(p: Params, s: State, a: Action)
    requires Enabled(s, a) && (a.LinkDown? || a.LinkUp? || a.Kick? || a.Begin? || a.Choose? || a.OtherPing? || a.Clock?)
    ensures Stepped(p, s, a, Apply(p, s, a))
  {
    hide Failure, NextSeq;
  }

  lemma PingStep(p: Params, s: State, a: Action)
    requires Enabled(s, a) && (a.Settle? || a.StartPing? || a.SendPing?)
    ensures Stepped(p, s, a, Apply(p, s, a))
  {
    hide Failure, NextSeq;
  }

  lemma PollStep(p: Params, s: State, a: Action)
    requires Enabled(s, a) && (a.Poll? || a.Reply? || a.Publish?)
    ensures Stepped(p, s, a, Apply(p, s, a))
  {
    hide Failure;
  }

  /** The failures so far, as the guard counts them from the start of the run. */
  function Counted(p: Params, start: nat, failures: seq<nat>): FailRun {
    Failures(FailRun([], Window(start, 0), false), p.window, p.maxRetries, failures)
  }

  predicate CountsFailures(p: Params, start: nat, s: State) {
    && start <= s.now && Ordered(s.failures, start) && (forall i :: 0 <= i < |s.failures| ==> s.failures[i] <= s.now)
    && Counted(p, start, s.failures).w == s.permWindow && |Counted(p, start, s.failures).log| == |s.failures|
    && (Counted(p, start, s.failures).given <==> s.dev.PermFail?)
  }

  lemma {:induction false} FailuresSnoc(r: FailRun, length: nat, max: nat, times: seq<nat>, t: nat)
    requires !Failures(r, length, max, times).given
    ensures var f := Failures(r, length, max, times); var g := Failures(r, length, max, times + [t]);
            (g.w, g.given) == Failure(f.w, length, max, t) && |g.log| == |f.log| + 1
    decreases |times|
  {
    if times == [] {
      assert [t][1..] == [];
      assert times + [t] == [t];
    } else {
      var (w', given) := Failure(r.w, length, max, times[0]);
      assert (times + [t])[1..] == times[1..] + [t];
      if !r.given { FailuresSnoc(FailRun(r.log + [Mark(times[0], w'.start)], w', given), length, max, times[1..], t); }
    }
  }

  lemma StepKeepsFail(p: Params, start: nat, s: State, a: Action)
    requires CountsFailures(p, start, s) && Enabled(s, a)
    ensures CountsFailures(p, start, Apply(p, s, a))
  {
    hide Apply, Enabled, Failures, Failure;
    StepFails(p, s, a);
    if !s.dev.PermFail? {
      FailuresSnoc(FailRun([], Window(start, 0), false), p.window, p.maxRetries, s.failures, s.now);
    }
  }

  lemma {:induction false} RunKeepsFail(p: Params, states: seq<State>, actions: seq<Action>, i: nat)
    requires IsRun(p, states, actions) && i < |states|
    ensures CountsFailures(p, states[0].now, states[i])
  {
    hide Apply, Enabled;
    if i > 0 {
      RunKeepsFail(p, states, actions, i - 1);
      StepKeepsFail(p, states[0].now, states[i - 1], actions[i - 1]);
    }
  }

  /**
   In every reachable state, PERM_FAIL means that the last `maxRetries` failures fall within one window length, and
   any other state means that no `2 * maxRetries - 1` consecutive failures do.
   */
  lemma PermFailWhen(p: Params, states: seq<State>, actions: seq<Action>, i: nat)
    requires IsRun(p, states, actions) && i < |states| && p.maxRetries > 0
    ensures var f, n, m := states[i].failures, |states[i].failures|, p.maxRetries;
            && (states[i].dev.PermFail? ==> m <= n && f[n - 1] <= f[n - m] + p.window)
            && (!states[i].dev.PermFail? ==>
                  forall k :: 0 <= k < n - 2 * (m - 1) ==> f[k] + p.window < f[k + 2 * (m - 1)])
  {
    hide IsRun, Failures;
    RunKeepsFail(p, states, actions, i);
    GivenUpWhen(states[0].now, p.window, p.maxRetries, states[i].failures);
  }

  lemma StepKeepsPermFail(p: Params, s: State, a: Action)
    requires Enabled(s, a) && s.dev.PermFail?
    ensures Apply(p, s, a).dev.PermFail?
  {
    hide Apply, Failure, Enabled;
    StepFails(p, s, a);
  }

  /** PERM_FAIL is left by no link event, kick or readiness pass. */
  lemma {:induction false} PermFailIsForever(p: Params, states: seq<State>, actions: seq<Action>, i: nat, j: nat)
    requires IsRun(p, states, actions) && i <= j < |states| && states[i].dev.PermFail?
    ensures states[j].dev.PermFail?
    decreases j - i
  {
    hide Apply, Enabled;
    if i < j {
      PermFailIsForever(p, states, actions, i, j - 1);
      StepKeepsPermFail(p, states[j - 1], actions[j - 1]);
    }
  }

  // ---- the handlers as they update the device structure ----

  class Device {
    const params: Params
    var dev: DevState
    var reason: Reason
    var recovering: bool
    var epoch: nat
    var mapped: bool
    var queued: bool
    var permStart: nat
    var permCount: nat

    constructor (params: Params, now: nat)
      ensures dev.Ready? && !recovering && !queued && permStart == now && permCount == 0
    {
      this.params := params;
      dev, reason, recovering, epoch, mapped, queued := Ready, LinkFlap, false, 0, false, false;
      permStart, permCount := now, 0;
    }

    /** The fields agree with a state of the protocol. */
    ghost predicate Is(s: State)
      reads this
    {
      && s.dev == dev && s.reason == reason && s.recovering == recovering && s.epoch == epoch && s.mapped == mapped
      && s.queued == queued
      && s.permWindow == Window(permStart, permCount)
    }

    /** The epoch guard's start of a recovery, shared by the handlers. */
    method StartRecovery(r: Reason, ghost s: State)
      requires Is(s)
      modifies this`dev, this`reason, this`recovering, this`epoch, this`queued
      ensures Is(Restart(s, r))
    {
      dev := Recovering;
      reason := r;
      recovering := true;
      epoch := epoch + 1;
      queued := false;
    }

    /** `dxrt_link_event_notify`, link down. */
    method LinkDown(ghost s: State)
      requires Is(s)
      modifies this
      ensures Is(DoLinkDown(s))
      ensures if old(dev).PermFail? then Is(s)
              else dev.Recovering? && reason.LinkFlap? && recovering && epoch == old(epoch) + 1 && !queued
    {
      if dev.PermFail? {
        return;
      }
      StartRecovery(LinkFlap, s);
    }

    /** `dxrt_link_event_notify`, link up, after the resources were bound again. */
    method LinkUp(isMapped: bool, ghost s: State)
      requires Is(s)
      modifies this
      ensures Is(DoLinkUp(s, isMapped))
      ensures if old(dev).PermFail? then Is(s)
              else dev.TransportOk? && mapped == isMapped && queued && epoch == old(epoch) && reason == old(reason)
    {
      if dev.PermFail? {
        return;
      }
      mapped := isMapped;
      dev := TransportOk;
      queued := true;
    }

    /** `dxrt_kick_fw_reboot_recovery`. */
    method Kick(r: Reason, ghost s: State)
      requires Is(s)
      modifies this
      ensures Is(DoKick(s, r))
      ensures if old(dev).PermFail? then Is(s)
              else dev.TransportOk? && reason == r && recovering && epoch == old(epoch) + 1 && queued
    {
      if dev.PermFail? {
        return;
      }
      StartRecovery(r, s);
      dev := TransportOk;
      queued := true;
    }

    /** `perm_fail_check`. */
    method PermFailCheck(now: nat) returns (given: bool)
      modifies this`permStart, this`permCount, this`dev
      ensures (Window(permStart, permCount), given)
              == Failure(old(Window(permStart, permCount)), params.window, params.maxRetries, now)
      ensures dev == if given then PermFail else old(dev)
    {
      if now > permStart + params.window {
        permStart := now;
        permCount := 0;
      }
      permCount := permCount + 1;
      given := permCount >= params.maxRetries;
      if given {
        dev := PermFail;
      }
    }

    /** The exit of the readiness worker that declares the firmware hung. */
    method HangExit(now: nat, ghost s: State)
      requires Is(s) && s.now == now
      modifies this
      ensures Is(Hang(params, s))
    {
      dev := FwHang;
      recovering := false;
      var _ := PermFailCheck(now);
    }
  }
}
