/**
 Why copies have to be safe: an unsafe copy of the shadow table makes the engine execute the new chunk before its
 doorbell, and the doorbell makes it execute it again.
 */
module StreamingOverrun {
  import opened Basics
  import opened Copy
  import opened DescriptorTable
  import opened Streaming
  import opened StreamingInvariant
  import opened StreamingFacts
  import opened StreamingSafety
  import opened StreamingTheorems

  // ---- no byte of a copy occurs twice ----

  function DevOf(dir: Dir, m: Move): nat {
    if dir.Write? then m.src else m.dst
  }

  lemma {:induction false} CopyDev(dir: Dir, sgs: seq<Sg>, dev: nat, i: nat)
    requires i < |CopyOf(dir, sgs, dev)|
    ensures DevOf(dir, CopyOf(dir, sgs, dev)[i]) == dev + i
    decreases sgs
  {
    var first := Run(dir, sgs[0].addr, dev, sgs[0].len);
    if i < |first| {
      assert CopyOf(dir, sgs, dev)[i] == first[i] == Pair(dir, sgs[0].addr + i, dev + i);
    } else {
      CopyDev(dir, sgs[1..], dev + sgs[0].len, i - |first|);
    }
  }

  /** A burst executed twice is no part of any copy. */
  lemma TwiceIsNoPrefix(dir: Dir, sgs: seq<Sg>, dev: nat, xs: seq<Burst>, b: Burst)
    requires b.sz > 0
    ensures !Prefix(Denote(xs + [b] + [b]), CopyOf(dir, sgs, dev))
  {
    hide CopyOf, Denote;
    DenoteAppend(xs + [b], [b]);
    DenoteAppend(xs, [b]);
    DenoteOne(b);
    var x, m, all := Denote(xs), Move1(b), CopyOf(dir, sgs, dev);
    var moved := Denote(xs + [b] + [b]);
    assert moved == x + m + m;
    assert moved[|x|] == m[0] && moved[|x| + b.sz] == m[0];
    if Prefix(moved, all) {
      CopyDev(dir, sgs, dev, |x|);
      CopyDev(dir, sgs, dev, |x| + b.sz);
    }
  }

  // ---- the five steps ----

  /** About to copy, under an engine at the end of its chunk, another one with equally many bursts. */
  ghost predicate Endangered(s: State) {
    && s.worker.WPrecopy? && s.shadowChunk.Some? && s.engine.Running? && !CancelSeen(s) && s.launched != []
    && |s.shadowChunk.value.bursts| == |Last(s).bursts|
  }

  /** The engine is about to fetch the first element of the table of `c`. */
  ghost predicate Rerun(cfg: Config, s: State, c: Chunk) {
    s.engine.Running? && s.engine.ccs == c.cb && s.engine.at == 0 && Holds(cfg, s.table, c) && c.bursts != []
  }

  lemma LinkFetched(cfg: Config, s: State)
    requires s.engine.Running? && s.engine.at < |s.table| && s.table[s.engine.at].Llp?
    requires s.table[s.engine.at].cb == s.engine.ccs
    ensures DoFetch(cfg, s) == FetchedLink(cfg, s, s.table[s.engine.at])
  {
    hide FetchedEnd, FetchedBurst, FetchedLink;
  }

  /** The engine is about to fetch the element behind the bursts of `c`, with the opposite change bit. */
  predicate AtEnd(t: State, c: Chunk) {
    t.engine.Running? && t.engine.ccs != c.cb && t.engine.at == |c.bursts| && t.engine.irq
  }

  /** The copy leaves the engine at the new terminator. */
  lemma CopyWrites(cfg: Config, s: State)
    requires Inv(cfg, s) && !s.overrun && Endangered(s)
    ensures HandEnabled(cfg, s, ShadowPrecopy(true, false, s.table))
    ensures var c, t := s.shadowChunk.value, Precopied(s);
            && c.bursts != [] && AtEnd(t, c) && Holds(cfg, t.table, c)
            && t.worker.WLaunch? && t.shadowChunk == s.shadowChunk && !CancelSeen(t) && t.executed == s.executed
  {
    hide Inv, Emit, Holds, CopyTable, Overruns;
    CopyState(cfg, s);
    CopyHolds(cfg, s, s.shadowChunk.value);
    StagedNonEmpty(cfg, s);
  }

  /** Which it takes for a link to the start of the new table. */
  lemma Links(cfg: Config, t: State, c: Chunk)
    requires AtEnd(t, c) && Holds(cfg, t.table, c)
    ensures t.engine.at < |t.table| && DoFetch(cfg, t) == t.(engine := Running(c.cb, 0, true))
  {
    hide Emit, Holds, DoFetch, FetchedLink;
    HoldsAt(cfg, t.table, c, |c.bursts|);
    var e := t.table[t.engine.at];
    assert e == Llp(t.engine.ccs, true, cfg.target);
    LinkFetched(cfg, t);
    LinkState(cfg, t, e, c.cb);
  }

  lemma LinkState(cfg: Config, t: State, e: Elem, cb: bool)
    requires e.Llp? && e.tcb && e.target == cfg.target && t.engine.Running? && t.engine.ccs != cb && t.engine.irq
    ensures FetchedLink(cfg, t, e) == t.(engine := Running(cb, 0, true))
  {
  }

  lemma StagedNonEmpty(cfg: Config, s: State)
    requires Inv(cfg, s) && s.worker.WPrecopy? && s.shadowChunk.Some?
    ensures s.shadowChunk.value.bursts != []
  {
    hide WellFormed, Holds, EngineOk, TurnOk, LazyOk, AccountOk, StopOk, Conserved, OrderOk, CoverOk, ReleaseOk;
    GoodNonEmpty(cfg, s.shadowChunk.value);
  }

  /** One burst executed from the start of a table. */
  lemma FirstBurst(cfg: Config, s: State, c: Chunk)
    requires Rerun(cfg, s, c)
    ensures EngineEnabled(cfg, s, Fetch)
    ensures var t := DoFetch(cfg, s);
            && t.executed == s.executed + [c.bursts[0]] && t.table == s.table
            && t == s.(engine := t.engine, doneBit := t.doneBit, executed := t.executed)
  {
    hide Emit, Holds;
    HoldsAt(cfg, s.table, c, 0);
  }

  /** The doorbell sets the engine to the start of the table again. */
  lemma DoorbellAgain(cfg: Config, s: State, c: Chunk)
    requires s.worker.WLaunch? && s.shadowChunk == Some(c) && !CancelSeen(s) && Holds(cfg, s.table, c) && c.bursts != []
    ensures HandEnabled(cfg, s, ShadowLaunch(true))
    ensures var t := DoShadowLaunch(s, true); Rerun(cfg, t, c) && t.executed == s.executed
  {
    hide Holds;
    if s.hasMore {
      assert DoShadowLaunch(s, true) == LaunchedOne(s);
    } else {
      assert DoShadowLaunch(s, true) == LaunchedLast(s);
    }
  }

  /** The five actions. */
  function Again(s: State): seq<Action> {
    [ByHand(ShadowPrecopy(true, false, s.table)), ByEngine(Fetch), ByEngine(Fetch), ByHand(ShadowLaunch(true)),
     ByEngine(Fetch)]
  }

  lemma Copying(cfg: Config, s: State)
    requires Inv(cfg, s) && !s.overrun && Endangered(s)
    ensures Enabled(cfg, s, Again(s)[0]) && Enabled(cfg, Apply(cfg, s, Again(s)[0]), ByEngine(Fetch))
    ensures var t := Apply(cfg, Apply(cfg, s, Again(s)[0]), ByEngine(Fetch));
            && Rerun(cfg, t, s.shadowChunk.value) && t.executed == s.executed
            && t.worker.WLaunch? && t.shadowChunk == s.shadowChunk && !CancelSeen(t)
  {
    hide Inv, Holds, DoFetch, Precopied;
    CopyWrites(cfg, s);
    Links(cfg, Precopied(s), s.shadowChunk.value);
  }

  lemma Fetching(cfg: Config, s: State, c: Chunk)
    requires Rerun(cfg, s, c)
    ensures Enabled(cfg, s, ByEngine(Fetch))
    ensures var t := Apply(cfg, s, ByEngine(Fetch));
            && t.executed == s.executed + [c.bursts[0]] && Holds(cfg, t.table, c)
            && t.worker == s.worker && t.shadowChunk == s.shadowChunk && CancelSeen(t) == CancelSeen(s)
  {
    hide Holds, DoFetch;
    FirstBurst(cfg, s, c);
  }

  lemma Ringing(cfg: Config, s: State, c: Chunk)
    requires s.worker.WLaunch? && s.shadowChunk == Some(c) && !CancelSeen(s) && Holds(cfg, s.table, c) && c.bursts != []
    ensures Enabled(cfg, s, ByHand(ShadowLaunch(true)))
    ensures var t := Apply(cfg, s, ByHand(ShadowLaunch(true))); Rerun(cfg, t, c) && t.executed == s.executed
  {
    hide Holds, DoShadowLaunch, Rerun;
    DoorbellAgain(cfg, s, c);
  }

  /** A run goes on with an enabled action. */
  lemma Extend(cfg: Config, states: seq<State>, actions: seq<Action>, a: Action)
    requires IsRun(cfg, states, actions) && Enabled(cfg, states[|actions|], a)
    ensures IsRun(cfg, states + [Apply(cfg, states[|actions|], a)], actions + [a])
  {
    hide Init, Enabled, Apply;
  }

  lemma Repeats(cfg: Config, s: State) returns (s1: State, s2: State, s3: State, s4: State, s5: State)
    requires Inv(cfg, s) && !s.overrun && Endangered(s)
    ensures var f := ByEngine(Fetch); var l := ByHand(ShadowLaunch(true));
            && Enabled(cfg, s, Again(s)[0]) && s1 == Apply(cfg, s, Again(s)[0])
            && Enabled(cfg, s1, f) && s2 == Apply(cfg, s1, f)
            && Enabled(cfg, s2, f) && s3 == Apply(cfg, s2, f)
            && Enabled(cfg, s3, l) && s4 == Apply(cfg, s3, l)
            && Enabled(cfg, s4, f) && s5 == Apply(cfg, s4, f)
    ensures var c := s.shadowChunk.value; c.bursts != [] && s5.executed == s.executed + [c.bursts[0]] + [c.bursts[0]]
  {
    hide Inv, Enabled, Apply, Holds;
    var c := s.shadowChunk.value;
    Copying(cfg, s);
    s1 := Apply(cfg, s, Again(s)[0]);
    s2 := Apply(cfg, s1, ByEngine(Fetch));
    Fetching(cfg, s2, c);
    s3 := Apply(cfg, s2, ByEngine(Fetch));
    Ringing(cfg, s3, c);
    s4 := Apply(cfg, s3, ByHand(ShadowLaunch(true)));
    Fetching(cfg, s4, c);
    s5 := Apply(cfg, s4, ByEngine(Fetch));
  }

  /** The five steps, appended to the run. */
  lemma RepeatingRun(cfg: Config, states: seq<State>, actions: seq<Action>) returns (more: seq<State>)
    requires IsRun(cfg, states, actions) && SafeCopies(states, actions, |actions|)
    requires var s := states[|actions|];
             Endangered(s) && (s.shadowChunk.value.bursts != [] ==> s.shadowChunk.value.bursts[0].sz > 0)
    ensures |more| == 5 && IsRun(cfg, states + more, actions + Again(states[|actions|]))
    ensures !Prefix(Denote(more[4].executed), CopyOf(cfg.dir, cfg.sg, cfg.base))
  {
    hide Inv, IsRun, SafeCopies, Enabled, Apply, Denote, CopyOf, Prefix;
    RunLength(cfg, states, actions);
    var n := |actions|;
    var s := states[n];
    RunKeeps(cfg, states, actions, n);
    SafeRun(cfg, states, actions, n);
    var s1, s2, s3, s4, s5 := Repeats(cfg, s);
    more := [s1, s2, s3, s4, s5];
    var a, f, l := Again(s)[0], ByEngine(Fetch), ByHand(ShadowLaunch(true));
    Extend(cfg, states, actions, a);
    Extend(cfg, states + [s1], actions + [a], f);
    Extend(cfg, states + [s1] + [s2], actions + [a] + [f], f);
    Extend(cfg, states + [s1] + [s2] + [s3], actions + [a] + [f] + [f], l);
    Extend(cfg, states + [s1] + [s2] + [s3] + [s4], actions + [a] + [f] + [f] + [l], f);
    assert states + [s1] + [s2] + [s3] + [s4] + [s5] == states + more;
    assert actions + [a] + [f] + [f] + [l] + [f] == actions + Again(s);
    TwiceIsNoPrefix(cfg.dir, cfg.sg, cfg.base, s.executed, s.shadowChunk.value.bursts[0]);
  }

  /**
   The first unsafe copy of any run, unless the transfer is being cancelled, can be followed by five steps after which
   bytes have been moved twice: what was executed is no prefix of the copy the list asks for.
   */
  lemma UnsafeCopyRepeats(cfg: Config, states: seq<State>, actions: seq<Action>)
    requires IsRun(cfg, states, actions) && SafeCopies(states, actions, |actions|)
    requires var s := states[|actions|];
             Endangered(s) && (s.shadowChunk.value.bursts != [] ==> s.shadowChunk.value.bursts[0].sz > 0)
    ensures exists more: seq<State> ::
              && |more| == 5 && IsRun(cfg, states + more, actions + Again(states[|actions|]))
              && !Prefix(Denote(more[4].executed), CopyOf(cfg.dir, cfg.sg, cfg.base))
  {
    hide IsRun, SafeCopies, Endangered, Denote, CopyOf, Prefix;
    var more := RepeatingRun(cfg, states, actions);
  }
}
