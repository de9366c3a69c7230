/** Resetting the endpoint: function-level reset, escalation to a bus reset, and what is programmed back afterwards. */
module EndpointReset {
  import opened Basics

  datatype Msi = Msi(lo: nat, hi: nat, data: nat)

  const ZERO := Msi(0, 0, 0)

  /** Only an all-zero address is invalid. */
  predicate ValidMsi(m: Msi) {
    m.lo != 0 || m.hi != 0
  }

  /** What the outside answers: capabilities, configuration reads, and the outcome of each reset. */
  datatype Host = Host(
    present: bool, hasFlr: bool,
    viableFirst: bool, viableAfterFailure: bool, viableWhenStuck: bool,   // the bus-reset checks, each made anew
    configMsi: Option<Msi>, kernelMsi: Option<Msi>,
    flrError: int, stuck: bool)

  /** The message programmed after a reset: pre-reset snapshot, then kernel cache, then probe-time cache. */
  function Chosen(h: Host, irqMsi: seq<Msi>): Option<Msi> {
    var snapshot := Snapshot(h, irqMsi);
    if ValidMsi(snapshot) then Some(snapshot)
    else if h.kernelMsi.Some? && ValidMsi(h.kernelMsi.value) then h.kernelMsi
    else if irqMsi != [] && ValidMsi(irqMsi[0]) then Some(irqMsi[0])
    else None
  }

  /** `dx_edma_save_msi_before_reset`. */
  function Snapshot(h: Host, irqMsi: seq<Msi>): Msi {
    if h.configMsi.Some? then h.configMsi.value else if irqMsi != [] then irqMsi[0] else ZERO
  }

  datatype Kind = Flr | Sbr

  /** The sources of a message, in order of preference; for unreadable configuration space the cache stands in. */
  function Sources(h: Host, irqMsi: seq<Msi>): seq<Option<Msi>> {
    var cached := if irqMsi == [] then None else Some(irqMsi[0]);
    [if h.configMsi.Some? then h.configMsi else cached, h.kernelMsi, cached]
  }

  predicate Usable(m: Option<Msi>) {
    m.Some? && ValidMsi(m.value)
  }

  /** The message chosen is the first valid one; none is chosen exactly if no source has one. */
  lemma ChosenIsFirstValid(h: Host, irqMsi: seq<Msi>)
    ensures var all, m := Sources(h, irqMsi), Chosen(h, irqMsi);
            && (m.None? <==> forall k :: 0 <= k < |all| ==> !Usable(all[k]))
            && forall k :: 0 <= k < |all| && Usable(all[k]) && (forall j :: 0 <= j < k ==> !Usable(all[j])) ==>
                 m == all[k]
  {
    var all, m := Sources(h, irqMsi), Chosen(h, irqMsi);
    if m.None? {
      assert !Usable(all[0]) && !Usable(all[1]) && !Usable(all[2]);
    } else {
      assert m == all[0] || m == all[1] || m == all[2];
      forall k | 0 <= k < |all| && Usable(all[k]) && (forall j :: 0 <= j < k ==> !Usable(all[j])) ensures m == all[k] {
        assert k > 0 ==> !Usable(all[0]);
        assert k > 1 ==> !Usable(all[1]);
      }
    }
  }

  class Endpoint {
    var saved: bool              // a saved configuration that has not been restored yet
    var configMsi: Msi           // the message in configuration space
    var irqMsi: seq<Msi>         // per interrupt, as cached by the driver
    var chanMsi: seq<Msi>        // per channel, as cached by the driver
    var imwr: seq<Msi>           // per channel, the completion address in the engine
    ghost var resets: seq<Kind>
    ghost var restores: seq<bool>   // for each restore, whether a saved configuration was there

    constructor (irqs: nat, channels: nat, msi: Msi)
      ensures |irqMsi| == irqs && |chanMsi| == |imwr| == channels && resets == [] && restores == []
    {
      saved, configMsi := false, msi;
      irqMsi, chanMsi, imwr := seq(irqs, _ => msi), seq(channels, _ => msi), seq(channels, _ => msi);
      resets, restores := [], [];
    }

    method SaveState()
      modifies this`saved
      ensures saved
    {
      saved := true;
    }

    method RestoreState()
      modifies this`saved, this`restores
      ensures !saved && restores == old(restores) + [old(saved)]
    {
      restores := restores + [saved];
      saved := false;
    }

    ghost predicate Cleared()
      reads this
    {
      configMsi == ZERO && forall i :: 0 <= i < |imwr| ==> imwr[i] == ZERO
    }

    /** A reset clears the message in configuration space and the completion addresses. */
    method Reset(kind: Kind)
      modifies this`configMsi, this`imwr, this`resets
      ensures resets == old(resets) + [kind] && |imwr| == old(|imwr|) && Cleared()
    {
      configMsi := ZERO;
      imwr := seq(|imwr|, _ => ZERO);
      resets := resets + [kind];
    }

    /** `dx_edma_restore_msi_after_reset`, with the message that was to be restored. */
    method RestoreMsi(h: Host, snapshot: Msi) returns (ret: int, msi: Msi)
      modifies this`configMsi, this`irqMsi, this`chanMsi
      ensures |irqMsi| == old(|irqMsi|) && |chanMsi| == old(|chanMsi|)
      ensures ret == 0 || ret == EIO
      ensures ret == 0 ==> ValidMsi(msi) && configMsi == msi && (forall i :: 0 <= i < |irqMsi| ==> irqMsi[i] == msi)
                           && (forall i :: 0 <= i < |chanMsi| ==> chanMsi[i] == msi)
      ensures ret != 0 ==> irqMsi == old(irqMsi) && chanMsi == old(chanMsi)
      ensures ValidMsi(snapshot) ==> ret == 0 && msi == snapshot
      ensures snapshot == Snapshot(h, old(irqMsi)) ==>
                if Chosen(h, old(irqMsi)).Some? then ret == 0 && msi == Chosen(h, old(irqMsi)).value else ret == EIO
    {
      msi := snapshot;
      if !ValidMsi(msi) {
        if h.kernelMsi.Some? && ValidMsi(h.kernelMsi.value) {
          msi := h.kernelMsi.value;
        }
        if !ValidMsi(msi) && |irqMsi| > 0 && ValidMsi(irqMsi[0]) {
          msi := irqMsi[0];
        }
        if !ValidMsi(msi) {
          return EIO, msi;
        }
      }
      configMsi := msi;
      for i := 0 to |irqMsi|
        invariant configMsi == msi && chanMsi == old(chanMsi)
        invariant |irqMsi| == old(|irqMsi|) && forall k :: 0 <= k < i ==> irqMsi[k] == msi
      {
        irqMsi := irqMsi[i := msi];
      }
      for i := 0 to |chanMsi|
        invariant configMsi == msi && |irqMsi| == old(|irqMsi|) && forall k :: 0 <= k < |irqMsi| ==> irqMsi[k] == msi
        invariant |chanMsi| == old(|chanMsi|) && forall k :: 0 <= k < i ==> chanMsi[k] == msi
      {
        chanMsi := chanMsi[i := msi];
      }
      ret := 0;
    }

    /** The part of `edma_reprogram_hw` that writes every channel's completion address. */
    method Reprogram()
      requires |imwr| == |chanMsi|
      modifies this`imwr
      ensures imwr == chanMsi
    {
      for i := 0 to |chanMsi|
        invariant |imwr| == |chanMsi| && forall k :: 0 <= k < i ==> imwr[k] == chanMsi[k]
      {
        imwr := imwr[i := chanMsi[i]];
      }
    }

    /** What follows a successful reset: restore, reprogram, and save again for next time. */
    method Reinitialise(h: Host, snapshot: Msi) returns (ret: int, msi: Msi)
      requires saved && |imwr| == |chanMsi|
      modifies this`saved, this`restores, this`configMsi, this`irqMsi, this`chanMsi, this`imwr
      ensures restores == old(restores) + [true]
      ensures |irqMsi| == old(|irqMsi|) && |chanMsi| == |imwr| == old(|imwr|)
      ensures ret == 0 || ret == EIO
      ensures ret == 0 ==> saved && ValidMsi(msi) && Programmed(Some(msi))
      ensures ValidMsi(snapshot) ==> ret == 0 && msi == snapshot
      ensures snapshot == Snapshot(h, old(irqMsi)) ==>
                if Chosen(h, old(irqMsi)).Some? then ret == 0 && msi == Chosen(h, old(irqMsi)).value else ret == EIO
    {
      RestoreState();
      ret, msi := RestoreMsi(h, snapshot);
      if ret != 0 {
        return;
      }
      Reprogram();
      SaveState();
    }

    /** Every restore since `from` found a saved configuration. */
    ghost predicate AllLive(from: nat)
      reads this
    {
      from <= |restores| && forall i :: from <= i < |restores| ==> restores[i]
    }

    /** The chosen message is in place everywhere. */
    ghost predicate Programmed(m: Option<Msi>)
      reads this
    {
      m.Some? && ValidMsi(m.value) && saved && configMsi == m.value
      && forall i :: 0 <= i < |imwr| ==> imwr[i] == m.value
    }

    /**
     `dw_edma_v0_core_pcie_reset`.  `made` are its resets: a function-level one where there is that method, and a bus
     reset where there is not, or where the first one failed or left a channel stuck, if the host can do it.  Each is
     followed by one restore of a live saved state, save a failed one with a bus reset after it.  Success means exactly
     that the last reset worked and a valid message was there; it is then the completion address of every channel, and a
     saved configuration is left for next time.
     */
    method PcieReset(h: Host) returns (ret: int, ghost made: seq<Kind>)
      requires |imwr| == |chanMsi|
      modifies this
      ensures resets == old(resets) + made
      ensures made == [] || made == [Flr] || made == [Sbr] || made == [Flr, Sbr]
      ensures made == [] <==> !h.present || (!h.hasFlr && !h.viableFirst)
      ensures made != [] && made[0].Flr? <==> h.present && h.hasFlr
      ensures made == [Flr, Sbr] <==>
                && h.present && h.hasFlr
                && (if h.flrError != 0 then h.viableAfterFailure
                    else h.stuck && h.viableWhenStuck && Chosen(h, old(irqMsi)).Some?)
      ensures ret == 0 <==>
                && made != [] && (made[|made| - 1].Sbr? || (h.flrError == 0 && !h.stuck))
                && Chosen(h, old(irqMsi)).Some?
      ensures ret == 0 || ret == (if h.present && made == [] then ENOTTY
                                  else if made == [Flr] && h.flrError != 0 then h.flrError else EIO)
      ensures AllLive(|old(restores)|)
      ensures |restores| == |old(restores)| + |made| - if |made| == 2 && h.flrError != 0 then 1 else 0
      ensures |imwr| == |chanMsi| == old(|imwr|) && |irqMsi| == old(|irqMsi|)
      ensures ret == 0 ==> Programmed(Chosen(h, old(irqMsi)))
    {
      hide Programmed, ValidMsi, Cleared, Chosen, Snapshot;
      if !h.present {
        return EIO, [];
      }
      made := [];
      var useSbr;
      if h.hasFlr {
        useSbr := false;
      } else if h.viableFirst {
        useSbr := true;
      } else {
        return ENOTTY, [];
      }
      var msi := Snapshot(h, irqMsi);
      SaveState();
      ghost var again := false;
      while true
        invariant saved && |imwr| == |chanMsi| == old(|imwr|) && |irqMsi| == old(|irqMsi|) && AllLive(|old(restores)|)
        invariant useSbr == (again || !h.hasFlr) && resets == old(resets) + made && made == if again then [Flr] else []
        invariant (h.hasFlr || h.viableFirst) && h.present
        invariant |restores| == |old(restores)| + if again && h.flrError == 0 then 1 else 0
        invariant again ==> h.hasFlr && if h.flrError != 0 then h.viableAfterFailure else h.stuck && h.viableWhenStuck
        invariant if again && h.flrError == 0 then ValidMsi(msi) && Chosen(h, old(irqMsi)) == Some(msi)
                  else irqMsi == old(irqMsi) && msi == Snapshot(h, irqMsi)
        decreases !useSbr
      {
        if useSbr {
          Reset(Sbr);
          made := made + [Sbr];
        } else {
          Reset(Flr);
          made := made + [Flr];
          if h.flrError != 0 {
            if h.viableAfterFailure {
              useSbr, again := true, true;
              continue;
            }
            RestoreState();
            return h.flrError, made;
          }
        }
        ret, msi := Reinitialise(h, msi);
        if ret != 0 {
          return;
        }
        if !useSbr && h.stuck {
          if h.viableWhenStuck {
            useSbr, again := true, true;
            continue;
          }
          return EIO, made;
        }
        return 0, made;
      }
    }
  }
}
