/** Leisure and deep power save over the transmit rings (ps.c, pci.c). Power-save code runs under the
    device mutex, the rings and the deep flag under irq_lock; the steps below are what each lock
    makes atomic, so a run is any interleaving of them. */
module DeepPowerSave {
  import TxRing

  const QUEUES := 8
  const BCN_QUEUE := 4
  const H2C_QUEUE := 7

  /** The queues rtw_pci_deep_ps_enter looks at. */
  predicate DataQueue(q: nat) {
    q < QUEUES && q != BCN_QUEUE && q != H2C_QUEUE
  }

  predicate RingQueue(q: nat) {
    q < QUEUES && q != BCN_QUEUE
  }

  /** Where the holder of the device mutex is inside the power-save code. */
  datatype Holder =
    | NoOne
    | EnteringDeep   // rtw_enter_lps after __rtw_enter_lps
    | LeavingLps     // rtw_leave_lps after __rtw_leave_lps_deep
    | LeavingCore    // __rtw_leave_lps after its check of the deep flag

  /** `rpwmDeep` is what the last power-mode request asked for; `branchTaken` records whether the
      clearing branch of __rtw_leave_lps was ever entered. */
  datatype Ps = Ps(
    txWake: bool, deepSupported: bool, lps: bool, deep: bool, rpwmDeep: bool,
    holder: Holder, branchTaken: bool, rings: seq<TxRing.Ring>)

  datatype PsStep =
    | Tx(q: nat, e: TxRing.Event)   // a ring event; KickOff leaves deep power save first
    | EnterLps               // rtw_enter_lps, up to __rtw_enter_lps_deep
    | EnterDeep              // __rtw_enter_lps_deep
    | LeaveLps               // rtw_leave_lps: __rtw_leave_lps_deep
    | LeaveCheck             // __rtw_leave_lps up to rtw_leave_lps_core
    | LeaveCore              // rtw_leave_lps_core
    | LeaveDeepOnly          // rtw_leave_lps_deep
    | WowNoLink              // rtw_wow_enter_no_link_ps (wow.c)

  predicate Enabled(s: Ps, a: PsStep) {
    match a
    case Tx(q, e) => RingQueue(q) && q < |s.rings| && TxRing.Enabled(s.rings[q], e)
    case EnterDeep => s.holder.EnteringDeep?
    case LeaveCheck => s.holder.LeavingLps?
    case LeaveCore => s.holder.LeavingCore?
    case _ => s.holder.NoOne?
  }

  predicate AllDataEmpty(rings: seq<TxRing.Ring>) {
    forall q :: 0 <= q < |rings| && DataQueue(q) ==> rings[q].queue == []
  }

  /** rtw_pci_deep_ps. */
  function DeepPs(s: Ps, enter: bool): Ps {
    if enter && !s.deep then
      if s.txWake || AllDataEmpty(s.rings) then s.(deep := true, rpwmDeep := true) else s
    else if !enter && s.deep then s.(deep := false, rpwmDeep := false)
    else s
  }

  function Next(s: Ps, a: PsStep): Ps
    requires Enabled(s, a)
  {
    match a
    case Tx(q, e) =>
      var t := if e.KickOff? && !s.txWake then DeepPs(s, false) else s;
      t.(rings := s.rings[q := TxRing.Step(s.rings[q], e)])
    case EnterLps => s.(lps := true, holder := EnteringDeep)
    case EnterDeep => (if s.deepSupported && s.lps then DeepPs(s, true) else s).(holder := NoOne)
    case LeaveLps => DeepPs(s, false).(holder := LeavingLps)
    case LeaveCheck =>
      var t := if s.deep then DeepPs(s.(deep := false, branchTaken := true), false) else s;
      t.(holder := if s.lps then LeavingCore else NoOne)
    case LeaveCore => s.(lps := false, holder := NoOne)
    case LeaveDeepOnly => DeepPs(s, false)
    case WowNoLink => s.(deep := true)
  }

  // ----- Safety -----

  /** Every descriptor of a data queue that the doorbell handed over is complete. */
  predicate Quiet(s: Ps) {
    forall q :: 0 <= q < |s.rings| && DataQueue(q) ==> s.rings[q].hwRp == s.rings[q].doorbell
  }

  /** Deep power save is entered only from leisure power save, the firmware was told, and without
      firmware support for waking on transmit nothing is in flight meanwhile. */
  predicate Safe(s: Ps) {
    && (s.deep ==> s.lps)
    && (s.deep <==> s.rpwmDeep)
    && (s.deep && !s.txWake ==> Quiet(s))
  }

  predicate RingsGood(rings: seq<TxRing.Ring>) {
    |rings| == QUEUES && forall q :: 0 <= q < |rings| && RingQueue(q) ==> TxRing.Inv(rings[q])
  }

  predicate PsInv(s: Ps) {
    && RingsGood(s.rings)
    && Safe(s)
    && (s.holder.LeavingLps? || s.holder.LeavingCore? ==> !s.deep)
    && !s.branchTaken
  }

  lemma EmptyIsQuiet(rings: seq<TxRing.Ring>, q: nat)
    requires RingsGood(rings) && AllDataEmpty(rings) && DataQueue(q)
    ensures rings[q].hwRp == rings[q].doorbell
  {
    assert TxRing.Inv(rings[q]) && rings[q].queue == [];
  }

  lemma DeepPsKeeps(s: Ps, enter: bool)
    requires PsInv(s) && (enter ==> s.lps && s.holder.EnteringDeep?)
    ensures PsInv(DeepPs(s, enter))
  {
    var t := DeepPs(s, enter);
    if t.deep && !t.txWake && !s.deep {
      forall q: nat | q < |t.rings| && DataQueue(q)
        ensures t.rings[q].hwRp == t.rings[q].doorbell
      {
        EmptyIsQuiet(t.rings, q);
      }
    }
  }

  /** On a quiet ring no event but the doorbell starts anything. */
  lemma QuietStep(r: TxRing.Ring, e: TxRing.Event)
    requires TxRing.Inv(r) && TxRing.Enabled(r, e) && r.hwRp == r.doorbell && !e.KickOff?
    ensures TxRing.Step(r, e).hwRp == TxRing.Step(r, e).doorbell
  {
  }

  lemma TxKeeps(s: Ps, q: nat, e: TxRing.Event)
    requires PsInv(s) && Enabled(s, Tx(q, e))
    ensures PsInv(Next(s, Tx(q, e)))
  {
    var t := if e.KickOff? && !s.txWake then DeepPs(s, false) else s;
    DeepPsKeeps(s, false);
    TxRing.StepKeeps(s.rings[q], e);
    if t.deep && !t.txWake {
      QuietStepIfData(s, q, e);
    }
    hide TxRing.Inv, TxRing.Step, TxRing.Enabled, DeepPs;
  }

  lemma QuietStepIfData(s: Ps, q: nat, e: TxRing.Event)
    requires RingsGood(s.rings) && Enabled(s, Tx(q, e)) && Quiet(s) && !e.KickOff?
    ensures DataQueue(q) ==> TxRing.Step(s.rings[q], e).hwRp == TxRing.Step(s.rings[q], e).doorbell
  {
    if DataQueue(q) {
      QuietStep(s.rings[q], e);
    }
  }

  lemma StepKeeps(s: Ps, a: PsStep)
    requires PsInv(s) && Enabled(s, a) && !a.WowNoLink?
    ensures PsInv(Next(s, a))
  {
    match a
    case Tx(q, e) => TxKeeps(s, q, e);
    case EnterLps =>
    case EnterDeep => DeepPsKeeps(s, s.lps);
    case LeaveLps => DeepPsKeeps(s, false);
    case LeaveCheck =>
    case LeaveCore =>
    case LeaveDeepOnly => DeepPsKeeps(s, false);
  }

  /** The queues by number: BK, BE, VI, VO, MGMT and HI0 are looked at; H2C has a ring but is not. */
  lemma QueuesAre(q: nat)
    ensures DataQueue(q) <==> q in {0, 1, 2, 3, 5, 6}
    ensures RingQueue(q) <==> DataQueue(q) || q == 7
  {
  }

  /** Of the ring events only a doorbell write without firmware support leaves deep power save. */
  lemma TxLeavesDeepIff(s: Ps, q: nat, e: TxRing.Event)
    requires Safe(s) && Enabled(s, Tx(q, e))
    ensures var t := Next(s, Tx(q, e));
            && t.lps == s.lps && t.holder == s.holder && t.deep == t.rpwmDeep
            && (t.deep <==> s.deep && (s.txWake || !e.KickOff?))
  {
  }

  /** Entering is possible to its end, and then deep power save is on exactly when it was before, or it
      is supported and either firmware wakes on transmit or all of those queues are empty. */
  lemma EnterCompletes(s: Ps)
    requires PsInv(s) && s.holder.NoOne?
    ensures Enabled(s, EnterLps) && Enabled(Next(s, EnterLps), EnterDeep)
    ensures var t := Next(Next(s, EnterLps), EnterDeep);
            var empty := forall q <- [0, 1, 2, 3, 5, 6] :: s.rings[q].queue == [];
            && t.holder.NoOne? && t.lps && t.rings == s.rings && t.deep == t.rpwmDeep
            && (t.deep <==> s.deep || (s.deepSupported && (s.txWake || empty)))
  {
    assert AllDataEmpty(s.rings) <==> forall q <- [0, 1, 2, 3, 5, 6] :: s.rings[q].queue == [];
  }

  /** Leaving is possible to its end too, and ends with everything off and firmware told. */
  lemma LeaveCompletes(s: Ps)
    requires PsInv(s) && s.holder.NoOne?
    ensures Enabled(s, LeaveLps) && Enabled(Next(s, LeaveLps), LeaveCheck)
    ensures var t := Next(Next(s, LeaveLps), LeaveCheck);
            && t.rings == s.rings && (s.lps <==> Enabled(t, LeaveCore))
            && var u := if s.lps then Next(t, LeaveCore) else t;
               u.holder.NoOne? && !u.lps && !u.deep && !u.rpwmDeep && u.rings == s.rings
  {
  }

  /** Wake-on-WLAN without a link sets the deep flag by itself: that is safe exactly when the flag
      was set already. */
  lemma WowNoLinkSafeIff(s: Ps)
    requires PsInv(s) && Enabled(s, WowNoLink)
    ensures Safe(Next(s, WowNoLink)) <==> s.deep
  {
  }

  /** Right after power-on, say: deep without leisure power save, and without a word to the firmware. */
  lemma WowNoLinkFromBoot(txWake: bool, deepSupported: bool, rings: seq<TxRing.Ring>)
    requires RingsGood(rings)
    ensures var s := Boot(txWake, deepSupported, rings);
            PsInv(s) && Enabled(s, WowNoLink)
            && var t := Next(s, WowNoLink); t.deep && !t.lps && !t.rpwmDeep && !Safe(t)
  {
  }

  predicate Runs(s: Ps, steps: seq<PsStep>)
    decreases |steps|
  {
    steps == [] || (Enabled(s, steps[0]) && Runs(Next(s, steps[0]), steps[1..]))
  }

  function After(s: Ps, steps: seq<PsStep>): Ps
    requires Runs(s, steps)
    decreases |steps|
  {
    if steps == [] then s else After(Next(s, steps[0]), steps[1..])
  }

  predicate NoWow(steps: seq<PsStep>) {
    forall k :: 0 <= k < |steps| ==> !steps[k].WowNoLink?
  }

  lemma {:induction false} RunKeeps(s: Ps, steps: seq<PsStep>)
    requires PsInv(s) && Runs(s, steps) && NoWow(steps)
    ensures PsInv(After(s, steps))
    decreases |steps|
  {
    if steps != [] {
      StepKeeps(s, steps[0]);
      RunKeeps(Next(s, steps[0]), steps[1..]);
    }
  }

  function Boot(txWake: bool, deepSupported: bool, rings: seq<TxRing.Ring>): Ps {
    Ps(txWake, deepSupported, false, false, false, NoOne, false, rings)
  }

  /** Over every run from power-on that does not enter wake-on-WLAN without a link. */
  lemma DeepPowerSaveSafety(txWake: bool, deepSupported: bool, rings: seq<TxRing.Ring>, steps: seq<PsStep>)
    requires RingsGood(rings) && Runs(Boot(txWake, deepSupported, rings), steps) && NoWow(steps)
    ensures Safe(After(Boot(txWake, deepSupported, rings), steps))
  {
    RunKeeps(Boot(txWake, deepSupported, rings), steps);
  }

  /** rtw_leave_lps always clears the deep flag before it is checked, whatever set it. */
  predicate LeavesClean(s: Ps) {
    (s.holder.LeavingLps? || s.holder.LeavingCore? ==> !s.deep) && !s.branchTaken
  }

  lemma {:induction false} ClearingBranchNeverTaken(s: Ps, steps: seq<PsStep>)
    requires LeavesClean(s) && Runs(s, steps)
    ensures LeavesClean(After(s, steps))
    decreases |steps|
  {
    if steps != [] {
      ClearingBranchNeverTaken(Next(s, steps[0]), steps[1..]);
    }
  }

  // ----- The power-save code as the driver runs it, updated in place -----

  class PowerSave {
    const txWake: bool
    const deepSupported: bool
    var lps: bool
    var deep: bool
    var rpwmDeep: bool
    var rings: seq<TxRing.Ring>
    ghost var branchTaken: bool

    constructor (txWake: bool, deepSupported: bool, rings: seq<TxRing.Ring>)
      requires RingsGood(rings)
      ensures State(NoOne) == Boot(txWake, deepSupported, rings) && PsInv(State(NoOne))
    {
      this.txWake, this.deepSupported, this.rings := txWake, deepSupported, rings;
      lps, deep, rpwmDeep, branchTaken := false, false, false, false;
    }

    ghost function State(holder: Holder): Ps
      reads this
    {
      Ps(txWake, deepSupported, lps, deep, rpwmDeep, holder, branchTaken, rings)
    }

    /** rtw_pci_deep_ps, with the scan of the queues in rtw_pci_deep_ps_enter. */
    method PciDeepPs(enter: bool)
      requires |rings| == QUEUES
      modifies this`deep, this`rpwmDeep
      ensures State(NoOne) == DeepPs(old(State(NoOne)), enter)
    {
      if enter && !deep {
        var txEmpty := true;
        if !txWake {
          for q := 0 to QUEUES
            invariant txEmpty <==> forall k :: 0 <= k < q && DataQueue(k) ==> rings[k].queue == []
          {
            if q == BCN_QUEUE || q == H2C_QUEUE {
              continue;
            }
            if |rings[q].queue| != 0 {
              txEmpty := false;
              break;
            }
          }
        }
        if txEmpty {
          deep, rpwmDeep := true, true;
        }
      } else if !enter && deep {
        deep, rpwmDeep := false, false;
      }
    }

    /** rtw_pci_tx_kick_off_queue: on return the doorbell shows everything queued, and without
        firmware support the device is not in deep power save. */
    method KickOffQueue(q: nat)
      requires PsInv(State(NoOne)) && RingQueue(q)
      modifies this`deep, this`rpwmDeep, this`rings
      ensures State(NoOne) == Next(old(State(NoOne)), Tx(q, TxRing.KickOff)) && PsInv(State(NoOne))
      ensures (!txWake ==> !deep) && rings[q].doorbell == rings[q].wp
    {
      TxKeeps(State(NoOne), q, TxRing.KickOff);
      if !txWake {
        PciDeepPs(false);
      }
      rings := rings[q := TxRing.Step(rings[q], TxRing.KickOff)];
    }

    /** rtw_enter_lps without interference: nothing while coexistence keeps power save off; else deep
        power save follows when it is supported and the transmit path allows it. */
    method Enter(wlForceLpsCtrl: bool)
      requires PsInv(State(NoOne))
      modifies this`lps, this`deep, this`rpwmDeep
      ensures PsInv(State(NoOne))
      ensures wlForceLpsCtrl ==> State(NoOne) == old(State(NoOne))
      ensures !wlForceLpsCtrl ==> lps && (deep <==> old(deep) || (deepSupported && (txWake || AllDataEmpty(rings))))
      ensures !wlForceLpsCtrl ==> State(NoOne) == Next(Next(old(State(NoOne)), EnterLps), EnterDeep)
    {
      if wlForceLpsCtrl {
        return;
      }
      ghost var s := State(NoOne);
      StepKeeps(s, EnterLps);
      StepKeeps(Next(s, EnterLps), EnterDeep);
      hide PsInv;
      if !lps {
        lps := true;
      }
      if deepSupported {
        PciDeepPs(true);
      }
    }

    /** __rtw_leave_lps: a deep flag that is still set is cleared without telling the firmware. */
    method LeaveChecked()
      requires |rings| == QUEUES
      modifies this`lps, this`deep, this`rpwmDeep, this`branchTaken
      ensures !lps && !deep && rpwmDeep == old(rpwmDeep)
      ensures branchTaken <==> old(branchTaken) || old(deep)
    {
      if deep {
        deep, branchTaken := false, true;
        PciDeepPs(false);
      }
      if !lps {
        return;
      }
      lps := false;
    }

    /** rtw_leave_lps without interference: the firmware has been told and the branch is not taken. */
    method Leave()
      requires PsInv(State(NoOne))
      modifies this`lps, this`deep, this`rpwmDeep, this`branchTaken
      ensures PsInv(State(NoOne)) && !lps && !deep && !rpwmDeep && !branchTaken
      ensures old(lps) ==> State(NoOne) == Next(Next(Next(old(State(NoOne)), LeaveLps), LeaveCheck), LeaveCore)
      ensures !old(lps) ==> State(NoOne) == Next(Next(old(State(NoOne)), LeaveLps), LeaveCheck)
    {
      PciDeepPs(false);
      LeaveChecked();
    }
  }
}
