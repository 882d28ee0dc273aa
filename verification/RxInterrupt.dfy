/** Receive interrupts (pci.c): the hard handler, the threaded handler, the NAPI poller and its
    tail, start and stop, and a device that fills the ring and latches ROK. Every interleaving is a
    sequence of steps; the result is that no received frame is left without someone to read it.
    Of the device it is assumed that a status is latched while it is masked, and that a latched,
    unmasked status keeps the interrupt asserted. */
module RxInterrupt {

  /** A received frame; `counted` is false for a firmware message and for a frame dropped because no
      buffer could be allocated, which rtw_pci_rx_napi reads without counting. */
  datatype Frame = Frame(id: nat, counted: bool)

  /** Where rtw_pci_stop and rtw_pci_start are: `running` cleared, handlers waited for, NAPI disabled,
      rings released, NAPI enabled again. */
  datatype Phase = Running | Stopping | Synced | NapiOff | Stopped | Starting

  /** The threaded handler: asleep, past rtw_pci_irq_recognized with what it saw, or done serving. */
  datatype Thread = Asleep | Recognized(rx: bool, tx: bool) | Served(rx: bool)

  /** The poll function up to napi_complete_done. NAPI's SCHED bit is set in every state but Idle. */
  datatype Napi = Idle | Scheduled | Looping(work: nat) | Reading(work: nat, count: nat) | Completing

  /** The receive ring: what the driver has read up to, what the device has filled up to, and the
      frames in between; `delivered` and `arrived` are the history since the last release. */
  datatype Ring = Ring(len: nat, rp: nat, hwWp: nat, pending: seq<Frame>, delivered: seq<Frame>, arrived: seq<Frame>)

  /** `tailEnable` and `tailCheck` count the poll functions that are past napi_complete_done and
      about to re-enable interrupts, or to look at the ring once more. `rxDue` is a frame written
      whose interrupt status is not latched yet. `txDone` stands for completed, unretired frames. */
  datatype Nic = Nic(
    phase: Phase, irqEnabled: bool, rokUnmasked: bool,
    rok: bool, txLatch: bool, rxDue: bool, txDone: bool,
    woken: bool, thread: Thread, napi: Napi, tailEnable: nat, tailCheck: nat,
    budget: nat, ring: Ring)

  datatype Step =
    | RxWrite(frame: Frame)   // the device fills the next ring entry
    | RxLatch                 // the device latches ROK
    | TxFinish                // the device finishes frames and latches a transmit status
    | HardIrq                 // rtw_pci_interrupt_handler, raised by the device
    | SharedIrq               // the same, raised by another device on the line
    | ThreadRecognize         // rtw_pci_irq_recognized, with the lock taken
    | ThreadServe             // the transmit handlers and napi_schedule
    | ThreadFinish            // re-enable and release the lock
    | PollStart
    | PollCount               // rtw_pci_get_hw_rx_ring_nr, cut to what is left of the budget
    | PollRead                // the rest of rtw_pci_rx_napi
    | PollComplete            // napi_complete_done
    | TailEnable              // rtw_pci_enable_interrupt, under the lock
    | TailCheck               // the last look at the ring
    | Stop
    | SyncIrq                 // synchronize_irq returns
    | NapiDisable             // napi_disable returns
    | Release                 // rtw_pci_dma_release, with the lock taken
    | NapiEnable              // rtw_pci_napi_start
    | Start                   // the locked part of rtw_pci_start

  function Dist(a: nat, b: nat, len: nat): int {
    if b >= a then b - a else len - (a - b)
  }

  /** rtw_pci_get_hw_rx_ring_nr. */
  function HwCount(s: Nic): nat {
    var d := Dist(s.ring.rp, s.ring.hwWp, s.ring.len);
    if d < 0 then 0 else d
  }

  function Wrap(i: nat, len: nat): nat {
    if i < len then i else i - len
  }

  function CountedIn(frames: seq<Frame>): (n: nat)
    ensures n <= |frames|
  {
    if frames == [] then 0 else (if frames[0].counted then 1 else 0) + CountedIn(frames[1..])
  }

  /** A device interrupt is raised by a status bit that is not masked. */
  predicate Asserted(s: Nic) {
    s.irqEnabled && (s.txLatch || (s.rok && s.rokUnmasked))
  }

  predicate Enabled(s: Nic, e: Step) {
    match e
    case RxWrite(_) => Dist(s.ring.rp, s.ring.hwWp, s.ring.len) + 1 < s.ring.len
    case RxLatch => s.rxDue
    case TxFinish => true
    case HardIrq => Asserted(s)
    case SharedIrq => true
    case ThreadRecognize => s.woken && s.thread.Asleep?
    case ThreadServe => s.thread.Recognized?
    case ThreadFinish => s.thread.Served?
    case PollStart => s.napi.Scheduled?
    case PollCount => s.napi.Looping? && s.napi.work < s.budget
    case PollRead => s.napi.Reading? && s.napi.count <= |s.ring.pending|
    case PollComplete => s.napi.Completing?
    case TailEnable => s.tailEnable > 0 && s.thread.Asleep?
    case TailCheck => s.tailCheck > 0
    case Stop => s.phase.Running? && s.thread.Asleep?
    case SyncIrq => s.phase.Stopping? && !s.woken && s.thread.Asleep?
    case NapiDisable => s.phase.Synced? && s.napi.Idle?
    case Release => s.phase.NapiOff? && s.thread.Asleep?
    case NapiEnable => s.phase.Stopped?
    case Start => s.phase.Starting? && s.thread.Asleep?
  }

  predicate NapiDisabled(p: Phase) {
    p.NapiOff? || p.Stopped?
  }

  /** napi_schedule: nothing when NAPI is scheduled or polling already, nor while it is disabled. */
  function Schedule(s: Nic): Nic {
    if s.napi.Idle? && !NapiDisabled(s.phase) then s.(napi := Scheduled) else s
  }

  function EnableInterrupt(s: Nic, excludeRx: bool): Nic {
    s.(irqEnabled := true, rokUnmasked := !excludeRx)
  }

  function DisableInterrupt(s: Nic): Nic {
    if s.irqEnabled then s.(irqEnabled := false, rokUnmasked := false) else s
  }

  function Min(a: nat, b: nat): nat {
    if a < b then a else b
  }

  function EmptyRing(len: nat): Ring {
    Ring(len, 0, 0, [], [], [])
  }

  function Arrive(r: Ring, f: Frame): Ring
    requires Dist(r.rp, r.hwWp, r.len) + 1 < r.len
  {
    r.(hwWp := Wrap(r.hwWp + 1, r.len), pending := r.pending + [f], arrived := r.arrived + [f])
  }

  function Read(r: Ring, count: nat): Ring
    requires count <= |r.pending|
  {
    r.(rp := Wrap(r.rp + count, r.len), delivered := r.delivered + r.pending[..count], pending := r.pending[count..])
  }

  function Next(s: Nic, e: Step): Nic
    requires Enabled(s, e)
  {
    match e
    case RxWrite(f) => s.(ring := Arrive(s.ring, f), rxDue := true)
    case RxLatch => s.(rok := true, rxDue := false)
    case TxFinish => s.(txDone := true, txLatch := true)
    case HardIrq => DisableInterrupt(s).(woken := true)
    case SharedIrq => DisableInterrupt(s).(woken := true)
    case ThreadRecognize => s.(woken := false, thread := Recognized(s.rok, s.txLatch), rok := false, txLatch := false)
    case ThreadServe =>
      var t := s.(thread := Served(s.thread.rx), txDone := s.txDone && !s.thread.tx);
      if s.thread.rx then Schedule(t) else t
    case ThreadFinish =>
      var t := if s.phase.Running? then EnableInterrupt(s, s.thread.rx) else s;
      t.(thread := Asleep)
    case PollStart => s.(napi := Looping(0))
    case PollCount =>
      s.(napi := Reading(s.napi.work, Min(HwCount(s), s.budget - s.napi.work)))
    case PollRead =>
      var count := s.napi.count;
      var once := CountedIn(s.ring.pending[..count]);
      var work := s.napi.work + once;
      var t := s.(ring := Read(s.ring, count));
      t.(napi := if once == 0 then Completing else if work < s.budget then Looping(work) else Scheduled)
    case PollComplete => s.(napi := Idle, tailEnable := s.tailEnable + 1)
    case TailEnable =>
      var t := if s.phase.Running? then EnableInterrupt(s, false) else s;
      t.(tailEnable := s.tailEnable - 1, tailCheck := s.tailCheck + 1)
    case TailCheck =>
      var t := s.(tailCheck := s.tailCheck - 1);
      if HwCount(s) != 0 then Schedule(t) else t
    case Stop => DisableInterrupt(s).(phase := Stopping)
    case SyncIrq => s.(phase := Synced)
    case NapiDisable => s.(phase := NapiOff)
    case Release => s.(phase := Stopped, txDone := false, ring := EmptyRing(s.ring.len))
    case NapiEnable => s.(phase := Starting)
    case Start => EnableInterrupt(s, false).(phase := Running)
  }

  // ----- The invariant -----

  /** The indices delimit exactly the unread frames; together with the delivered ones, in order,
      they are all that arrived. */
  predicate GoodRing(r: Ring) {
    && 1 < r.len && r.rp < r.len && r.hwWp < r.len
    && |r.pending| == Dist(r.rp, r.hwWp, r.len)
    && r.arrived == r.delivered + r.pending
  }

  predicate RingInv(s: Nic) {
    && GoodRing(s.ring) && 0 < s.budget
    && (s.napi.Looping? ==> s.napi.work < s.budget)
    && (s.napi.Reading? ==>
          s.napi.work < s.budget && s.napi.work + s.napi.count <= s.budget && s.napi.count <= |s.ring.pending|)
  }

  /** Someone is going to read the ring without another interrupt. */
  predicate PollerDue(s: Nic) {
    !s.napi.Idle? || s.tailEnable > 0 || s.tailCheck > 0
  }

  /** Someone is going to unmask ROK: a poll still before its re-enable, or a handler thread. */
  predicate UnmaskDue(s: Nic) {
    !s.napi.Idle? || s.tailEnable > 0 || s.woken || !s.thread.Asleep?
  }

  predicate IrqInv(s: Nic) {
    && (s.rokUnmasked ==> s.irqEnabled)
    && (!s.phase.Running? ==> !s.irqEnabled)
    && (s.phase.Running? && !s.irqEnabled ==> s.woken || !s.thread.Asleep?)
    && (s.phase.Running? && !s.rokUnmasked ==> UnmaskDue(s))
    && (s.phase.Running? && s.thread == Served(true) ==> !s.napi.Idle? || s.tailEnable > 0)
  }

  /** From the release to the next stop the frames in the ring are to be read. */
  predicate Live(p: Phase) {
    p.Stopped? || p.Starting? || p.Running?
  }

  /** An unread frame is known to somebody: its status is latched or about to be, a thread has seen
      the status, or, once NAPI is enabled, a poller is due. */
  predicate FrameInv(s: Nic) {
    && (Live(s.phase) && s.ring.pending != [] ==>
          s.rxDue || s.rok || (s.thread.Recognized? && s.thread.rx) || (!s.phase.Stopped? && PollerDue(s)))
    && (Live(s.phase) && s.txDone ==> s.txLatch || (s.thread.Recognized? && s.thread.tx))
    && (NapiDisabled(s.phase) ==> s.napi.Idle?)
  }

  predicate Inv(s: Nic) {
    RingInv(s) && IrqInv(s) && FrameInv(s)
  }

  /** The one step that loses frames: a handler woken by another device after synchronize_irq serves
      a receive status when the rings are released and NAPI is still disabled. */
  predicate Legal(s: Nic, e: Step) {
    Enabled(s, e) && !(e.ThreadServe? && s.phase.Stopped? && s.thread.rx)
  }

  lemma StepKeepsRing(s: Nic, e: Step)
    requires RingInv(s) && Enabled(s, e) && (NapiDisabled(s.phase) ==> s.napi.Idle?)
    ensures RingInv(Next(s, e))
  {
    if e.RxWrite? {
      ArriveKeeps(s.ring, e.frame);
    } else if PollStep(e) {
      PollLeavesRing(s, e);
    } else if e.Release? {
      EmptyIsGood(s.ring);
    } else if DeviceStep(e) {
      DeviceLeavesRing(s, e);
    } else if ThreadStep(e) {
      ThreadLeavesRing(s, e);
    } else if TailStep(e) {
      TailLeavesRing(s, e);
    } else {
      OthersLeaveRing(s, e);
    }
    hide GoodRing, Dist, HwCount, CountedIn, Asserted, Schedule, EnableInterrupt, DisableInterrupt;
  }

  lemma PollLeavesRing(s: Nic, e: Step)
    requires RingInv(s) && Enabled(s, e) && PollStep(e)
    ensures RingInv(Next(s, e))
  {
    if e.PollRead? {
      ReadLeavesRing(s);
    } else {
      assert e.PollCount? ==> HwCount(s) == |s.ring.pending|;
    }
    hide GoodRing, HwCount, CountedIn;
  }

  lemma ReadLeavesRing(s: Nic)
    requires RingInv(s) && Enabled(s, PollRead)
    ensures RingInv(Next(s, PollRead))
  {
    ReadKeeps(s.ring, s.napi.count);
    hide GoodRing, CountedIn, Read;
  }

  predicate SameRing(s: Nic, t: Nic) {
    && t.ring == s.ring && t.budget == s.budget
    && (t.napi == s.napi || t.napi.Scheduled?)
  }

  lemma DeviceLeavesRing(s: Nic, e: Step)
    requires Enabled(s, e) && !e.RxWrite? && DeviceStep(e)
    ensures SameRing(s, Next(s, e))
  {
    hide HwCount, CountedIn, Asserted;
  }

  lemma ThreadLeavesRing(s: Nic, e: Step)
    requires Enabled(s, e) && ThreadStep(e)
    ensures SameRing(s, Next(s, e))
  {
    if e.ThreadServe? {
      ServeIs(s);
    } else {
      RecognizeOrFinishIs(s, e);
    }
    hide Next, Enabled;
  }

  lemma RecognizeOrFinishIs(s: Nic, e: Step)
    requires Enabled(s, e) && (e.ThreadRecognize? || e.ThreadFinish?)
    ensures var t := Next(s, e);
            && t.ring == s.ring && t.budget == s.budget && t.napi == s.napi && t.phase == s.phase
            && (e.ThreadRecognize? ==> !t.woken && t.thread.Recognized? && t.irqEnabled == s.irqEnabled)
            && (e.ThreadFinish? ==>
                  t.woken == s.woken && t.thread.Asleep? && (t.irqEnabled ==> s.irqEnabled || s.phase.Running?))
  {
    hide HwCount, CountedIn, Asserted;
  }

  lemma TailLeavesRing(s: Nic, e: Step)
    requires Enabled(s, e) && TailStep(e)
    ensures SameRing(s, Next(s, e))
  {
    hide HwCount;
  }

  lemma OthersLeaveRing(s: Nic, e: Step)
    requires Enabled(s, e) && !DeviceStep(e) && !ThreadStep(e) && !TailStep(e)
    requires !PollStep(e) && !e.Release?
    ensures SameRing(s, Next(s, e))
  {
    hide HwCount, CountedIn, Asserted;
  }

  lemma EmptyIsGood(r: Ring)
    requires GoodRing(r)
    ensures GoodRing(EmptyRing(r.len))
  {
  }

  lemma ArriveKeeps(r: Ring, f: Frame)
    requires GoodRing(r) && Dist(r.rp, r.hwWp, r.len) + 1 < r.len
    ensures GoodRing(Arrive(r, f))
  {
  }

  lemma ReadKeeps(r: Ring, count: nat)
    requires GoodRing(r) && count <= |r.pending|
    ensures GoodRing(Read(r, count))
  {
    assert r.pending == r.pending[..count] + r.pending[count..];
  }

  predicate DeviceStep(e: Step) {
    e.RxWrite? || e.RxLatch? || e.TxFinish? || e.HardIrq? || e.SharedIrq?
  }

  predicate ThreadStep(e: Step) {
    e.ThreadRecognize? || e.ThreadServe? || e.ThreadFinish?
  }

  predicate PollStep(e: Step) {
    e.PollStart? || e.PollCount? || e.PollRead? || e.PollComplete?
  }

  predicate TailStep(e: Step) {
    e.TailEnable? || e.TailCheck?
  }

  lemma DeviceKeepsIrq(s: Nic, e: Step)
    requires IrqInv(s) && Enabled(s, e) && DeviceStep(e)
    ensures IrqInv(Next(s, e))
  {
  }

  lemma ThreadKeepsIrq(s: Nic, e: Step)
    requires IrqInv(s) && Enabled(s, e) && ThreadStep(e)
    ensures IrqInv(Next(s, e))
  {
    hide HwCount, CountedIn, Asserted;
    if e.ThreadServe? {
      ServeIs(s);
      hide Next;
    } else if e.ThreadFinish? {
    }
  }

  lemma ServeIs(s: Nic)
    requires Enabled(s, ThreadServe)
    ensures Next(s, ThreadServe)
         == s.(thread := Served(s.thread.rx), txDone := s.txDone && !s.thread.tx,
               napi := if s.thread.rx && s.napi.Idle? && !NapiDisabled(s.phase) then Scheduled else s.napi)
  {
  }

  lemma PollKeepsIrq(s: Nic, e: Step)
    requires IrqInv(s) && Enabled(s, e) && PollStep(e)
    ensures IrqInv(Next(s, e))
  {
  }

  lemma TailKeepsIrq(s: Nic, e: Step)
    requires IrqInv(s) && Enabled(s, e) && TailStep(e)
    ensures IrqInv(Next(s, e))
  {
    hide HwCount, CountedIn, Asserted;
  }

  lemma PhaseKeepsIrq(s: Nic, e: Step)
    requires IrqInv(s) && Enabled(s, e) && !DeviceStep(e) && !ThreadStep(e) && !PollStep(e) && !TailStep(e)
    ensures IrqInv(Next(s, e))
  {
    hide HwCount, CountedIn, Asserted;
  }

  lemma PollKeepsFrame(s: Nic, e: Step)
    requires FrameInv(s) && Enabled(s, e) && PollStep(e)
    ensures FrameInv(Next(s, e))
  {
    hide HwCount;
  }

  lemma DeviceKeepsFrame(s: Nic, e: Step)
    requires FrameInv(s) && Enabled(s, e) && DeviceStep(e)
    ensures FrameInv(Next(s, e))
  {
    hide HwCount, CountedIn, Asserted;
  }

  lemma TailKeepsFrame(s: Nic, e: Step)
    requires FrameInv(s) && Enabled(s, e) && TailStep(e) && HwCount(s) == |s.ring.pending|
    ensures FrameInv(Next(s, e))
  {
    hide HwCount, CountedIn;
  }

  lemma PhaseKeepsFrame(s: Nic, e: Step)
    requires FrameInv(s) && Enabled(s, e) && !DeviceStep(e) && !ThreadStep(e) && !PollStep(e) && !TailStep(e)
    ensures FrameInv(Next(s, e))
  {
    hide HwCount, CountedIn;
  }

  lemma RecognizeKeepsFrame(s: Nic)
    requires FrameInv(s) && Enabled(s, ThreadRecognize)
    ensures FrameInv(Next(s, ThreadRecognize))
  {
    hide HwCount, CountedIn, Asserted;
  }

  lemma FinishKeepsFrame(s: Nic)
    requires FrameInv(s) && Enabled(s, ThreadFinish)
    ensures FrameInv(Next(s, ThreadFinish))
  {
    hide HwCount, CountedIn, Asserted;
  }

  lemma ServeKeepsFrameIff(s: Nic)
    requires FrameInv(s) && Enabled(s, ThreadServe)
    ensures FrameInv(Next(s, ThreadServe)) <==> Legal(s, ThreadServe) || s.ring.pending == [] || s.rxDue || s.rok
  {
    ServeIs(s);
    hide Next, HwCount, CountedIn, Asserted;
  }

  /** Recognizing, serving and finishing keep every frame known, but for one step: serving a receive
      status with the rings released and NAPI disabled loses what nothing else tells of. */
  lemma ThreadKeepsFrameIff(s: Nic, e: Step)
    requires FrameInv(s) && Enabled(s, e) && ThreadStep(e)
    ensures FrameInv(Next(s, e)) <==> Legal(s, e) || s.ring.pending == [] || s.rxDue || s.rok
  {
    match e
    case ThreadRecognize => RecognizeKeepsFrame(s);
    case ThreadServe => ServeKeepsFrameIff(s);
    case ThreadFinish => FinishKeepsFrame(s);
    hide FrameInv, Next;
  }

  lemma StepKeeps(s: Nic, e: Step)
    requires Inv(s) && Legal(s, e)
    ensures Inv(Next(s, e))
  {
    assert HwCount(s) == |s.ring.pending|;
    StepKeepsRing(s, e);
    if DeviceStep(e) {
      DeviceKeepsIrq(s, e);
      DeviceKeepsFrame(s, e);
    } else if ThreadStep(e) {
      ThreadKeepsIrq(s, e);
      ThreadKeepsFrameIff(s, e);
    } else if PollStep(e) {
      PollKeepsIrq(s, e);
      PollKeepsFrame(s, e);
    } else {
      if TailStep(e) {
        TailKeepsIrq(s, e);
        TailKeepsFrame(s, e);
      } else {
        PhaseKeepsIrq(s, e);
        PhaseKeepsFrame(s, e);
      }
    }
    hide RingInv, IrqInv, FrameInv, Next, Enabled, Legal, HwCount;
  }

  /** So a step from a good state leads to a good state exactly when it is not the losing one, or
      there is nothing to lose. */
  lemma StepKeepsIff(s: Nic, e: Step)
    requires Inv(s) && Enabled(s, e)
    ensures Inv(Next(s, e)) <==> Legal(s, e) || s.ring.pending == [] || s.rxDue || s.rok
  {
    if Legal(s, e) {
      StepKeeps(s, e);
    } else {
      StepKeepsRing(s, e);
      ThreadKeepsIrq(s, e);
      ThreadKeepsFrameIff(s, e);
    }
    hide RingInv, IrqInv, FrameInv, Next, Enabled;
  }

  predicate Runs(s: Nic, steps: seq<Step>)
    decreases |steps|
  {
    steps == [] || (Legal(s, steps[0]) && Runs(Next(s, steps[0]), steps[1..]))
  }

  function After(s: Nic, steps: seq<Step>): Nic
    requires Runs(s, steps)
    decreases |steps|
  {
    if steps == [] then s else After(Next(s, steps[0]), steps[1..])
  }

  lemma {:induction false} RunKeeps(s: Nic, steps: seq<Step>)
    requires Inv(s) && Runs(s, steps)
    ensures Inv(After(s, steps))
    decreases |steps|
  {
    if steps != [] {
      StepKeeps(s, steps[0]);
      RunKeeps(Next(s, steps[0]), steps[1..]);
    }
  }

  /** The interface before the first start: nothing received, everything masked. */
  function Fresh(len: nat, budget: nat): Nic {
    Nic(Stopped, false, false, false, false, false, false, false, Asleep, Idle, 0, 0, budget, EmptyRing(len))
  }

  /** A received frame is not lost: NAPI is scheduled or polling or about to look again, a handler
      thread is pending or at work, or the device has (or is about to have) an unmasked ROK. */
  predicate Covered(s: Nic) {
    || !s.napi.Idle? || s.tailEnable > 0 || s.tailCheck > 0
    || s.woken || !s.thread.Asleep?
    || ((s.rok || s.rxDue) && s.rokUnmasked)
  }

  /** No lost wake-up, in every interleaving without the losing step, stops and restarts included;
      and every frame received since the last start was delivered once, in order, or is unread. */
  lemma NoLostWakeup(len: nat, budget: nat, steps: seq<Step>)
    requires 1 < len && 0 < budget && Runs(Fresh(len, budget), steps)
    ensures var s := After(Fresh(len, budget), steps);
            && (s.phase.Running? && s.ring.pending != [] ==> Covered(s))
            && s.ring.arrived == s.ring.delivered + s.ring.pending && |s.ring.pending| <= s.ring.len - 1
            && (s.phase.Running? && s.txDone ==> (s.txLatch && s.irqEnabled) || s.woken || !s.thread.Asleep?)
  {
    RunKeeps(Fresh(len, budget), steps);
  }

  // ----- A poll respects its budget -----

  /** A round of the poll takes every unread frame, or as many as use its budget up. */
  lemma PollTakesWhatFits(s: Nic)
    requires RingInv(s) && Enabled(s, PollCount)
    ensures var n := Next(s, PollCount).napi.count;
            && n <= |s.ring.pending| && s.napi.work + n <= s.budget
            && (n == |s.ring.pending| || s.napi.work + n == s.budget)
  {
    assert HwCount(s) == |s.ring.pending|;
    hide HwCount;
  }

  /** The frames that a step passes to mac80211 and that count against the budget. */
  function CountedBy(s: Nic, e: Step): nat
    requires Enabled(s, e)
  {
    if e.PollRead? then CountedIn(s.ring.pending[..s.napi.count]) else 0
  }

  /** How many of them there were since the poll function was last entered, with n before the run. */
  function Polled(s: Nic, steps: seq<Step>, n: nat): nat
    requires Runs(s, steps)
    decreases |steps|
  {
    if steps == [] then n
    else
      var e := steps[0];
      Polled(Next(s, e), steps[1..], if e.PollStart? then 0 else n + CountedBy(s, e))
  }

  /** A poll counts at most its budget, and less than that when it is about to complete. */
  predicate WithinBudget(s: Nic, n: nat) {
    && n <= s.budget
    && (s.napi.Looping? || s.napi.Reading? ==> n == s.napi.work)
    && (s.napi.Completing? ==> n < s.budget)
  }

  lemma PollStepWithinBudget(s: Nic, e: Step, n: nat)
    requires RingInv(s) && Enabled(s, e) && PollStep(e) && WithinBudget(s, n)
    ensures WithinBudget(Next(s, e), if e.PollStart? then 0 else n + CountedBy(s, e)) && Next(s, e).budget == s.budget
    ensures e.PollRead? ==> (Next(s, e).napi.Scheduled? <==> n + CountedBy(s, e) == s.budget)
  {
    hide GoodRing, HwCount;
    assert e.PollRead? ==> CountedBy(s, e) <= s.napi.count;
  }

  lemma RingStepLeavesPoll(s: Nic, e: Step)
    requires Enabled(s, e) && (e.RxWrite? || e.Release?)
    ensures Next(s, e).napi == s.napi && Next(s, e).budget == s.budget
  {
  }

  lemma StepWithinBudget(s: Nic, e: Step, n: nat)
    requires RingInv(s) && Enabled(s, e) && WithinBudget(s, n)
    ensures WithinBudget(Next(s, e), if e.PollStart? then 0 else n + CountedBy(s, e)) && Next(s, e).budget == s.budget
  {
    if PollStep(e) {
      PollStepWithinBudget(s, e, n);
    } else if e.RxWrite? || e.Release? {
      RingStepLeavesPoll(s, e);
    } else if DeviceStep(e) {
      DeviceLeavesRing(s, e);
    } else if ThreadStep(e) {
      ThreadLeavesRing(s, e);
    } else if TailStep(e) {
      TailLeavesRing(s, e);
    } else {
      OthersLeaveRing(s, e);
    }
    hide Next, RingInv, Enabled, CountedIn;
  }

  lemma {:induction false} RunWithinBudget(s: Nic, steps: seq<Step>, n: nat)
    requires Inv(s) && Runs(s, steps) && WithinBudget(s, n)
    ensures WithinBudget(After(s, steps), Polled(s, steps, n)) && After(s, steps).budget == s.budget
    decreases |steps|
  {
    if steps != [] {
      StepKeeps(s, steps[0]);
      StepWithinBudget(s, steps[0], n);
      hide Inv, Legal, Enabled, Next, WithinBudget, CountedBy;
      var e := steps[0];
      RunWithinBudget(Next(s, e), steps[1..], if e.PollStart? then 0 else n + CountedBy(s, e));
    }
  }

  /** Over every run: the frames counted since the poll function was entered are at most its budget,
      napi_complete_done is reached only with fewer, and a read leaves NAPI scheduled, to be polled
      again, exactly when it uses the budget up. */
  lemma PollKeepsBudget(len: nat, budget: nat, steps: seq<Step>)
    requires 1 < len && 0 < budget && Runs(Fresh(len, budget), steps)
    ensures var s, n := After(Fresh(len, budget), steps), Polled(Fresh(len, budget), steps, 0);
            && s.budget == budget && n <= budget
            && (Enabled(s, PollComplete) ==> n < budget)
            && (Enabled(s, PollRead) ==>
                  && n + CountedBy(s, PollRead) <= budget
                  && (Next(s, PollRead).napi.Scheduled? <==> n + CountedBy(s, PollRead) == budget))
  {
    var s0 := Fresh(len, budget);
    RunWithinBudget(s0, steps, 0);
    RunKeeps(s0, steps);
    var s, n := After(s0, steps), Polled(s0, steps, 0);
    hide Next, Inv, CountedBy, Runs, After, Polled, Fresh;
    if Enabled(s, PollRead) {
      PollStepWithinBudget(s, PollRead, n);
      assert WithinBudget(Next(s, PollRead), n + CountedBy(s, PollRead));
    }
  }

  // ----- From covered to read: a bounded response -----

  /** The next step of whoever is responsible for an unread frame. */
  function Responder(s: Nic): Step {
    if s.napi.Reading? then PollRead
    else if s.napi.Looping? then PollCount
    else if s.napi.Scheduled? then PollStart
    else if s.napi.Completing? then PollComplete
    else if s.tailCheck > 0 then TailCheck
    else if s.thread.Recognized? then ThreadServe
    else if s.thread.Served? then ThreadFinish
    else if s.tailEnable > 0 then TailEnable
    else if s.rxDue then RxLatch
    else if s.woken then ThreadRecognize
    else HardIrq
  }

  /** An upper bound on the number of responder steps until a frame is read. */
  function Rank(s: Nic): nat {
    match s.napi
    case Reading(_, count) => if count > 0 then 0 else 11
    case Looping(_) => 1
    case Scheduled => 2
    case Completing => 10
    case Idle =>
      if s.tailCheck > 0 then 3
      else if s.thread.Recognized? then if s.thread.rx then 3 else 9
      else if s.thread.Served? then 8
      else if s.tailEnable > 0 then 4
      else if s.rxDue then 7
      else if s.woken then 4
      else 5
  }

  /** Reading shortens the unread frames; any other responder step leaves them and lowers the rank. */
  predicate Progress(s: Nic, t: Nic) {
    && t.phase.Running?
    && if Rank(s) == 0 then
         && |t.ring.pending| < |s.ring.pending|
         && t.ring.delivered == s.ring.delivered + s.ring.pending[..|s.ring.pending| - |t.ring.pending|]
       else
         t.ring.pending == s.ring.pending && Rank(t) < Rank(s)
  }

  lemma PollerProgresses(s: Nic)
    requires Inv(s) && s.phase.Running? && s.ring.pending != [] && !s.napi.Idle?
    ensures Legal(s, Responder(s)) && Progress(s, Next(s, Responder(s)))
  {
    assert HwCount(s) == |s.ring.pending|;
    assert s.napi.Reading? ==> s.napi.count <= |s.ring.pending|;
    if s.napi.Reading? {
      ReadingProgresses(s);
    } else {
      LoopProgresses(s);
    }
    hide Inv, Legal, Progress, Responder, Next, HwCount;
  }

  lemma ReadingProgresses(s: Nic)
    requires s.phase.Running? && s.napi.Reading? && s.napi.count <= |s.ring.pending|
    ensures Legal(s, Responder(s)) && Progress(s, Next(s, Responder(s)))
  {
    assert s.napi.count == 0 ==> CountedIn(s.ring.pending[..s.napi.count]) == 0;
    hide CountedIn;
  }

  lemma LoopProgresses(s: Nic)
    requires s.phase.Running? && !s.napi.Idle? && !s.napi.Reading? && HwCount(s) == |s.ring.pending| > 0
    requires s.napi.Looping? ==> s.napi.work < s.budget
    ensures Legal(s, Responder(s)) && Progress(s, Next(s, Responder(s)))
  {
    hide CountedIn, HwCount;
    match s.napi
    case Looping(_) =>
    case Scheduled =>
    case Completing =>
  }

  lemma TailProgresses(s: Nic)
    requires Inv(s) && s.phase.Running? && s.ring.pending != [] && s.napi.Idle?
    requires s.tailCheck > 0 || !s.thread.Asleep?
    ensures Legal(s, Responder(s)) && Progress(s, Next(s, Responder(s)))
  {
    assert HwCount(s) == |s.ring.pending|;
    hide RingInv, HwCount, IrqInv;
    if s.tailCheck == 0 && s.thread.Served? {
      assert FrameInv(s);
    }
  }

  lemma OthersProgress(s: Nic)
    requires Inv(s) && s.phase.Running? && s.ring.pending != [] && s.napi.Idle? && s.tailCheck == 0 && s.thread.Asleep?
    ensures Legal(s, Responder(s)) && Progress(s, Next(s, Responder(s)))
  {
    hide RingInv;
    if s.tailEnable == 0 && !s.rxDue {
      assert s.rok;
    }
  }

  lemma ResponderProgresses(s: Nic)
    requires Inv(s) && s.phase.Running? && s.ring.pending != []
    ensures Legal(s, Responder(s)) && Progress(s, Next(s, Responder(s)))
  {
    hide Inv, Legal, Progress, Responder, Next;
    if !s.napi.Idle? {
      PollerProgresses(s);
    } else if s.tailCheck > 0 || !s.thread.Asleep? {
      TailProgresses(s);
    } else {
      OthersProgress(s);
    }
  }

  predicate AllResponder(s: Nic, steps: seq<Step>)
    requires Runs(s, steps)
    decreases |steps|
  {
    steps == [] || (steps[0] == Responder(s) && AllResponder(Next(s, steps[0]), steps[1..]))
  }

  /** With the device quiet, at most 12 steps of the responsible party read an unread frame. */
  lemma {:induction false} SomeoneReads(s: Nic) returns (steps: seq<Step>)
    requires Inv(s) && s.phase.Running? && s.ring.pending != []
    ensures |steps| <= Rank(s) + 1 <= 12
    ensures Runs(s, steps) && AllResponder(s, steps)
    ensures |After(s, steps).ring.pending| < |s.ring.pending|
    decreases Rank(s)
  {
    ResponderProgresses(s);
    StepKeeps(s, Responder(s));
    var t := Next(s, Responder(s));
    hide Inv, Enabled, Legal;
    if Rank(s) == 0 {
      steps := [Responder(s)];
    } else {
      var more := SomeoneReads(t);
      steps := [Responder(s)] + more;
      assert steps[1..] == more;
    }
  }

  // ----- Finished transmit work -----

  /** The next step of whoever is responsible for completed frames that are not retired. */
  function TxResponder(s: Nic): Step {
    if s.thread.Recognized? then ThreadServe
    else if s.thread.Served? then ThreadFinish
    else if s.woken then ThreadRecognize
    else HardIrq
  }

  /** The number of those steps until the frames are retired. */
  function TxRank(s: Nic): nat {
    match s.thread
    case Recognized(_, tx) => if tx then 1 else 5
    case Served(_) => 4
    case Asleep => if s.woken then 2 else 3
  }

  lemma TxResponderProgresses(s: Nic)
    requires Inv(s) && s.phase.Running? && s.txDone
    ensures Legal(s, TxResponder(s))
    ensures var t := Next(s, TxResponder(s));
            t.phase.Running? && if TxRank(s) == 1 then !t.txDone else t.txDone && TxRank(t) < TxRank(s)
  {
    if s.thread.Recognized? {
      ServeIs(s);
    }
    hide RingInv, HwCount, CountedIn;
  }

  /** With the device quiet, at most 5 steps of the handlers retire what it has finished. */
  lemma {:induction false} SomeoneRetires(s: Nic) returns (steps: seq<Step>)
    requires Inv(s) && s.phase.Running? && s.txDone
    ensures |steps| <= TxRank(s) <= 5 && Runs(s, steps) && !After(s, steps).txDone
    ensures forall k :: 0 <= k < |steps| ==> DeviceStep(steps[k]) ==> steps[k].HardIrq?
    decreases TxRank(s)
  {
    TxResponderProgresses(s);
    StepKeeps(s, TxResponder(s));
    var t := Next(s, TxResponder(s));
    hide Inv, Enabled, Legal, Next;
    steps := [TxResponder(s)];
    if t.txDone {
      var more := SomeoneRetires(t);
      steps := steps + more;
      assert steps[1..] == more;
    }
  }

  /** Whenever the device finishes frames on a running interface, they are retired that soon. */
  lemma FinishedIsRetired(s: Nic) returns (steps: seq<Step>)
    requires Inv(s) && s.phase.Running?
    ensures Legal(s, TxFinish) && Next(s, TxFinish).txDone
    ensures |steps| <= 5 && Runs(Next(s, TxFinish), steps) && !After(Next(s, TxFinish), steps).txDone
  {
    StepKeeps(s, TxFinish);
    steps := SomeoneRetires(Next(s, TxFinish));
  }

  /** Recognizing takes every status over to the thread and leaves none to interrupt with. */
  lemma StatusIsTakenOver(s: Nic)
    requires Enabled(s, ThreadRecognize)
    ensures var t := Next(s, ThreadRecognize);
            && t.thread == Recognized(s.rok, s.txLatch) && !t.rok && !t.txLatch && !t.woken
            && !Enabled(t, HardIrq) && !Enabled(t, ThreadRecognize)
  {
  }

  // ----- Every poll has one tail -----

  function CountOf(steps: seq<Step>, e: Step): nat {
    if steps == [] then 0 else (if steps[0] == e then 1 else 0) + CountOf(steps[1..], e)
  }

  predicate TailsMove(s: Nic, e: Step, t: Nic) {
    && t.tailEnable == s.tailEnable + (if e == PollComplete then 1 else 0) - (if e == TailEnable then 1 else 0)
    && t.tailCheck == s.tailCheck + (if e == TailEnable then 1 else 0) - (if e == TailCheck then 1 else 0)
  }

  lemma PollMovesTails(s: Nic, e: Step)
    requires Enabled(s, e) && PollStep(e)
    ensures TailsMove(s, e, Next(s, e))
  {
    hide HwCount, CountedIn;
  }

  lemma TailMovesTails(s: Nic, e: Step)
    requires Enabled(s, e) && TailStep(e)
    ensures TailsMove(s, e, Next(s, e))
  {
    hide HwCount;
  }

  lemma ThreadMovesTails(s: Nic, e: Step)
    requires Enabled(s, e) && ThreadStep(e)
    ensures TailsMove(s, e, Next(s, e))
  {
    if e.ThreadServe? {
      ServeIs(s);
      hide Next;
    }
  }

  lemma OthersMoveTails(s: Nic, e: Step)
    requires Enabled(s, e) && !PollStep(e) && !TailStep(e) && !ThreadStep(e)
    ensures TailsMove(s, e, Next(s, e))
  {
    hide HwCount, CountedIn, Asserted;
  }

  lemma StepMovesTails(s: Nic, e: Step)
    requires Enabled(s, e)
    ensures TailsMove(s, e, Next(s, e))
  {
    if PollStep(e) {
      PollMovesTails(s, e);
    } else if TailStep(e) {
      TailMovesTails(s, e);
    } else if ThreadStep(e) {
      ThreadMovesTails(s, e);
    } else {
      OthersMoveTails(s, e);
    }
    hide Next, Enabled, TailsMove;
  }

  /** Over every run: each completed poll enables interrupts once and then looks at the ring once; what of
      that is still to come is what is outstanding. */
  lemma {:induction false} TailsAreConserved(s: Nic, steps: seq<Step>)
    requires Runs(s, steps)
    ensures var t := After(s, steps);
            && t.tailEnable + CountOf(steps, TailEnable) == s.tailEnable + CountOf(steps, PollComplete)
            && t.tailCheck + CountOf(steps, TailCheck) == s.tailCheck + CountOf(steps, TailEnable)
    decreases |steps|
  {
    if steps != [] {
      StepMovesTails(s, steps[0]);
      hide Next, Legal, Enabled;
      TailsAreConserved(Next(s, steps[0]), steps[1..]);
    }
  }

  // ----- What can happen when -----

  /** A device interrupt takes an enabled interrupt with an unmasked status, and stopping a running
      interface whose lock is free. */
  lemma InterruptsAndStops(s: Nic)
    ensures Enabled(s, HardIrq) <==> s.irqEnabled && (s.txLatch || (s.rok && s.rokUnmasked))
    ensures Enabled(s, Stop) ==> s.phase.Running? && s.thread.Asleep?
    ensures Enabled(s, Start) ==> s.phase.Starting? && s.thread.Asleep?
  {
  }

  /** Before the first start nothing is latched and nobody is at work: only the device, another device on
      the line and napi_enable can take a step. */
  lemma FreshIsQuiet(len: nat, budget: nat, e: Step)
    requires Enabled(Fresh(len, budget), e)
    ensures !Fresh(len, budget).rok && !Fresh(len, budget).txLatch && !Fresh(len, budget).txDone
    ensures e.RxWrite? || e.TxFinish? || e.SharedIrq? || e.NapiEnable?
  {
    hide HwCount;
  }

  // ----- The interrupt line of a stopped interface -----

  /** Starting again without a handler or a poller under way is safe exactly when every frame
      received since the release still has its status latched. */
  lemma StartCoveredIff(s: Nic)
    requires s.phase.Starting? && !s.irqEnabled && !s.rokUnmasked
    requires !s.woken && s.thread.Asleep? && s.napi.Idle? && s.tailEnable == s.tailCheck == 0
    ensures Enabled(s, Start)
    ensures (Next(s, Start).ring.pending != [] ==> Covered(Next(s, Start)))
       <==> s.ring.pending == [] || s.rok || s.rxDue
  {
  }

  /** No other device interrupts between synchronize_irq and the next napi_enable. */
  predicate QuietLine(s: Nic, e: Step) {
    e.SharedIrq? ==> !s.phase.Synced? && !NapiDisabled(s.phase)
  }

  predicate QuietRuns(s: Nic, steps: seq<Step>)
    decreases |steps|
  {
    steps == [] || (Enabled(s, steps[0]) && QuietLine(s, steps[0]) && QuietRuns(Next(s, steps[0]), steps[1..]))
  }

  /** No handler is pending or at work while NAPI is or is being disabled, and a device interrupt
      is raised only while running. */
  predicate NoLateHandler(s: Nic) {
    && (s.phase.Synced? || NapiDisabled(s.phase) ==> !s.woken && s.thread.Asleep?)
    && (s.irqEnabled ==> s.phase.Running?)
  }

  lemma QuietDevice(s: Nic, e: Step)
    requires NoLateHandler(s) && Enabled(s, e) && QuietLine(s, e) && DeviceStep(e)
    ensures NoLateHandler(Next(s, e))
  {
    hide HwCount, CountedIn;
  }

  lemma QuietThread(s: Nic, e: Step)
    requires NoLateHandler(s) && Enabled(s, e) && ThreadStep(e)
    ensures NoLateHandler(Next(s, e))
  {
    if e.ThreadServe? {
      ServeIs(s);
    } else {
      RecognizeOrFinishIs(s, e);
    }
    hide Next, HwCount, CountedIn, Asserted;
  }

  lemma QuietOther(s: Nic, e: Step)
    requires NoLateHandler(s) && Enabled(s, e) && !DeviceStep(e) && !ThreadStep(e)
    ensures NoLateHandler(Next(s, e))
  {
    hide HwCount, CountedIn, Asserted;
  }

  /** On a line that is quiet for that long no run meets the losing step. */
  lemma {:induction false} QuietRunsAreLegal(s: Nic, steps: seq<Step>)
    requires NoLateHandler(s) && QuietRuns(s, steps)
    ensures Runs(s, steps)
    decreases |steps|
  {
    if steps != [] {
      var e := steps[0];
      assert e.ThreadServe? ==> Legal(s, e);
      if DeviceStep(e) {
        QuietDevice(s, e);
      } else if ThreadStep(e) {
        QuietThread(s, e);
      } else {
        QuietOther(s, e);
      }
      QuietRunsAreLegal(Next(s, e), steps[1..]);
    }
    hide Next, Enabled, NoLateHandler, QuietLine;
  }

  /** So on such a line no wake-up is lost, whatever else the run does. */
  lemma QuietLineLosesNothing(len: nat, budget: nat, steps: seq<Step>)
    requires 1 < len && 0 < budget && QuietRuns(Fresh(len, budget), steps)
    ensures Runs(Fresh(len, budget), steps)
    ensures var s := After(Fresh(len, budget), steps); s.phase.Running? && s.ring.pending != [] ==> Covered(s)
  {
    QuietRunsAreLegal(Fresh(len, budget), steps);
    NoLostWakeup(len, budget, steps);
    hide Covered, Runs, After, QuietRuns;
  }

  /** Every step follows from the one before; shared interrupts and handlers come at any time. */
  predicate Trace(states: seq<Nic>, steps: seq<Step>) {
    && |states| == |steps| + 1
    && forall i :: 0 <= i < |steps| ==> Enabled(states[i], steps[i]) && states[i + 1] == Next(states[i], steps[i])
  }

  function ServeAndStart(): seq<Step> {
    [ThreadRecognize, ThreadServe, ThreadFinish, NapiEnable, Start]
  }

  /** A handler that is late: with a frame received since the release it clears the frame's status,
      nothing is scheduled, and after the start nobody is left to read the frame. */
  lemma LateHandlerLoses(s: Nic) returns (states: seq<Nic>)
    requires s.phase.Stopped? && s.woken && s.thread.Asleep? && s.rok && !s.rxDue && s.napi.Idle?
    requires s.tailEnable == s.tailCheck == 0 && s.ring.pending != []
    ensures Trace(states, ServeAndStart()) && states[0] == s
    ensures states[5].phase.Running? && states[5].ring == s.ring && !Covered(states[5])
  {
    var s1 := Next(s, ThreadRecognize);
    var s2 := Next(s1, ThreadServe);
    var s3 := Next(s2, ThreadFinish);
    var s4 := Next(s3, NapiEnable);
    var s5 := Next(s4, Start);
    states := [s, s1, s2, s3, s4, s5];
    hide HwCount, CountedIn;
  }

  lemma Join(a: seq<Nic>, x: seq<Step>, b: seq<Nic>, y: seq<Step>)
    requires Trace(a, x) && Trace(b, y) && a[|x|] == b[0]
    ensures Trace(a + b[1..], x + y) && (a + b[1..])[|x| + |y|] == b[|y|]
  {
    hide Enabled, Next;
    var states, steps := a + b[1..], x + y;
    forall i | 0 <= i < |steps|
      ensures Enabled(states[i], steps[i]) && states[i + 1] == Next(states[i], steps[i])
    {
      if i >= |x| {
        assert states[i] == b[i - |x|] && states[i + 1] == b[i - |x| + 1] && steps[i] == y[i - |x|];
      }
    }
  }

  /** Another device interrupts behind the release: before the first start this is enough. */
  lemma SharedIrqWhileStoppedLoses(f: Frame) returns (states: seq<Nic>)
    ensures Trace(states, [RxWrite(f), RxLatch, SharedIrq] + ServeAndStart()) && states[0] == Fresh(512, 64)
    ensures states[8].phase.Running? && states[8].ring.pending == [f] && !Covered(states[8])
  {
    var s0 := Fresh(512, 64);
    var s1 := Next(s0, RxWrite(f));
    var s2 := Next(s1, RxLatch);
    var s3 := Next(s2, SharedIrq);
    var rest := LateHandlerLoses(s3);
    Join([s0, s1, s2, s3], [RxWrite(f), RxLatch, SharedIrq], rest, ServeAndStart());
    states := [s0, s1, s2, s3] + rest[1..];
  }

  function StopAndReceive(f: Frame): seq<Step> {
    [Stop, SyncIrq, SharedIrq, NapiDisable, Release, RxWrite(f), RxLatch]
  }

  lemma StopWithLateHandler(s: Nic, f: Frame) returns (states: seq<Nic>)
    requires GoodRing(s.ring) && s.phase.Running? && s.irqEnabled && s.napi.Idle? && !s.woken && s.thread.Asleep?
    requires s.tailEnable == s.tailCheck == 0
    ensures Trace(states, StopAndReceive(f)) && states[0] == s
    ensures var t := states[7];
            && t.phase.Stopped? && t.woken && t.thread.Asleep? && t.rok && !t.rxDue && t.napi.Idle?
            && t.tailEnable == t.tailCheck == 0 && t.ring.pending == [f]
  {
    var s1 := Next(s, Stop);
    var s2 := Next(s1, SyncIrq);
    var s3 := Next(s2, SharedIrq);
    var rest := ReleaseAndReceive(s3, f);
    Join([s, s1, s2, s3], [Stop, SyncIrq, SharedIrq], rest, [NapiDisable, Release, RxWrite(f), RxLatch]);
    assert [Stop, SyncIrq, SharedIrq] + [NapiDisable, Release, RxWrite(f), RxLatch] == StopAndReceive(f);
    states := [s, s1, s2, s3] + rest[1..];
    hide HwCount, CountedIn, Asserted;
  }

  lemma ReleaseAndReceive(s: Nic, f: Frame) returns (states: seq<Nic>)
    requires s.phase.Synced? && s.napi.Idle? && s.thread.Asleep? && s.ring.len > 1
    ensures Trace(states, [NapiDisable, Release, RxWrite(f), RxLatch]) && states[0] == s
    ensures var t := states[4];
            t == s.(phase := Stopped, txDone := false, rok := true, rxDue := false,
                    ring := Arrive(EmptyRing(s.ring.len), f))
  {
    hide HwCount, CountedIn, Asserted;
    var s1 := Next(s, NapiDisable);
    var s2 := Next(s1, Release);
    var s3 := Next(s2, RxWrite(f));
    states := [s, s1, s2, s3, Next(s3, RxLatch)];
  }

  /** Another device interrupts behind synchronize_irq, in front of the release, and the handler
      thread comes to run only behind it. */
  lemma SharedIrqWhileStoppingLoses(s: Nic, f: Frame) returns (states: seq<Nic>)
    requires GoodRing(s.ring) && s.phase.Running? && s.irqEnabled && s.napi.Idle? && !s.woken && s.thread.Asleep?
    requires s.tailEnable == s.tailCheck == 0
    ensures Trace(states, StopAndReceive(f) + ServeAndStart()) && states[0] == s
    ensures states[12].phase.Running? && states[12].ring.pending == [f] && !Covered(states[12])
  {
    var first := StopWithLateHandler(s, f);
    var rest := LateHandlerLoses(first[7]);
    hide Trace, Covered;
    Join(first, StopAndReceive(f), rest, ServeAndStart());
    states := first + rest[1..];
  }

  // ----- The receive ring as the driver keeps it, updated in place -----

  lemma {:induction false} CountedInSnoc(frames: seq<Frame>, f: Frame)
    ensures CountedIn(frames + [f]) == CountedIn(frames) + if f.counted then 1 else 0
    decreases |frames|
  {
    if frames == [] {
      assert [] + [f] == [f];
    } else {
      assert (frames + [f])[1..] == frames[1..] + [f];
      CountedInSnoc(frames[1..], f);
    }
  }

  /** The unread frames sit in the buffer from rp on. */
  ghost predicate Holds(buf: seq<Frame>, r: Ring) {
    GoodRing(r) && |buf| == r.len && forall k :: 0 <= k < |r.pending| ==> buf[Wrap(r.rp + k, r.len)] == r.pending[k]
  }

  lemma ReadHolds(buf: seq<Frame>, r: Ring, count: nat)
    requires Holds(buf, r) && count <= |r.pending|
    ensures Holds(buf, Read(r, count))
  {
    ReadKeeps(r, count);
    var t := Read(r, count);
    forall k | 0 <= k < |t.pending|
      ensures buf[Wrap(t.rp + k, r.len)] == t.pending[k]
    {
      assert Wrap(t.rp + k, r.len) == Wrap(r.rp + (count + k), r.len);
    }
  }

  lemma ArriveHolds(buf: seq<Frame>, r: Ring, f: Frame)
    requires Holds(buf, r) && Dist(r.rp, r.hwWp, r.len) + 1 < r.len
    ensures Holds(buf[r.hwWp := f], Arrive(r, f))
  {
    ArriveKeeps(r, f);
  }

  class PciRxRing {
    const len: nat
    const buf: array<Frame>
    var rp: nat
    var wp: nat
    var hwWp: nat     // device side
    var delivered: seq<Frame>
    ghost var pending: seq<Frame>
    ghost var arrived: seq<Frame>

    ghost function State(): Ring
      reads this
    {
      Ring(len, rp, hwWp, pending, delivered, arrived)
    }

    /** The driver's wp repeats its rp. */
    ghost predicate Valid()
      reads this, buf
    {
      Holds(buf[..], State()) && wp == rp
    }

    constructor (len: nat, blank: Frame)
      requires len > 1
      ensures Valid() && fresh(buf) && State() == EmptyRing(len)
    {
      this.len := len;
      buf := new Frame[len](_ => blank);
      rp, wp, hwWp, delivered, pending, arrived := 0, 0, 0, [], [], [];
    }

    /** The device fills the next entry; it never fills the last free one. */
    method DeviceWrites(f: Frame)
      requires Valid() && Dist(rp, hwWp, len) + 1 < len
      modifies this`hwWp, this`pending, this`arrived, buf
      ensures Valid() && State() == Arrive(old(State()), f)
    {
      ArriveHolds(buf[..], State(), f);
      buf[hwWp] := f;
      pending, arrived := pending + [f], arrived + [f];
      hwWp := Wrap(hwWp + 1, len);
    }

    /** rtw_pci_rx_napi: reads what the device has filled, up to the limit, in order, and reports
        how many of those frames count against the budget. */
    method RxNapi(limit: nat) returns (rxDone: nat)
      requires Valid()
      modifies this`rp, this`wp, this`delivered, this`pending
      ensures Valid()
      ensures var n := Min(|old(pending)|, limit);
              State() == Read(old(State()), n) && rxDone == CountedIn(old(pending)[..n])
    {
      hide Holds, CountedIn, Dist, Wrap;
      ghost var r := State();
      CountIsUnread(buf[..], r);
      var nr: nat := if hwWp >= wp then hwWp - wp else len - (wp - hwWp);
      var count := Min(nr, limit);
      ReadHolds(buf[..], r, count);
      rxDone := ReadEntries(r, count);
      pending := pending[count..];
      wp := rp;
    }

    /** The loop of rtw_pci_rx_napi over count entries. */
    method ReadEntries(ghost r: Ring, count: nat) returns (rxDone: nat)
      requires State() == r && Holds(buf[..], r) && count <= |r.pending| && r.rp < r.len
      modifies this`rp, this`delivered
      ensures rp == Wrap(r.rp + count, len) && delivered == r.delivered + r.pending[..count]
      ensures rxDone == CountedIn(r.pending[..count])
    {
      var curRp, n := rp, 0;
      rxDone := 0;
      assert r.pending[..0] == [];
      assert curRp == Wrap(r.rp + n, len) && rxDone == CountedIn(r.pending[..n]);
      hide Holds, CountedIn, Wrap;
      while n < count
        invariant n <= count && curRp == Wrap(r.rp + n, len) && rp == r.rp
        invariant delivered == r.delivered + r.pending[..n] && rxDone == CountedIn(r.pending[..n])
      {
        ReadStep(buf[..], r, n);
        var f := buf[curRp];
        delivered := delivered + [f];
        if f.counted {
          rxDone := rxDone + 1;
        }
        curRp := curRp + 1;
        if curRp >= len {
          curRp := 0;
        }
        n := n + 1;
      }
      rp := curRp;
    }
  }

  lemma CountIsUnread(buf: seq<Frame>, r: Ring)
    requires Holds(buf, r)
    ensures |r.pending| == (if r.hwWp >= r.rp then r.hwWp - r.rp else r.len - (r.rp - r.hwWp)) && r.rp < r.len
  {
  }

  lemma ReadStep(buf: seq<Frame>, r: Ring, n: nat)
    requires Holds(buf, r) && n < |r.pending|
    ensures var at := Wrap(r.rp + n, r.len);
            && 0 <= at < |buf| && Wrap(r.rp + (n + 1), r.len) == (if at + 1 >= r.len then 0 else at + 1)
            && r.pending[..n + 1] == r.pending[..n] + [buf[at]]
            && CountedIn(r.pending[..n + 1]) == CountedIn(r.pending[..n]) + if buf[at].counted then 1 else 0
  {
    assert r.pending[..n + 1] == r.pending[..n] + [r.pending[n]];
    CountedInSnoc(r.pending[..n], r.pending[n]);
  }
}
