/** The four-box command mailbox to the firmware (fw.c). The driver polls the next box's flag in
    HMETFR, writes the extension and the message register, and moves on round robin; the firmware
    reads boxes round robin and clears their flags. Steps of the two interleave freely. */
module H2cMailbox {

  const BOXES := 4

  datatype Cmd = Cmd(msg: nat, ext: nat)

  /** Where rtw_fw_send_h2c_command(_register) stands; the mutex allows one call at a time. */
  datatype Driver = Ready | Polling(cmd: Cmd) | WritingExt(cmd: Cmd) | WritingMsg(cmd: Cmd)

  /** `full` are the HMETFR bits and `box` the register pairs. `sent` lists the commands whose poll
      succeeded and whose message register was written, `consumed` what the firmware has read,
      `dropped` the commands whose poll timed out. */
  datatype Mailbox = Mailbox(
    full: seq<bool>, box: seq<Cmd>, lastBox: nat, fwBox: nat, driver: Driver,
    sent: seq<Cmd>, consumed: seq<Cmd>, dropped: seq<Cmd>)

  datatype Step =
    | Call(cmd: Cmd)
    | PollFree       // the poll sees the box's flag clear
    | PollTimeout    // the last poll still sees it set: -ETIMEDOUT, the command is given up
    | WriteExt
    | WriteMsg       // writing the message register sets the box's flag
    | FirmwareRead   // the firmware reads the next full box and clears its flag

  predicate Shaped(m: Mailbox) {
    |m.full| == BOXES && |m.box| == BOXES && m.lastBox < BOXES && m.fwBox < BOXES
  }

  predicate Enabled(m: Mailbox, e: Step)
    requires Shaped(m)
  {
    match e
    case Call(_) => m.driver.Ready?
    case PollFree => m.driver.Polling? && !m.full[m.lastBox]
    case PollTimeout => m.driver.Polling? && m.full[m.lastBox]
    case WriteExt => m.driver.WritingExt?
    case WriteMsg => m.driver.WritingMsg?
    case FirmwareRead => m.full[m.fwBox]
  }

  function NextBox(b: nat): nat {
    if b + 1 >= BOXES then 0 else b + 1
  }

  function Next(m: Mailbox, e: Step): (m': Mailbox)
    requires Shaped(m) && Enabled(m, e)
    ensures Shaped(m')
  {
    match e
    case Call(cmd) => m.(driver := Polling(cmd))
    case PollFree => m.(driver := WritingExt(m.driver.cmd))
    case PollTimeout => m.(driver := Ready, dropped := m.dropped + [m.driver.cmd])
    case WriteExt =>
      m.(driver := WritingMsg(m.driver.cmd), box := m.box[m.lastBox := m.box[m.lastBox].(ext := m.driver.cmd.ext)])
    case WriteMsg =>
      m.(driver := Ready, box := m.box[m.lastBox := m.box[m.lastBox].(msg := m.driver.cmd.msg)],
         full := m.full[m.lastBox := true], lastBox := NextBox(m.lastBox), sent := m.sent + [m.driver.cmd])
    case FirmwareRead =>
      m.(full := m.full[m.fwBox := false], fwBox := NextBox(m.fwBox), consumed := m.consumed + [m.box[m.fwBox]])
  }

  // ----- What every interleaving keeps -----

  /** The box i places after b. */
  function At(b: nat, i: nat): (at: int)
    ensures b < BOXES && i <= BOXES ==> 0 <= at < BOXES
  {
    if b + i < BOXES then b + i else b + i - BOXES
  }

  function Unread(m: Mailbox): int {
    |m.sent| - |m.consumed|
  }

  /** Of the boxes from the firmware's position on, exactly those holding a sent and unread command
      are full, and they hold it. */
  predicate BoxesHold(m: Mailbox)
    requires Shaped(m) && 0 <= Unread(m) <= BOXES
  {
    && (forall i :: 0 <= i < Unread(m) ==> m.box[At(m.fwBox, i)] == m.sent[|m.consumed| + i])
    && (forall i :: 0 <= i < BOXES ==> (m.full[At(m.fwBox, i)] <==> i < Unread(m)))
  }

  predicate Inv(m: Mailbox) {
    && Shaped(m)
    && 0 <= Unread(m) <= BOXES && m.lastBox == At(m.fwBox, Unread(m))
    && m.consumed == m.sent[..|m.consumed|]
    && BoxesHold(m)
    && (m.driver.WritingExt? || m.driver.WritingMsg? ==> Unread(m) < BOXES)
    && (m.driver.WritingMsg? ==> m.box[m.lastBox].ext == m.driver.cmd.ext)
  }

  function Empty(box: seq<Cmd>): Mailbox {
    Mailbox([false, false, false, false], box, 0, 0, Ready, [], [], [])
  }

  lemma WriteExtKeeps(m: Mailbox)
    requires Inv(m) && Enabled(m, WriteExt)
    ensures Inv(Next(m, WriteExt))
  {
    forall i | 0 <= i < Unread(m)
      ensures At(m.fwBox, i) != m.lastBox
    {
    }
  }

  lemma WriteMsgKeeps(m: Mailbox)
    requires Inv(m) && Enabled(m, WriteMsg)
    ensures Inv(Next(m, WriteMsg))
  {
    forall i | 0 <= i < BOXES
      ensures At(m.fwBox, i) == m.lastBox <==> i == Unread(m)
    {
    }
  }

  lemma FirmwareReadKeeps(m: Mailbox)
    requires Inv(m) && Enabled(m, FirmwareRead)
    ensures Inv(Next(m, FirmwareRead))
    ensures Unread(m) > 0 && Next(m, FirmwareRead).consumed == m.consumed + [m.sent[|m.consumed|]]
  {
    var m' := Next(m, FirmwareRead);
    assert m.full[At(m.fwBox, 0)] && m.box[At(m.fwBox, 0)] == m.sent[|m.consumed|];
    forall i | 0 <= i < BOXES
      ensures At(m'.fwBox, i) == if i + 1 < BOXES then At(m.fwBox, i + 1) else m.fwBox
    {
    }
  }

  lemma StepKeeps(m: Mailbox, e: Step)
    requires Inv(m) && Enabled(m, e)
    ensures Inv(Next(m, e))
  {
    match e
    case Call(_) =>
    case PollFree => PollFreeHasRoom(m);
    case PollTimeout =>
    case WriteExt => WriteExtKeeps(m);
    case WriteMsg => WriteMsgKeeps(m);
    case FirmwareRead => FirmwareReadKeeps(m);
  }

  /** The poll reads the flag of the box after the last one sent: clear means fewer than four
      commands are unread. */
  lemma PollFreeHasRoom(m: Mailbox)
    requires Inv(m)
    ensures m.full[m.lastBox] <==> Unread(m) == BOXES
  {
    assert m.full[At(m.fwBox, if Unread(m) == BOXES then 0 else Unread(m))] <==> Unread(m) == BOXES;
  }

  /** No step changes a box whose command the firmware has not read. */
  lemma UnreadBoxesUntouched(m: Mailbox, e: Step, i: nat)
    requires Inv(m) && Enabled(m, e) && i < Unread(m)
    ensures Next(m, e).box[At(m.fwBox, i)] == m.sent[|m.consumed| + i]
  {
    assert m.driver.WritingExt? || m.driver.WritingMsg? ==> At(m.fwBox, i) != m.lastBox;
  }

  predicate Runs(m: Mailbox, steps: seq<Step>)
    requires Shaped(m)
    decreases |steps|
  {
    steps == [] || (Enabled(m, steps[0]) && Runs(Next(m, steps[0]), steps[1..]))
  }

  function After(m: Mailbox, steps: seq<Step>): (m': Mailbox)
    requires Shaped(m) && Runs(m, steps)
    ensures Shaped(m')
    decreases |steps|
  {
    if steps == [] then m else After(Next(m, steps[0]), steps[1..])
  }

  lemma {:induction false} RunKeeps(m: Mailbox, steps: seq<Step>)
    requires Inv(m) && Runs(m, steps)
    ensures Inv(After(m, steps))
    decreases |steps|
  {
    if steps != [] {
      StepKeeps(m, steps[0]);
      RunKeeps(Next(m, steps[0]), steps[1..]);
    }
  }

  /** The commands of the calls in a run, in order. */
  function Called(steps: seq<Step>): seq<Cmd> {
    if steps == [] then []
    else (if steps[0].Call? then [steps[0].cmd] else []) + Called(steps[1..])
  }

  /** a and b interleave to c without changing the order inside either. */
  ghost predicate Merge(a: seq<Cmd>, b: seq<Cmd>, c: seq<Cmd>)
    decreases |c|
  {
    if c == [] then a == [] && b == []
    else
      var last := c[|c| - 1];
      || (a != [] && a[|a| - 1] == last && Merge(a[..|a| - 1], b, c[..|c| - 1]))
      || (b != [] && b[|b| - 1] == last && Merge(a, b[..|b| - 1], c[..|c| - 1]))
  }

  lemma MergeSnoc(a: seq<Cmd>, b: seq<Cmd>, c: seq<Cmd>, x: Cmd)
    requires Merge(a, b, c)
    ensures Merge(a + [x], b, c + [x]) && Merge(a, b + [x], c + [x])
  {
    assert (a + [x])[..|a|] == a && (b + [x])[..|b|] == b && (c + [x])[..|c|] == c;
  }

  /** The command of a call that is still in progress. */
  function InProgress(m: Mailbox): seq<Cmd> {
    if m.driver.Ready? then [] else [m.driver.cmd]
  }

  lemma {:induction false} CallsAreAccountedFor(m: Mailbox, steps: seq<Step>, before: seq<Cmd>)
    requires Shaped(m) && Runs(m, steps)
    requires exists done :: Merge(m.sent, m.dropped, done) && done + InProgress(m) == before
    ensures exists done :: Merge(After(m, steps).sent, After(m, steps).dropped, done)
                        && done + InProgress(After(m, steps)) == before + Called(steps)
    decreases |steps|
  {
    var done :| Merge(m.sent, m.dropped, done) && done + InProgress(m) == before;
    if steps == [] {
      assert done + InProgress(After(m, steps)) == before + Called(steps);
    } else {
      var next := before + if steps[0].Call? then [steps[0].cmd] else [];
      var more := StepAccounted(m, steps[0], done);
      hide Merge, Next, Enabled, InProgress;
      CallsAreAccountedFor(Next(m, steps[0]), steps[1..], next);
      assert next + Called(steps[1..]) == before + Called(steps);
    }
  }

  lemma StepAccounted(m: Mailbox, e: Step, done: seq<Cmd>) returns (more: seq<Cmd>)
    requires Shaped(m) && Enabled(m, e) && Merge(m.sent, m.dropped, done)
    ensures Merge(Next(m, e).sent, Next(m, e).dropped, more)
    ensures more + InProgress(Next(m, e)) == done + InProgress(m) + if e.Call? then [e.cmd] else []
  {
    more := done;
    if e.PollTimeout? || e.WriteMsg? {
      more := done + [m.driver.cmd];
      MergeSnoc(m.sent, m.dropped, done, m.driver.cmd);
    }
    hide Merge;
  }

  /** Over every run from an empty mailbox: what the firmware has read is a prefix of what was
      sent; at most four commands are unread; and the calls so far are, in order, the sent ones
      with the dropped ones in between, and the one in progress. */
  lemma LosslessFifo(box: seq<Cmd>, steps: seq<Step>)
    requires |box| == BOXES && Runs(Empty(box), steps)
    ensures var m := After(Empty(box), steps);
            && m.consumed <= m.sent && Unread(m) <= BOXES
            && exists done :: Merge(m.sent, m.dropped, done) && done + InProgress(m) == Called(steps)
  {
    var m := Empty(box);
    RunKeeps(m, steps);
    assert Merge(m.sent, m.dropped, []) && [] + InProgress(m) == [];
    CallsAreAccountedFor(m, steps, []);
    assert [] + Called(steps) == Called(steps);
  }

  // ----- The driver's call, with the firmware running in its gaps -----

  class H2cBoxes {
    const boxReg: array<nat>
    const boxExReg: array<nat>
    const hmetfr: array<bool>
    var lastBoxNum: nat
    var fwBox: nat             // firmware side
    ghost var sent: seq<Cmd>
    ghost var consumed: seq<Cmd>
    ghost var dropped: seq<Cmd>

    ghost predicate Valid()
      reads this
    {
      && boxReg.Length == boxExReg.Length == hmetfr.Length == BOXES && boxReg != boxExReg
    }

    ghost function State(driver: Driver): Mailbox
      requires Valid()
      reads this, boxReg, boxExReg, hmetfr
    {
      Mailbox(hmetfr[..], [Cmd(boxReg[0], boxExReg[0]), Cmd(boxReg[1], boxExReg[1]),
                           Cmd(boxReg[2], boxExReg[2]), Cmd(boxReg[3], boxExReg[3])],
              lastBoxNum, fwBox, driver, sent, consumed, dropped)
    }

    constructor ()
      ensures Valid() && Inv(State(Ready)) && sent == consumed == dropped == []
      ensures fresh(boxReg) && fresh(boxExReg) && fresh(hmetfr)
    {
      boxReg, boxExReg := new nat[BOXES](_ => 0), new nat[BOXES](_ => 0);
      hmetfr := new bool[BOXES](_ => false);
      lastBoxNum, fwBox, sent, consumed, dropped := 0, 0, [], [], [];
    }

    /** The firmware reads up to n boxes, whatever the driver is doing. */
    method FirmwareReads(n: nat, ghost driver: Driver)
      requires Valid() && Inv(State(driver))
      modifies hmetfr, this`fwBox, this`consumed
      ensures Valid() && Inv(State(driver))
      ensures |consumed| == if |old(consumed)| + n <= |sent| then |old(consumed)| + n else |sent|
    {
      var i := 0;
      while i < n && hmetfr[fwBox]
        invariant i <= n && Inv(State(driver)) && |consumed| == |old(consumed)| + i
      {
        ghost var m := State(driver);
        FirmwareReadKeeps(m);
        consumed := consumed + [Cmd(boxReg[fwBox], boxExReg[fwBox])];
        hmetfr[fwBox] := false;
        fwBox := NextBox(fwBox);
        i := i + 1;
        assert State(driver) == Next(m, FirmwareRead);
      }
      if i < n {
        assert !State(driver).full[At(fwBox, 0)];
      }
    }

    /** read_poll_timeout_atomic on HMETFR: the firmware reads polls[i] boxes before the i-th poll. */
    method PollBox(cmd: Cmd, polls: seq<nat>) returns (ok: bool)
      requires Valid() && Inv(State(Polling(cmd))) && polls != []
      modifies hmetfr, this`fwBox, this`consumed
      ensures Valid() && Inv(State(Polling(cmd))) && |consumed| >= |old(consumed)|
      ensures ok <==> |sent| < |consumed| + BOXES
      ensures ok <==> |sent| < |old(consumed)| + BOXES || exists i :: 0 <= i < |polls| && polls[i] > 0
    {
      ok := false;
      var i := 0;
      while i < |polls| && !ok
        invariant 0 <= i <= |polls| && Valid() && Inv(State(Polling(cmd))) && |consumed| >= |old(consumed)|
        invariant ok <==> i > 0 && |sent| < |consumed| + BOXES
        invariant |sent| < |consumed| + BOXES
             <==> |sent| < |old(consumed)| + BOXES || exists j :: 0 <= j < i && polls[j] > 0
      {
        FirmwareReads(polls[i], Polling(cmd));
        PollFreeHasRoom(State(Polling(cmd)));
        ok := !hmetfr[lastBoxNum];
        i := i + 1;
      }
    }

    method WriteExtension(cmd: Cmd)
      requires Valid() && Inv(State(WritingExt(cmd)))
      modifies boxExReg
      ensures Inv(State(WritingMsg(cmd)))
    {
      WriteExtKeeps(State(WritingExt(cmd)));
      boxExReg[lastBoxNum] := cmd.ext;
    }

    method WriteMessage(cmd: Cmd)
      requires Valid() && Inv(State(WritingMsg(cmd)))
      modifies boxReg, hmetfr, this`lastBoxNum, this`sent
      ensures Inv(State(Ready)) && sent == old(sent) + [cmd]
    {
      ghost var m := State(WritingMsg(cmd));
      WriteMsgKeeps(m);
      boxReg[lastBoxNum], hmetfr[lastBoxNum] := cmd.msg, true;
      sent := sent + [cmd];
      lastBoxNum := NextBox(lastBoxNum);
      assert State(Ready) == Next(m, WriteMsg);
    }

    /** rtw_fw_send_h2c_command(_register), with the firmware reading boxes before each poll and each
        register write. The command is sent exactly when a box was free or the firmware freed one
        while polling, and it is never lost or put out of order. */
    method SendCommand(cmd: Cmd, polls: seq<nat>, beforeExt: nat, beforeMsg: nat) returns (ok: bool)
      requires Valid() && Inv(State(Ready)) && polls != []
      modifies boxReg, boxExReg, hmetfr, this`lastBoxNum, this`fwBox, this`sent, this`consumed, this`dropped
      ensures Valid() && Inv(State(Ready))
      ensures ok <==> |old(sent)| < |old(consumed)| + BOXES || exists i :: 0 <= i < |polls| && polls[i] > 0
      ensures sent == old(sent) + (if ok then [cmd] else []) && consumed <= sent
      ensures dropped == old(dropped) + if ok then [] else [cmd]
    {
      assert Inv(State(Polling(cmd)));
      ok := PollBox(cmd, polls);
      if !ok {
        dropped := dropped + [cmd];
        return;
      }
      assert Inv(State(WritingExt(cmd)));
      FirmwareReads(beforeExt, WritingExt(cmd));
      WriteExtension(cmd);
      FirmwareReads(beforeMsg, WritingMsg(cmd));
      WriteMessage(cmd);
    }
  }
}
