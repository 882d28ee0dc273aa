/** Dumping the packet FIFOs through a one-page window (fw.c): the page register selects which 4 KB
    page appears at the dump address, and the driver walks pages and words. */
module FifoDump {

  const FIFO_PAGE_SIZE := 4096
  const FIFO_DUMP_ADDR := 0x8000
  const PAGE_FIELD := 0x1000     // the page register keeps 12 bits for the page
  const IDX_RANGE := 0x1_0000    // the buffer index is a u16

  // ----- Where the walk reads -----

  /** A place in the window: page and byte offset. */
  datatype Place = Place(pg: nat, off: nat)

  function Flat(p: Place): nat {
    p.pg * FIFO_PAGE_SIZE + p.off
  }

  /** The next word: four bytes on, or the start of the next page when the window ends. */
  function Advance(p: Place): Place {
    if p.off + 4 < FIFO_PAGE_SIZE then Place(p.pg, p.off + 4) else Place(p.pg + 1, 0)
  }

  function Walk(start: Place, k: nat): (p: Place)
    ensures p.pg >= start.pg && (start.off < FIFO_PAGE_SIZE ==> p.off < FIFO_PAGE_SIZE)
  {
    if k == 0 then start else Advance(Walk(start, k - 1))
  }

  /** How many words the first page gives. */
  function FirstPageWords(off: nat): nat
    requires off < FIFO_PAGE_SIZE
  {
    (FIFO_PAGE_SIZE - off + 3) / 4
  }

  lemma {:induction false} WalkInFirstPage(start: Place, k: nat)
    requires start.off < FIFO_PAGE_SIZE && k < FirstPageWords(start.off)
    ensures Walk(start, k) == Place(start.pg, start.off + 4 * k)
  {
    if k > 0 {
      WalkInFirstPage(start, k - 1);
    }
  }

  lemma {:induction false} WalkAfterFirstPage(start: Place, k: nat)
    requires start.off < FIFO_PAGE_SIZE && k >= FirstPageWords(start.off)
    ensures Flat(Walk(start, k)) == (start.pg + 1) * FIFO_PAGE_SIZE + 4 * (k - FirstPageWords(start.off))
    ensures Walk(start, k).off % 4 == 0
    decreases k
  {
    if k == FirstPageWords(start.off) {
      WalkInFirstPage(start, k - 1);
    } else {
      WalkAfterFirstPage(start, k - 1);
    }
  }

  /** The k-th word comes from where a flat read would take it exactly when the start is aligned or
      the first page is not left. */
  lemma WalkIsFlatIff(start: Place, k: nat)
    requires start.off < FIFO_PAGE_SIZE
    ensures Flat(Walk(start, k)) == Flat(start) + 4 * k <==> start.off % 4 == 0 || k < FirstPageWords(start.off)
  {
    if k < FirstPageWords(start.off) {
      WalkInFirstPage(start, k);
    } else {
      WalkAfterFirstPage(start, k);
    }
  }

  // ----- What ends up in the buffer -----

  /** The last of the first n words that the wrapping index stores at entry j. */
  function LastStored(j: nat, n: nat): (k: nat)
    requires j < n
    ensures j <= k < n && k + IDX_RANGE >= n
    decreases n - j
  {
    if j + IDX_RANGE < n then LastStored(j + IDX_RANGE, n) else j
  }

  lemma {:induction false} LastStoredNext(j: nat, n: nat)
    requires j < n
    ensures LastStored(j, n + 1) == if j % IDX_RANGE == n % IDX_RANGE then n else LastStored(j, n)
    decreases n - j
  {
    if j + IDX_RANGE < n {
      LastStoredNext(j + IDX_RANGE, n);
    } else if j + IDX_RANGE == n {
      assert LastStored(j, n + 1) == LastStored(n, n + 1) == n;
    }
  }

  lemma LastStoredAt(j: nat, n: nat)
    requires j < IDX_RANGE && j <= n
    ensures j != n % IDX_RANGE ==> j < n && LastStored(j, n + 1) == LastStored(j, n)
    ensures j == n % IDX_RANGE ==> LastStored(j, n + 1) == n
  {
    if j < n {
      LastStoredNext(j, n);
    }
  }

  function Min(a: nat, b: nat): nat {
    if a < b then a else b
  }

  /** Every written entry j holds the word a flat read of n words would put there, whatever the
      memory holds: this is so exactly when n words fit the 16-bit index and the start is aligned
      or the first page is not left. */
  lemma DumpIsFlatIff(start: Place, n: nat)
    requires start.off < FIFO_PAGE_SIZE && n > 0
    ensures (forall j :: 0 <= j < Min(n, IDX_RANGE) ==> Flat(Walk(start, LastStored(j, n))) == Flat(start) + 4 * j)
       <==> n <= IDX_RANGE && (start.off % 4 == 0 || n <= FirstPageWords(start.off))
  {
    if n > IDX_RANGE {
      FlatGrows(start, LastStored(0, n));
      assert Flat(Walk(start, LastStored(0, n))) != Flat(start) + 4 * 0;
    } else {
      forall j | 0 <= j < n
        ensures Flat(Walk(start, LastStored(j, n))) == Flat(start) + 4 * j
           <==> start.off % 4 == 0 || j < FirstPageWords(start.off)
      {
        WalkIsFlatIff(start, j);
      }
      if start.off % 4 != 0 && n > FirstPageWords(start.off) {
        var j := FirstPageWords(start.off);
        assert Flat(Walk(start, LastStored(j, n))) != Flat(start) + 4 * j;
      }
    }
  }

  lemma {:induction false} FlatGrows(start: Place, k: nat)
    requires start.off < FIFO_PAGE_SIZE && k > 0
    ensures Flat(Walk(start, k)) > Flat(start)
    decreases k
  {
    if k > 1 {
      FlatGrows(start, k - 1);
    }
  }

  // ----- The hardware window and the driver's loops -----

  class PacketBuffer {
    const memory: nat -> nat   // the word at a flat address
    var ctrl: nat              // REG_PKTBUF_DBG_CTRL
    var clockOn: bool          // BIT_DISGCLK of REG_RCR

    constructor (memory: nat -> nat, ctrl: nat)
      ensures this.memory == memory && this.ctrl == ctrl && !clockOn
    {
      this.memory, this.ctrl, clockOn := memory, ctrl, false;
    }

    function Read32(addr: nat): nat
      requires FIFO_DUMP_ADDR <= addr
      reads this
    {
      memory(ctrl % PAGE_FIELD * FIFO_PAGE_SIZE + (addr - FIFO_DUMP_ADDR))
    }

    method StoreWord(buf: array<nat>, i: nat, idx: nat, ghost start: Place, ghost k: nat)
      requires FIFO_DUMP_ADDR <= i < FIFO_DUMP_ADDR + FIFO_PAGE_SIZE && idx == k % IDX_RANGE && idx < buf.Length
      requires Walk(start, k) == Place(ctrl % PAGE_FIELD, i - FIFO_DUMP_ADDR) && Stored(buf[..], start, k)
      modifies buf
      ensures Stored(buf[..], start, k + 1) && forall j :: 0 <= j < buf.Length && j != idx ==> buf[j] == old(buf[j])
    {
      ghost var before := buf[..];
      buf[idx] := Read32(i);
      StoreNext(before, start, k, memory(Flat(Walk(start, k))));
      assert buf[..] == before[idx := memory(Flat(Walk(start, k)))];
    }

    /** The inner loop of rtw_fw_read_fifo_page: from word k on, to the end of the page or of the dump. */
    method ReadWindow(buf: array<nat>, off: nat, left0: nat, idx0: nat, ghost start: Place, ghost k0: nat)
      returns (left: nat, idx: nat, ghost k: nat)
      requires off < FIFO_PAGE_SIZE && left0 > 0 && left0 % 4 == 0 && idx0 == k0 % IDX_RANGE
      requires buf.Length >= Min(k0 + left0 / 4, IDX_RANGE)
      requires Walk(start, k0) == Place(ctrl % PAGE_FIELD, off) && Stored(buf[..], start, k0)
      modifies buf
      ensures k > k0 && left + 4 * k == left0 + 4 * k0 && idx == k % IDX_RANGE && Stored(buf[..], start, k)
      ensures left > 0 ==> Walk(start, k) == Place(ctrl % PAGE_FIELD + 1, 0)
      ensures forall j :: Min(k0 + left0 / 4, IDX_RANGE) <= j < buf.Length ==> buf[j] == old(buf[j])
    {
      hide Stored, Flat, LastStored;
      left, idx, k := left0, idx0, k0;
      ghost var pg, top := ctrl % PAGE_FIELD, Min(k0 + left0 / 4, IDX_RANGE);
      var i := FIFO_DUMP_ADDR + off;
      while i < FIFO_DUMP_ADDR + FIFO_PAGE_SIZE
        invariant k >= k0 && left + 4 * k == left0 + 4 * k0 && idx == k % IDX_RANGE && left > 0
        invariant i >= FIFO_DUMP_ADDR + off && (k > k0 || i == FIFO_DUMP_ADDR + off)
        invariant Walk(start, k)
               == if i < FIFO_DUMP_ADDR + FIFO_PAGE_SIZE then Place(pg, i - FIFO_DUMP_ADDR) else Place(pg + 1, 0)
        invariant Stored(buf[..], start, k)
        invariant forall j :: top <= j < buf.Length ==> buf[j] == old(buf[j])
      {
        StoreWord(buf, i, idx, start, k);
        idx := (idx + 1) % IDX_RANGE;
        left, k := left - 4, k + 1;
        if left == 0 {
          return;
        }
        i := i + 4;
      }
    }

    /** rtw_fw_read_fifo_page: stores words size/4 of them, at an index that wraps at 16 bits, and
        leaves the page field cleared and the receive clock gated again. */
    method ReadFifoPage(size: nat, buf: array<nat>, residue: nat, startPg: nat)
      requires size > 0 && size % 4 == 0 && buf.Length >= Min(size / 4, IDX_RANGE) && residue < FIFO_PAGE_SIZE
      requires Walk(Place(startPg, residue), size / 4 - 1).pg < PAGE_FIELD
      modifies this`ctrl, this`clockOn, buf
      ensures forall j :: 0 <= j < Min(size / 4, IDX_RANGE) ==>
                buf[j] == memory(Flat(Walk(Place(startPg, residue), LastStored(j, size / 4))))
      ensures forall j :: Min(size / 4, IDX_RANGE) <= j < buf.Length ==> buf[j] == old(buf[j])
      ensures ctrl == old(ctrl) / PAGE_FIELD * PAGE_FIELD && !clockOn
    {
      ghost var start, n := Place(startPg, residue), size / 4;
      var ctl := ctrl / PAGE_FIELD * PAGE_FIELD;
      clockOn := true;
      var left: nat, idx: nat, off: nat, pg: nat := size, 0, residue, startPg;
      ghost var k: nat := 0;
      while left > 0
        invariant left + 4 * k == 4 * n && idx == k % IDX_RANGE && off < FIFO_PAGE_SIZE
        invariant left > 0 ==> Place(pg, off) == Walk(start, k)
        invariant Stored(buf[..], start, k)
        invariant forall j :: Min(n, IDX_RANGE) <= j < buf.Length ==> buf[j] == old(buf[j])
        decreases left
      {
        PagesGrow(start, k, n - 1);
        ctrl := pg + ctl;
        PageSelected(ctl, pg);
        left, idx, k := ReadWindow(buf, off, left, idx, start, k);
        off, pg := 0, pg + 1;
      }
      assert k == n;
      ctrl := ctl;
      clockOn := false;
    }

    lemma PageSelected(ctl: nat, pg: nat)
      requires ctl % PAGE_FIELD == 0 && pg < PAGE_FIELD
      ensures (pg + ctl) % PAGE_FIELD == pg
    {
    }

    /** The entries written so far hold the last word stored in each of them. */
    ghost predicate Stored(buf: seq<nat>, start: Place, k: nat) {
      forall j :: 0 <= j < Min(Min(k, IDX_RANGE), |buf|) ==> buf[j] == memory(Flat(Walk(start, LastStored(j, k))))
    }

    lemma StoreNext(buf: seq<nat>, start: Place, k: nat, word: nat)
      requires Stored(buf, start, k) && k % IDX_RANGE < |buf| && word == memory(Flat(Walk(start, k)))
      ensures Stored(buf[k % IDX_RANGE := word], start, k + 1)
    {
      var next := buf[k % IDX_RANGE := word];
      forall j: nat | j < Min(Min(k + 1, IDX_RANGE), |buf|)
        ensures next[j] == memory(Flat(Walk(start, LastStored(j, k + 1))))
      {
        LastStoredAt(j, k);
      }
    }
  }

  // ----- The entry point -----

  datatype Result = Ok | NotSupported | Invalid

  const SEL_TX := 0
  const SEL_RX := 1
  const SEL_RSVD_PAGE := 2
  const SEL_MAX := 6
  const TX_PAGE_SIZE := 128

  /** The flat address a dump of FIFO `sel` starts at: the FIFO's first page, plus the offset, which
      counts from the reserved-page boundary for the reserved pages. */
  function DumpBase(fifoPage: nat, sel: nat, rsvdBoundary: nat, offset: nat): (base: nat)
    ensures sel == 2 ==> base == fifoPage * 4096 + 128 * rsvdBoundary + offset
    ensures sel != 2 ==> base == fifoPage * 4096 + offset
  {
    fifoPage * FIFO_PAGE_SIZE + offset + if sel == SEL_RSVD_PAGE then rsvdBoundary * TX_PAGE_SIZE else 0
  }

  type U32 = x: int | 0 <= x < 0x1_0000_0000

  function AddU32(a: U32, b: U32): U32 {
    (a + b) % 0x1_0000_0000
  }

  /** Size and address checks of rtw_fw_dump_fifo, in its order; the end address is a u32. */
  function Check(fifoAddr: seq<nat>, sel: nat, addr: U32, size: U32): (r: Result)
    requires |fifoAddr| == SEL_MAX
    ensures r.NotSupported? <==> fifoAddr[0] == 0
    ensures r.Ok? ==> size > 0 && size % 4 == 0
    ensures r.Ok? && sel <= 1 ==> AddU32(addr, size) <= fifoAddr[sel]
    ensures r.Invalid? && size > 0 && size % 4 == 0 ==> sel <= 1 && AddU32(addr, size) > fifoAddr[sel]
  {
    if fifoAddr[0] == 0 then NotSupported
    else if size == 0 then Invalid
    else if size % 4 != 0 then Invalid
    else if (sel == SEL_TX || sel == SEL_RX) && AddU32(addr, size) > fifoAddr[sel] then Invalid
    else Ok
  }

  /** A dump of the transmit or the receive FIFO that passes the checks ends at or before the address
      it is checked against exactly when its end address does not wrap. */
  lemma AcceptedEndsInBoundsIff(fifoAddr: seq<nat>, sel: nat, addr: U32, size: U32)
    requires |fifoAddr| == SEL_MAX && sel <= 1 && fifoAddr[sel] < 0x1_0000_0000
    requires Check(fifoAddr, sel, addr, size).Ok?
    ensures addr + size <= fifoAddr[sel] <==> addr + size < 0x1_0000_0000
  {
  }

  /** A dump whose end address wraps is accepted, wherever it starts. */
  lemma WrappedEndIsAccepted(fifoAddr: seq<nat>)
    requires |fifoAddr| == SEL_MAX && fifoAddr[0] >= 4
    ensures Check(fifoAddr, SEL_TX, 0xffff_fffc, 8).Ok?
  {
    assert AddU32(0xffff_fffc, 8) == 4;
  }

  /** rtw_fw_dump_fifo into a buffer of the requested size: an aligned dump that fits the 16-bit
      index is the flat contents of the FIFO from its base on. */
  method DumpFifo(hw: PacketBuffer, fifoAddr: seq<nat>, rsvdBoundary: nat, sel: nat, addr: U32, size: U32,
                  buf: array<nat>)
    returns (r: Result)
    requires |fifoAddr| == SEL_MAX && buf.Length == size / 4
    requires Check(fifoAddr, sel, addr, size).Ok? && sel < SEL_MAX ==>
               DumpBase(fifoAddr[sel], sel, rsvdBoundary, addr) + size <= PAGE_FIELD * FIFO_PAGE_SIZE
    modifies hw`ctrl, hw`clockOn, buf
    ensures r == Check(fifoAddr, sel, addr, size)
    ensures r.Ok? <==> && fifoAddr[0] != 0 && size > 0 && size % 4 == 0
                       && (sel == 0 || sel == 1 ==> AddU32(addr, size) <= fifoAddr[sel])
    ensures r != Ok || sel >= SEL_MAX ==> buf[..] == old(buf[..])
    ensures r == Ok && sel < SEL_MAX && size / 4 <= IDX_RANGE && addr % 4 == 0 ==>
              forall j :: 0 <= j < size / 4 ==>
                buf[j] == hw.memory(DumpBase(fifoAddr[sel], sel, rsvdBoundary, addr) + 4 * j)
  {
    hide Walk, LastStored, Check, AddU32;
    r := Check(fifoAddr, sel, addr, size);
    if r != Ok || sel >= SEL_MAX {
      return;
    }
    var offset := addr + if sel == SEL_RSVD_PAGE then rsvdBoundary * TX_PAGE_SIZE else 0;
    var residue, startPg := offset % FIFO_PAGE_SIZE, offset / FIFO_PAGE_SIZE + fifoAddr[sel];
    ghost var start, n := Place(startPg, residue), size / 4;
    StartIsBase(offset, fifoAddr[sel]);
    WalkBound(start, n - 1);
    hw.ReadFifoPage(size, buf, residue, startPg);
    if n <= IDX_RANGE && addr % 4 == 0 {
      AlignedStart(sel, rsvdBoundary, addr);
      DumpIsFlatIff(start, n);
      forall j | 0 <= j < n
        ensures buf[j] == hw.memory(Flat(start) + 4 * j)
      {
        assert Flat(Walk(start, LastStored(j, n))) == Flat(start) + 4 * j;
      }
    }
  }

  lemma StartIsBase(offset: nat, fifoPage: nat)
    ensures Flat(Place(offset / FIFO_PAGE_SIZE + fifoPage, offset % FIFO_PAGE_SIZE))
         == fifoPage * FIFO_PAGE_SIZE + offset
  {
  }

  lemma AlignedStart(sel: nat, rsvdBoundary: nat, addr: nat)
    requires addr % 4 == 0
    ensures (addr + if sel == SEL_RSVD_PAGE then rsvdBoundary * TX_PAGE_SIZE else 0) % FIFO_PAGE_SIZE % 4 == 0
  {
  }

  lemma WalkBound(start: Place, k: nat)
    requires start.off < FIFO_PAGE_SIZE && Flat(start) + 4 * (k + 1) <= PAGE_FIELD * FIFO_PAGE_SIZE
    ensures Walk(start, k).pg < PAGE_FIELD
  {
    if k < FirstPageWords(start.off) {
      WalkInFirstPage(start, k);
    } else {
      WalkAfterFirstPage(start, k);
    }
  }

  lemma {:induction false} PagesGrow(start: Place, a: nat, b: nat)
    requires a <= b
    ensures Walk(start, a).pg <= Walk(start, b).pg
    decreases b - a
  {
    if a < b {
      PagesGrow(start, a, b - 1);
    }
  }
}
