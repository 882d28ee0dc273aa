/** What the coexistence decisions put on an 8821C (rtw8821c.c): the values of the two priority registers
    and the bytes of the TDMA pattern, by the situation that an action meets. The actions name their
    selections by number; here the numbers are looked up in the chip's arrays. */
module CoexTables {
  import opened Coex
  import opened Wrappers

  /** The priority tables for a shared antenna, by case number. */
  function SharedTable(t: nat): Entry {
    match t
    case 0 => Entry(0x55555555, 0x55555555)
    case 1 => Entry(0x55555555, 0x55555555)
    case 2 => Entry(0x66555555, 0x66555555)
    case 3 => Entry(0xaaaaaaaa, 0xaaaaaaaa)
    case 4 => Entry(0x5a5a5a5a, 0x5a5a5a5a)
    case 5 => Entry(0xfafafafa, 0xfafafafa)
    case 6 => Entry(0x6a5a5555, 0xaaaaaaaa)
    case 7 => Entry(0x6a5a56aa, 0x6a5a56aa)
    case 8 => Entry(0x6a5a5a5a, 0x6a5a5a5a)
    case 9 => Entry(0x66555555, 0x5a5a5a5a)
    case 10 => Entry(0x66555555, 0x6a5a5a5a)
    case 11 => Entry(0x66555555, 0xaaaaaaaa)
    case 12 => Entry(0x66555555, 0x6a5a5aaa)
    case 13 => Entry(0x66555555, 0x6aaa6aaa)
    case 14 => Entry(0x66555555, 0x6a5a5aaa)
    case 15 => Entry(0x66555555, 0xaaaaaaaa)
    case 16 => Entry(0xffff55ff, 0xfafafafa)
    case 17 => Entry(0xffff55ff, 0x6afa5afa)
    case 18 => Entry(0xaaffffaa, 0xfafafafa)
    case 19 => Entry(0xaa5555aa, 0x5a5a5a5a)
    case 20 => Entry(0xaa5555aa, 0x6a5a5a5a)
    case 21 => Entry(0xaa5555aa, 0xaaaaaaaa)
    case 22 => Entry(0xffffffff, 0x55555555)
    case 23 => Entry(0xffffffff, 0x5a5a5a5a)
    case 24 => Entry(0xffffffff, 0x5a5a5a5a)
    case 25 => Entry(0xffffffff, 0x5a5a5aaa)
    case 26 => Entry(0x55555555, 0x5a5a5a5a)
    case 27 => Entry(0x55555555, 0xaaaaaaaa)
    case 28 => Entry(0x66555555, 0x6a5a6a5a)
    case 29 => Entry(0x66556655, 0x66556655)
    case 30 => Entry(0x66556aaa, 0x6a5a6aaa)
    case 31 => Entry(0xffffffff, 0x5aaa5aaa)
    case 32 => Entry(0x56555555, 0x5a5a5aaa)
    case _ => Entry(0, 0)
  }

  /** Those for an antenna of its own. */
  function OwnTable(t: nat): Entry {
    match t
    case 100 => Entry(0xffffffff, 0xffffffff)
    case 101 => Entry(0xffff55ff, 0xfafafafa)
    case 102 => Entry(0x66555555, 0x66555555)
    case 103 => Entry(0xaaaaaaaa, 0xaaaaaaaa)
    case 104 => Entry(0x5a5a5a5a, 0x5a5a5a5a)
    case 105 => Entry(0xffffffff, 0xffffffff)
    case 106 => Entry(0x5afa5afa, 0x5afa5afa)
    case 107 => Entry(0x55555555, 0xfafafafa)
    case 108 => Entry(0x66555555, 0xfafafafa)
    case 109 => Entry(0x66555555, 0x5a5a5a5a)
    case 110 => Entry(0x66555555, 0x6a5a5a5a)
    case 111 => Entry(0x66555555, 0xaaaaaaaa)
    case 112 => Entry(0xffff55ff, 0xfafafafa)
    case 113 => Entry(0xffff55ff, 0x5afa5afa)
    case 114 => Entry(0xffff55ff, 0xaaaaaaaa)
    case 115 => Entry(0xffff55ff, 0xffff55ff)
    case 116 => Entry(0xaaffffaa, 0x5afa5afa)
    case 117 => Entry(0xaaffffaa, 0xaaaaaaaa)
    case 118 => Entry(0xffffffff, 0xfafafafa)
    case 119 => Entry(0xffff55ff, 0xfafafafa)
    case 120 => Entry(0xffffffff, 0xaaaaaaaa)
    case 121 => Entry(0xffff55ff, 0x5afa5afa)
    case 122 => Entry(0xffff55ff, 0x5afa5afa)
    case 123 => Entry(0x55ff55ff, 0x55ff55ff)
    case _ => Entry(0, 0)
  }

  /** The TDMA patterns for a shared antenna. */
  function SharedPattern(t: nat): seq<U8> {
    match t
    case 0 => [0x00, 0x00, 0x00, 0x00, 0x00]
    case 1 => [0x61, 0x45, 0x03, 0x11, 0x11]
    case 2 => [0x61, 0x3a, 0x03, 0x11, 0x11]
    case 3 => [0x61, 0x35, 0x03, 0x11, 0x11]
    case 4 => [0x61, 0x20, 0x03, 0x11, 0x11]
    case 5 => [0x61, 0x3a, 0x03, 0x11, 0x11]
    case 6 => [0x61, 0x45, 0x03, 0x11, 0x10]
    case 7 => [0x61, 0x35, 0x03, 0x11, 0x10]
    case 8 => [0x61, 0x30, 0x03, 0x11, 0x10]
    case 9 => [0x61, 0x20, 0x03, 0x11, 0x10]
    case 10 => [0x61, 0x10, 0x03, 0x11, 0x10]
    case 11 => [0x61, 0x08, 0x03, 0x11, 0x15]
    case 12 => [0x61, 0x08, 0x03, 0x10, 0x14]
    case 13 => [0x51, 0x08, 0x03, 0x10, 0x54]
    case 14 => [0x51, 0x08, 0x03, 0x10, 0x55]
    case 15 => [0x51, 0x08, 0x07, 0x10, 0x54]
    case 16 => [0x51, 0x45, 0x03, 0x10, 0x50]
    case 17 => [0x51, 0x3a, 0x03, 0x11, 0x50]
    case 18 => [0x51, 0x30, 0x03, 0x10, 0x50]
    case 19 => [0x51, 0x21, 0x03, 0x10, 0x50]
    case 20 => [0x51, 0x10, 0x03, 0x10, 0x50]
    case 21 => [0x51, 0x4a, 0x03, 0x10, 0x50]
    case 22 => [0x51, 0x08, 0x03, 0x30, 0x54]
    case 23 => [0x55, 0x08, 0x03, 0x10, 0x54]
    case 24 => [0x65, 0x10, 0x03, 0x11, 0x10]
    case 25 => [0x51, 0x10, 0x03, 0x10, 0x51]
    case 26 => [0x51, 0x21, 0x03, 0x10, 0x50]
    case 27 => [0x61, 0x08, 0x03, 0x11, 0x11]
    case _ => []
  }

  /** Those for an antenna of its own. */
  function OwnPattern(t: nat): seq<U8> {
    match t
    case 100 => [0x00, 0x00, 0x00, 0x40, 0x00]
    case 101 => [0x61, 0x45, 0x03, 0x11, 0x11]
    case 102 => [0x61, 0x25, 0x03, 0x11, 0x11]
    case 103 => [0x61, 0x35, 0x03, 0x11, 0x11]
    case 104 => [0x61, 0x20, 0x03, 0x11, 0x11]
    case 105 => [0x61, 0x10, 0x03, 0x11, 0x11]
    case 106 => [0x61, 0x45, 0x03, 0x11, 0x10]
    case 107 => [0x61, 0x30, 0x03, 0x11, 0x10]
    case 108 => [0x61, 0x30, 0x03, 0x11, 0x10]
    case 109 => [0x61, 0x20, 0x03, 0x11, 0x10]
    case 110 => [0x61, 0x10, 0x03, 0x11, 0x10]
    case 111 => [0x61, 0x10, 0x03, 0x11, 0x11]
    case 112 => [0x61, 0x08, 0x03, 0x10, 0x14]
    case 113 => [0x51, 0x08, 0x03, 0x10, 0x54]
    case 114 => [0x51, 0x08, 0x03, 0x10, 0x55]
    case 115 => [0x51, 0x08, 0x07, 0x10, 0x54]
    case 116 => [0x51, 0x45, 0x03, 0x10, 0x50]
    case 117 => [0x51, 0x3a, 0x03, 0x10, 0x50]
    case 118 => [0x51, 0x30, 0x03, 0x10, 0x50]
    case 119 => [0x51, 0x21, 0x03, 0x10, 0x50]
    case 120 => [0x51, 0x21, 0x03, 0x10, 0x50]
    case 121 => [0x51, 0x10, 0x03, 0x10, 0x50]
    case _ => []
  }

  predicate Is8821C(d: Chip) {
    && Arrays8821C(d)
    && (forall i :: 0 <= i < 33 ==> d.sharedTables[i] == SharedTable(i))
    && (forall i :: 0 <= i < 24 ==> d.ownTables[i] == OwnTable(100 + i))
    && (forall i :: 0 <= i < 28 ==> d.sharedTdma[i] == SharedPattern(i))
    && (forall i :: 0 <= i < 22 ==> d.ownTdma[i] == OwnPattern(100 + i))
  }

  /** The selection leads to these register values and pattern bytes. */
  predicate Sets(d: Chip, c: Choice, bt: nat, wl: nat, para: seq<U8>) {
    var t, p := Index(d, c.table), Index(d, c.tdma);
    t < |d.Tables()| && p < |d.Tdmas()| && d.Tables()[t] == Entry(bt, wl) && d.Tdmas()[p] == para
  }

  const SHARED_OFF: seq<U8> := [0x00, 0x00, 0x00, 0x00, 0x00]
  const OWN_OFF: seq<U8> := [0x00, 0x00, 0x00, 0x40, 0x00]

  /** An antenna of its own that Wi-Fi has to itself. */
  predicate SetsOwnFree(d: Chip, c: Choice) {
    Sets(d, c, 0xffffffff, 0xffffffff, OWN_OFF)
  }

  // ----- Without a time division -----

  /** Bluetooth off, under a test, or going to sleep; no time division. */
  lemma QuietSets(d: Chip)
    requires Is8821C(d)
    ensures forall c :: c == AllOff(d) || c == WhqlTest(d) || c == WlOnly(d) ==>
              !c.fourSlot && if d.share then Sets(d, c, 0x66555555, 0x66555555, SHARED_OFF) else SetsOwnFree(d, c)
  {
  }

  /** Not connected, or on 5 GHz: Bluetooth has the priority in the registers. */
  lemma AwaySets(d: Chip, o: Obs, game: bool)
    requires Is8821C(d)
    ensures forall c :: c == NotConnected(d) || c == Under5g(d, o, game) ==>
              !c.fourSlot && if d.share then Sets(d, c, 0x55555555, 0x55555555, SHARED_OFF) else SetsOwnFree(d, c)
  {
  }

  lemma NativeLpsSets(d: Chip, o: Obs, game: bool)
    requires Is8821C(d)
    ensures var c := NativeLps(d, o, game);
            && !c.fourSlot && c.free == game && c.tx == (game && o.tputTx)
            && c.rf == (if !game then 0 else if o.tputTx then 6 else 5)
            && if d.share then Sets(d, c, 0x66555555, 0x6a5a6a5a, SHARED_OFF) else SetsOwnFree(d, c)
  {
  }

  /** Free running: no time division, and the stronger the Wi-Fi signal the lower the RF parameter; those
      of the transmit array exactly for the transmit direction. */
  lemma FreerunSets(d: Chip, o: Obs)
    requires Is8821C(d) && !d.share
    ensures var c := Freerun(d, o).value;
            && SetsOwnFree(d, c) && !c.fourSlot && c.tx == o.tputTx && 2 <= c.rf <= 5
            && (c.rf == 2 <==> o.wlHigh0) && (c.rf <= 3 <==> o.wlHigh0 || o.wlHigh1)
            && (c.rf <= 4 <==> o.wlHigh0 || o.wlHigh1 || o.wlHigh2)
  {
  }

  // ----- Scanning and paging -----

  lemma LinkscanSets(d: Chip, o: Obs)
    requires Is8821C(d)
    ensures var c := Linkscan(d, o);
            && c.fourSlot == o.a2dp
            && (d.share && o.a2dp && o.busy ==> Sets(d, c, 0x55555555, 0x5a5a5a5a, [0x61, 0x08, 0x03, 0x11, 0x15]))
            && (d.share && o.a2dp && !o.busy ==> Sets(d, c, 0x66555555, 0x5a5a5a5a, [0x61, 0x08, 0x03, 0x11, 0x15]))
            && (d.share && !o.a2dp ==> Sets(d, c, 0x66555555, 0x5a5a5a5a, [0x61, 0x35, 0x03, 0x11, 0x10]))
            && (!d.share ==> Sets(d, c, 0xffff55ff, 0xfafafafa,
                                  if o.a2dp then [0x61, 0x10, 0x03, 0x11, 0x11] else [0x61, 0x30, 0x03, 0x11, 0x10]))
  {
  }

  lemma RelinkSets(d: Chip, o: Obs)
    requires Is8821C(d)
    ensures var c := Relink(d, o);
            && (c.fourSlot <==> d.share && o.busy && o.hid && o.profiles == 1)
            && (d.share && o.busy ==> Sets(d, c, 0x55555555, 0x5a5a5a5a, [0x51, 0x10, 0x03, 0x10, 0x50]))
            && (d.share && !o.busy ==> Sets(d, c, 0x55555555, 0x55555555, SHARED_OFF))
            && (!d.share && o.busy ==> Sets(d, c, 0xffff55ff, 0xffff55ff, OWN_OFF))
            && (!d.share && !o.busy ==> SetsOwnFree(d, c))
  {
  }

  predicate WlHiPri(o: Obs) {
    o.linkscan || o.hiPri1 || o.hiPri2
  }

  /** While paging, a Wi-Fi task of high priority gets a slot that is longer the less Bluetooth has
      to do: with a profile 0x10, else 0x45 for a task of the first kind, 0x30 or (paging) 0x20. */
  lemma InquiryHiPriSets(d: Chip, o: Obs)
    requires Is8821C(d) && WlHiPri(o)
    ensures var c := Inquiry(d, o);
            var slot := if o.profiles > 0 then 0x10 else if o.hiPri1 then 0x45 else if o.page then 0x20 else 0x30;
            && !c.fourSlot
            && Sets(d, c, if d.share then 0x66555555 else 0xffff55ff, 0xaaaaaaaa, [0x61, slot, 0x03, 0x11, 0x10])
  {
  }

  lemma InquirySets(d: Chip, o: Obs)
    requires Is8821C(d) && !WlHiPri(o)
    ensures var c := Inquiry(d, o);
            && (c.fourSlot <==> d.share && o.busy && o.profiles > 0)
            && (d.share && o.busy ==>
                  Sets(d, c, 0x66555555, 0x6a5a5aaa,
                       [0x51, if o.profiles == 0 then 0x30 else if o.profiles == 1 && !o.a2dp then 0x10 else 0x21,
                        0x03, 0x10, 0x50]))
            && (d.share && !o.busy && o.connected ==>
                  Sets(d, c, 0x66555555, 0x5a5a5a5a, [0x61, 0x08, 0x03, 0x11, 0x11]))
            && (d.share && !o.busy && !o.connected ==> Sets(d, c, 0x55555555, 0x55555555, SHARED_OFF))
            && (!d.share && o.busy ==> Sets(d, c, 0xffff55ff, 0xaaaaaaaa, [0x51, 0x10, 0x03, 0x10, 0x50]))
            && (!d.share && !o.busy ==> Sets(d, c, 0xffff55ff, 0xfafafafa, OWN_OFF))
  {
  }

  // ----- Connected, by profile -----

  /** The antenna is switched to Wi-Fi for good: nothing is connected over Bluetooth and the antenna can be. */
  predicate AntennaFree(d: Chip, o: Obs) {
    o.antSwitchWithBt && o.btStatus.NconIdle? && (d.share ==> o.wlHigh3 && o.busy)
  }

  lemma BtIdleSets(d: Chip, o: Obs)
    requires Is8821C(d) && !AntennaFree(d, o)
    ensures var c := BtIdle(d, o);
            && !c.fourSlot
            && (d.share && !o.busy ==> Sets(d, c, 0x66555555, 0x6a5a5a5a, [0x61, 0x35, 0x03, 0x11, 0x11]))
            && (d.share && o.busy && o.btStatus.NconIdle? ==>
                  Sets(d, c, 0x66555555, 0xaaaaaaaa,
                       if o.loPri > 250 then [0x51, 0x3a, 0x03, 0x11, 0x50] else [0x61, 0x35, 0x03, 0x11, 0x10]))
            && (d.share && o.busy && !o.btStatus.NconIdle? ==>
                  Sets(d, c, 0x66555555, 0x6a5a5aaa, [0x61, 0x35, 0x03, 0x11, 0x10]))
            && (!d.share ==> Sets(d, c, 0xffff55ff,
                                  if o.busy && o.bleScan && o.btStatus.NconIdle? then 0xaaaaaaaa else 0xfafafafa,
                                  [0x61, if o.busy then 0x35 else 0x20, 0x03, 0x11, 0x11]))
  {
  }

  lemma BtIdleFreeSets(d: Chip, o: Obs)
    requires Is8821C(d) && AntennaFree(d, o)
    ensures var c := BtIdle(d, o);
            !c.fourSlot && if d.share then Sets(d, c, 0x55555555, 0x55555555, SHARED_OFF) else SetsOwnFree(d, c)
  {
  }

  lemma BtHfpSets(d: Chip, o: Obs)
    requires Is8821C(d)
    ensures var c := BtHfp(d, o);
            && !c.fourSlot
            && (d.share ==> Sets(d, c, 0x66555555, 0x6a5a5a5a, [0x61, 0x3a, 0x03, 0x11, 0x11]))
            && (!d.share && o.multiLink ==> Sets(d, c, 0xffff55ff, 0xfafafafa, [0x51, 0x3a, 0x03, 0x10, 0x50]))
            && (!d.share && !o.multiLink ==> SetsOwnFree(d, c))
  {
  }

  /** A remote control gets a short Wi-Fi slot unless many access points are around. */
  lemma BtHidBleSets(d: Chip, o: Obs)
    requires Is8821C(d) && o.ble
    ensures var c := BtHid(d, o);
            && !c.fourSlot
            && (d.share ==> Sets(d, c, 0x55555555, if o.manyAps then 0x5a5a5a5a else 0xaaaaaaaa,
                                 if o.manyAps then [0x61, 0x3a, 0x03, 0x11, 0x11] else [0x61, 0x20, 0x03, 0x11, 0x10]))
            && (!d.share ==> Sets(d, c, 0xffff55ff, 0x5afa5afa,
                                  if o.manyAps then [0x61, 0x25, 0x03, 0x11, 0x11] else [0x61, 0x20, 0x03, 0x11, 0x10]))
  {
  }

  /** Bluetooth shows more than the one HID device: several links, much low-priority traffic, or a slave role. */
  predicate BusyHid(o: Obs) {
    o.profiles == 1 && (o.multiLink || o.loPri > 360 || o.slave)
  }

  lemma BtHidSets(d: Chip, o: Obs)
    requires Is8821C(d) && !o.ble
    ensures var c := BtHid(d, o);
            && (c.fourSlot <==> d.share && (BusyHid(o) || (!o.a2dpActive && o.hid418 && o.busy)))
            && (d.share && BusyHid(o) ==> Sets(d, c, 0x66555555, 0x6a5a5aaa, [0x51, 0x10, 0x03, 0x10, 0x50]))
            && (d.share && !BusyHid(o) && o.a2dpActive ==>
                  Sets(d, c, 0x66555555, 0x5a5a5a5a, [0x51, 0x30, 0x03, 0x10, 0x50]))
            && (d.share && !BusyHid(o) && !o.a2dpActive && o.busy && o.hid418 ==>
                  Sets(d, c, 0x66555555, 0x5a5a5a5a, [0x65, 0x10, 0x03, 0x11, 0x10]))
            && (d.share && !BusyHid(o) && !o.a2dpActive && o.busy && !o.hid418 && o.bleHid ==>
                  Sets(d, c, 0x56555555, 0x5a5a5aaa, [0x61, 0x20, 0x03, 0x11, 0x10]))
            && (d.share && !BusyHid(o) && !o.a2dpActive && (!o.busy || (!o.hid418 && !o.bleHid)) ==>
                  Sets(d, c, 0x66555555, 0x5a5a5a5a, [0x61, 0x20, 0x03, 0x11, 0x10]))
            && (!d.share && o.a2dpActive ==> Sets(d, c, 0xffff55ff, 0x5afa5afa, [0x51, 0x30, 0x03, 0x10, 0x50]))
            && (!d.share && !o.a2dpActive ==> Sets(d, c, 0xffff55ff, 0x5afa5afa, [0x61, 0x20, 0x03, 0x11, 0x11]))
  {
  }

  /** Music with an antenna of its own: a pattern that leaves power save alone when the signal is strong. */
  function OwnA2dpPara(o: Obs): seq<U8> {
    if o.wlHigh1 then [0x61, 0x08, 0x03, 0x10, 0x14] else [0x51, 0x08, 0x03, 0x10, 0x54]
  }

  lemma BtA2dpSets(d: Chip, o: Obs)
    requires Is8821C(d)
    ensures var c := BtA2dp(d, o);
            && c.fourSlot
            && (d.share ==> Sets(d, c, 0x66555555, if o.busy && !o.noisy then 0x6a5a5aaa else 0x5a5a5a5a,
                                 [0x51, 0x08, 0x03, 0x10, if o.busy && !o.connecting then 0x54 else 0x55]))
            && (!d.share ==> Sets(d, c, 0xffff55ff, 0xfafafafa, OwnA2dpPara(o)))
  {
  }

  lemma BtA2dpHidSets(d: Chip, o: Obs)
    requires Is8821C(d)
    ensures var c := BtA2dpHid(d, o);
            && c.fourSlot
            && (d.share && o.busy && !o.connecting ==>
                  Sets(d, c, if o.ble then 0x55555555 else 0x66555555, 0x5a5a5a5a,
                       [if o.hid418 then 0x55 else 0x51, 0x08, 0x03, 0x10, 0x54]))
            && (d.share && (!o.busy || o.connecting) ==>
                  Sets(d, c, if o.ble then 0x55555555 else 0x66555555, 0x5a5a5a5a, [0x51, 0x08, 0x03, 0x10, 0x55]))
            && (!d.share ==> Sets(d, c, 0xffff55ff, 0x5afa5afa, OwnA2dpPara(o)))
  {
  }

  lemma BtA2dpSinkSets(d: Chip, o: Obs)
    requires Is8821C(d)
    ensures var c := BtA2dpSink(d, o);
            && !c.fourSlot
            && (d.share ==> Sets(d, c, 0x66555555, 0x6a5a6a5a, [0x51, if o.busy then 0x10 else 0x21, 0x03, 0x10, 0x50]))
            && (!d.share ==> Sets(d, c, 0xffff55ff, 0xfafafafa, [0x51, 0x21, 0x03, 0x10, 0x50]))
  {
  }

  lemma BtPanSets(d: Chip, o: Obs)
    requires Is8821C(d)
    ensures var c := BtPan(d, o);
            && !c.fourSlot
            && (d.share ==> Sets(d, c, 0x66555555, if o.busy && !o.noisy then 0x6a5a5aaa else 0x6a5a5a5a,
                                 if o.busy then [0x51, 0x3a, 0x03, 0x11, 0x50] else [0x51, 0x10, 0x03, 0x10, 0x50]))
            && (!d.share ==>
                  Sets(d, c, 0xffff55ff, 0xfafafafa, [0x51, if o.busy then 0x3a else 0x21, 0x03, 0x10, 0x50]))
  {
  }

  lemma BtPanHidSets(d: Chip, o: Obs)
    requires Is8821C(d)
    ensures var c := BtPanHid(d, o);
            && !c.fourSlot
            && (d.share ==> Sets(d, c, 0x66555555, 0x5a5a5a5a, [0x51, if o.busy then 0x30 else 0x21, 0x03, 0x10, 0x50]))
            && (!d.share ==>
                  Sets(d, c, 0xffff55ff, 0x5afa5afa, [0x51, if o.busy then 0x3a else 0x21, 0x03, 0x10, 0x50]))
  {
  }

  /** Music next to a network: the pattern with the long music slot while Wi-Fi is busy. */
  function A2dpPanPara(d: Chip, o: Obs): seq<U8> {
    if o.busy then [0x51, 0x08, 0x07, 0x10, 0x54] else [0x51, if d.share then 0x10 else 0x21, 0x03, 0x10, 0x50]
  }

  lemma BtA2dpPanSets(d: Chip, o: Obs)
    requires Is8821C(d)
    ensures var c := BtA2dpPan(d, o);
            && !c.fourSlot
            && (d.share ==>
                  Sets(d, c, 0x66555555, if o.busy && !o.noisy then 0x6a5a5aaa else 0x6a5a5a5a, A2dpPanPara(d, o)))
            && (!d.share ==> Sets(d, c, 0xffff55ff, 0xfafafafa, A2dpPanPara(d, o)))
  {
  }

  lemma BtA2dpPanHidSets(d: Chip, o: Obs)
    requires Is8821C(d)
    ensures var c := BtA2dpPanHid(d, o);
            && !c.fourSlot
            && (d.share ==> Sets(d, c, 0x66555555, 0x6a5a5a5a, A2dpPanPara(d, o)))
            && (!d.share ==> Sets(d, c, 0xffff55ff, 0x5afa5afa, A2dpPanPara(d, o)))
  {
  }

  /** A game controller next to an antenna of its own: as for music. */
  lemma GameHidOwnSets(d: Chip, o: Obs)
    requires Is8821C(d) && !d.share
    ensures var c := GameHid(d, o);
            && !c.free && !c.fourSlot && c.rf == 0 && !c.tx
            && Sets(d, c, 0xffff55ff, 0x5afa5afa, OwnA2dpPara(o))
  {
  }

  /** With a shared antenna it runs freely without a time division; outside a test, relinking and paging it
      wants one of two tables that the 8821C does not have, the second for music without other HID. */
  lemma GameHidSharedSets(d: Chip, o: Obs)
    requires Is8821C(d) && d.share
    ensures var c := GameHid(d, o);
            var calm := !o.whck && !o.linkscan && !o.hid;
            && c.free && !c.fourSlot && c.tx == o.tputTx && c.rf == (if o.tputTx then 6 else 5)
            && c.tdma == 0 && d.sharedTdma[0] == SHARED_OFF
            && (o.whck ==> Sets(d, c, 0x66555555, 0x66555555, SHARED_OFF))
            && (calm && (o.setupLink || o.inqPage) ==> Sets(d, c, 0x55555555, 0x55555555, SHARED_OFF))
            && (!o.whck && !(calm && (o.setupLink || o.inqPage)) ==> c.table == if calm && o.a2dp then 34 else 33)
  {
  }

  // ----- Who is in charge of the firmware's power save -----

  /** The pattern keeps firmware from entering power save by itself. */
  predicate Forces(d: Chip, c: Choice) {
    var p := Index(d, c.tdma);
    p < |d.Tdmas()| && d.Tdmas()[p] != [] && d.Tdmas()[p][0] / 16 % 4 == 1
  }

  /** The numbers of the forcing patterns for a shared antenna. */
  lemma ForcingNumbers(d: Chip, c: Choice)
    requires Is8821C(d) && d.share && c.tdma < 28
    ensures Forces(d, c) <==> 13 <= c.tdma <= 23 || 25 <= c.tdma <= 26
  {
  }

  lemma MusicForces(d: Chip, o: Obs)
    requires Is8821C(d) && d.share
    ensures Forces(d, BtA2dp(d, o)) && Forces(d, BtA2dpSink(d, o)) && Forces(d, BtA2dpHid(d, o))
  {
    hide Is8821C, Forces;
    ForcingNumbers(d, BtA2dp(d, o));
    ForcingNumbers(d, BtA2dpSink(d, o));
    ForcingNumbers(d, BtA2dpHid(d, o));
  }

  lemma NetworksForce(d: Chip, o: Obs)
    requires Is8821C(d) && d.share
    ensures Forces(d, BtPan(d, o)) && Forces(d, BtA2dpPan(d, o))
    ensures Forces(d, BtPanHid(d, o)) && Forces(d, BtA2dpPanHid(d, o))
  {
    hide Is8821C, Forces;
    ForcingNumbers(d, BtPan(d, o));
    ForcingNumbers(d, BtA2dpPan(d, o));
    ForcingNumbers(d, BtPanHid(d, o));
    ForcingNumbers(d, BtA2dpPanHid(d, o));
  }

  lemma HidForcesIff(d: Chip, o: Obs)
    requires Is8821C(d) && d.share
    ensures Forces(d, BtHid(d, o)) <==> !o.ble && (BusyHid(o) || o.a2dpActive)
    ensures !Forces(d, BtHfp(d, o))
  {
    hide Is8821C, Forces;
    ForcingNumbers(d, BtHid(d, o));
    ForcingNumbers(d, BtHfp(d, o));
  }

  lemma IdleForcesIff(d: Chip, o: Obs)
    requires Is8821C(d) && d.share
    ensures Forces(d, BtIdle(d, o)) <==> o.busy && o.btStatus.NconIdle? && o.loPri > 250 && !AntennaFree(d, o)
  {
    hide Is8821C, Forces;
    ForcingNumbers(d, BtIdle(d, o));
  }

  lemma OthersForceIff(d: Chip, o: Obs)
    requires Is8821C(d) && d.share
    ensures !Forces(d, Under5g(d, o, false)) && !Forces(d, WlOnly(d)) && !Forces(d, NotConnected(d))
    ensures !Forces(d, NativeLps(d, o, false)) && !Forces(d, WhqlTest(d)) && !Forces(d, Linkscan(d, o))
    ensures Forces(d, Relink(d, o)) <==> o.busy
    ensures Forces(d, Inquiry(d, o)) <==> o.busy && !WlHiPri(o)
  {
    hide Is8821C, Forces;
    ForcingNumbers(d, Under5g(d, o, false));
    ForcingNumbers(d, WlOnly(d));
    ForcingNumbers(d, NotConnected(d));
    ForcingNumbers(d, NativeLps(d, o, false));
    ForcingNumbers(d, WhqlTest(d));
    ForcingNumbers(d, Linkscan(d, o));
    ForcingNumbers(d, Relink(d, o));
    ForcingNumbers(d, Inquiry(d, o));
  }

  /** A HID device next to which Bluetooth has more to do. */
  predicate HeavyHid(o: Obs) {
    o.hid && !o.ble && (BusyHid(o) || o.a2dpActive)
  }

  /** With a shared antenna a connected run forces exactly for music, a network or such a HID device. */
  lemma ConnectedForcesIff(d: Chip, o: Obs)
    requires Is8821C(d) && d.share && o.btStatus.Busy?
    ensures Connected(d, o).Some?
    ensures Forces(d, Connected(d, o).value) <==> o.a2dp || o.pan || HeavyHid(o)
  {
    ConnectedServes(d, o);
    FreerunWhen(d, o);
    MusicForces(d, o);
    NetworksForce(d, o);
    HidForcesIff(d, o);
    IdleForcesIff(d, o);
    hide Connected, Is8821C, Forces, FreerunCheck, BtIdle, BtHfp, BtHid, BtA2dp, BtA2dpSink, BtPan;
    hide BtA2dpHid, BtA2dpPan, BtPanHid, BtA2dpPanHid;
  }

  /** The situations in which a decision with a shared antenna forces: Bluetooth relinks or is paged next to a
      busy Wi-Fi, idle Bluetooth shows much low-priority traffic next to it, or those profiles decide. */
  predicate PatternForces(d: Chip, o: Obs, nativeLps: bool) {
    && !o.under5g && !o.btDisabled && !nativeLps && !o.whck
    && if o.setupLink then o.busy
       else if o.inqPage then o.busy && !WlHiPri(o)
       else if !o.connected then false
       else if o.btStatus.Busy? then !o.linkscan && (o.a2dp || o.pan || HeavyHid(o))
       else o.busy && o.btStatus.NconIdle? && o.loPri > 250 && !AntennaFree(d, o)
  }

  /** The same for a whole decision with a shared antenna. */
  lemma PickForcesIff(d: Chip, o: Obs, nativeLps: bool)
    requires Is8821C(d) && d.share
    ensures var c := Pick(d, o, nativeLps, false);
            c.Some? && Fits(d, c.value) && (Forces(d, c.value) <==> PatternForces(d, o, nativeLps))
  {
    PickOrder(d, o, nativeLps, false);
    if o.btStatus.Busy? {
      ConnectedForcesIff(d, o);
    }
    IdleForcesIff(d, o);
    OthersForceIff(d, o);
    assert Arrays8821C(d);
    hide Connected, Is8821C, Forces, Pick, AntennaFree, BtIdle, Under5g, WlOnly, NotConnected, NativeLps;
    hide WhqlTest, Relink, Inquiry, Linkscan;
  }

  /** So in the state: a run that is not turned away and selects another pattern leaves the control flag set
      exactly then. */
  lemma RunForcesIff(d: Chip, s: State, btInfo: bool, o: Obs, inner: Obs)
    requires Is8821C(d) && d.share && Safe(d, s) && !s.lps.leisure && !TurnedAway(o, btInfo)
    requires Pick(d, o, s.lps.under && !s.lps.force, false).value.tdma != s.sel.tdma
    ensures RunCoex(d, s, btInfo, o, inner).lps.force <==> PatternForces(d, o, s.lps.under && !s.lps.force)
  {
    var nativeLps := s.lps.under && !s.lps.force;
    var c := Pick(d, o, nativeLps, false).value;
    PickForcesIff(d, o, nativeLps);
    var s1 := s.(mode := if o.under5g then Link5G else Link2G);
    assert RunCoex(d, s, btInfo, o, inner) == Act(d, s1, Some(c), inner);
    hide Pick, RunCoex, PatternForces, Is8821C;
    var s2 := s1.(log := s1.log + [RfPara(c.rf), Table(c.table), Tdma(c.tdma)]);
    TableLeavesPattern(d, s2, c.table);
    AwakeForces(d, SetTable(d, s2, c.table), c.tdma, inner);
  }

  lemma AwakeForces(d: Chip, s: State, t: U8, inner: Obs)
    requires !s.lps.leisure && !s.mode.Free2G? && t != s.sel.tdma && Index(d, t) < |d.Tdmas()|
    ensures SetTdma(d, s, false, t, inner).lps.force <==> ForcesLps(s, d.Tdmas()[Index(d, t)])
  {
    var s1 := s.(sel := s.sel.(tdma := t, tdmaOn := t != 0 && t != 100));
    var s2 := s1.(lps := s1.lps.(force := ForcesLps(s1, d.Tdmas()[Index(d, t)])));
    assert LeaveLps(d, s2, inner) == s2;
  }
}
