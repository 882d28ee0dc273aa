/** The coexistence decision machine (coex.c): from what is known about Wi-Fi and Bluetooth it selects
    RF parameters, a priority table and a TDMA pattern, and writes the table to two registers. */
module Coex {
  import opened Wrappers

  type U8 = x: int | 0 <= x < 256

  /** coex_table_para: the values for TABLE0 and TABLE1. */
  datatype Entry = Entry(bt: nat, wl: nat)

  /** What is fixed for a device: antenna sharing, MIMO power save support, and the chip's arrays. */
  datatype Chip = Chip(share: bool, mimoPs: bool, sharedTables: seq<Entry>, ownTables: seq<Entry>,
                       sharedTdma: seq<seq<U8>>, ownTdma: seq<seq<U8>>, rfParaNum: nat)
  {
    function Tables(): seq<Entry> {
      if share then sharedTables else ownTables
    }

    function Tdmas(): seq<seq<U8>> {
      if share then sharedTdma else ownTdma
    }
  }

  /** The sizes of the 8821C's arrays. */
  predicate Arrays8821C(d: Chip) {
    && |d.sharedTables| == 33 && |d.ownTables| == 24
    && |d.sharedTdma| == 28 && |d.ownTdma| == 22 && d.rfParaNum == 6
    && (forall i :: 0 <= i < |d.sharedTdma| ==> |d.sharedTdma[i]| == 5)
    && (forall i :: 0 <= i < |d.ownTdma| ==> |d.ownTdma[i]| == 5)
  }

  /** bt_status, as far as the decisions tell it apart. */
  datatype BtStatus = NconIdle | ConIdle | Busy

  /** What one run of the machine sees. Everything here is set elsewhere in the driver. */
  datatype Obs = Obs(
    running: bool, manual: bool, stopDm: bool, underIps: bool, freeze: bool, under5g: bool,
    connected: bool, connecting: bool, linkscan: bool, hiPri1: bool, hiPri2: bool, busy: bool,
    tputTx: bool, noisy: bool, manyAps: bool, wlHigh0: bool, wlHigh1: bool, wlHigh2: bool, wlHigh3: bool,
    btDisabled: bool, btStatus: BtStatus, whck: bool, setupLink: bool, inqPage: bool, page: bool,
    hfp: bool, hid: bool, a2dp: bool, pan: bool, multiLink: bool, hidPairs: nat, profiles: nat,
    a2dpSink: bool, a2dpActive: bool, slave: bool, ble: bool, bleHid: bool, hid418: bool, bleScan: bool,
    loPri: nat, btHigh0: bool, btHigh1: bool, antSwitchWithBt: bool)

  // ----- What an action selects -----

  /** RF parameters from the transmit or the receive array, a table, a TDMA pattern with its slot
      type, and whether the action turns the link mode to 2GFREE. */
  datatype Choice = Choice(tx: bool, rf: nat, table: U8, tdma: U8, fourSlot: bool, free: bool)

  predicate InRange(d: Chip, c: Choice) {
    && c.rf < d.rfParaNum
    && (if d.share then c.table < |d.sharedTables| && c.tdma < |d.sharedTdma|
        else 100 <= c.table < 100 + |d.ownTables| && 100 <= c.tdma < 100 + |d.ownTdma|)
  }

  /** An action that keeps the link mode: a pattern and a table for either antenna arrangement. */
  function Select(d: Chip, table: U8, tdma: U8, ownTable: U8, ownTdma: U8, fourSlot: bool): Choice {
    Choice(false, 0, if d.share then table else ownTable, if d.share then tdma else ownTdma, fourSlot, false)
  }

  predicate Fits(d: Chip, c: Choice) {
    InRange(d, c) && !c.free
  }

  function AllOff(d: Chip): (c: Choice)
    ensures Arrays8821C(d) ==> Fits(d, c)
  {
    Select(d, 2, 0, 100, 100, false)
  }

  /** rtw_coex_action_freerun; nothing with a shared antenna. */
  function Freerun(d: Chip, o: Obs): (c: Option<Choice>)
    ensures Arrays8821C(d) ==> c.Some? == !d.share && (c.Some? ==> Fits(d, c.value))
    ensures c.Some? && d.rfParaNum > 0 ==> c.value.rf < d.rfParaNum
  {
    var wanted := if o.wlHigh0 then 2 else if o.wlHigh1 then 3 else if o.wlHigh2 then 4 else 5;
    var level: nat := if wanted >= d.rfParaNum && d.rfParaNum > 0 then d.rfParaNum - 1 else wanted;
    if d.share then None else Some(Choice(o.tputTx, level, 100, 100, false, false))
  }

  function WhqlTest(d: Chip): (c: Choice)
    ensures Arrays8821C(d) ==> Fits(d, c)
  {
    Select(d, 2, 0, 100, 100, false)
  }

  function Relink(d: Chip, o: Obs): (c: Choice)
    ensures Arrays8821C(d) ==> Fits(d, c)
  {
    if o.busy then Select(d, 26, 20, 115, 100, d.share && o.hid && o.profiles == 1)
    else Select(d, 1, 0, 100, 100, false)
  }

  function BtIdle(d: Chip, o: Obs): (c: Choice)
    ensures Arrays8821C(d) ==> Fits(d, c)
  {
    if o.antSwitchWithBt && o.btStatus.NconIdle? && (!d.share || (o.wlHigh3 && o.busy)) then
      Select(d, 0, 0, 100, 100, false)
    else if !o.busy then Select(d, 10, 3, 112, 104, false)
    else if d.share then
      if o.btStatus.NconIdle? then Select(d, 11, if o.loPri > 250 then 17 else 7, 100, 100, false)
      else Select(d, 12, 7, 100, 100, false)
    else if o.bleScan && o.btStatus.NconIdle? then Select(d, 0, 0, 114, 103, false)
    else Select(d, 0, 0, 112, 103, false)
  }

  function Inquiry(d: Chip, o: Obs): (c: Choice)
    ensures Arrays8821C(d) ==> Fits(d, c)
  {
    if o.linkscan || o.hiPri1 || o.hiPri2 then
      var tdma := if o.profiles > 0 then 10 else if o.hiPri1 then 6 else if !o.page then 8 else 9;
      Select(d, 15, tdma, 114, 100 + tdma, false)
    else if o.busy then
      if o.profiles == 0 then Select(d, 12, 18, 114, 121, false)
      else if o.profiles == 1 && !o.a2dp then Select(d, 12, 20, 114, 121, d.share)
      else Select(d, 12, 26, 114, 121, d.share)
    else if o.connected then Select(d, 9, 27, 101, 100, false)
    else Select(d, 1, 0, 101, 100, false)
  }

  function GameHid(d: Chip, o: Obs): Choice {
    if d.share then
      var table := if o.whck then 2
                   else if o.linkscan || o.hid then 33
                   else if o.setupLink || o.inqPage then 0
                   else if o.a2dp then 34
                   else 33;
      Choice(o.tputTx, if o.tputTx then 6 else 5, table, 0, false, true)
    else Choice(false, 0, 121, if o.wlHigh1 then 112 else 113, false, false)
  }

  function BtHfp(d: Chip, o: Obs): (c: Choice)
    ensures Arrays8821C(d) ==> Fits(d, c)
  {
    if o.multiLink then Select(d, 10, 5, 112, 117, false) else Select(d, 10, 5, 105, 100, false)
  }

  function BtHid(d: Chip, o: Obs): (c: Choice)
    ensures Arrays8821C(d) ==> Fits(d, c)
  {
    if o.ble then if o.manyAps then Select(d, 26, 2, 121, 102, false) else Select(d, 27, 9, 122, 109, false)
    else if !d.share then Select(d, 0, 0, 113, if o.a2dpActive then 118 else 104, false)
    else if o.profiles == 1 && (o.multiLink || o.loPri > 360 || o.slave) then Select(d, 12, 20, 100, 100, true)
    else if o.a2dpActive then Select(d, 9, 18, 100, 100, false)
    else if o.hid418 && o.busy then Select(d, 9, 24, 100, 100, true)
    else if o.bleHid && o.busy then Select(d, 32, 9, 100, 100, false)
    else Select(d, 9, 9, 100, 100, false)
  }

  function BtA2dp(d: Chip, o: Obs): (c: Choice)
    ensures Arrays8821C(d) ==> Fits(d, c)
  {
    Select(d, if o.busy && !o.noisy then 12 else 9, if o.connecting || !o.busy then 14 else 13,
           112, if o.wlHigh1 then 112 else 113, true)
  }

  function BtA2dpSink(d: Chip, o: Obs): (c: Choice)
    ensures Arrays8821C(d) ==> Fits(d, c)
  {
    Select(d, 28, if o.busy then 20 else 26, 119, 120, false)
  }

  function BtPan(d: Chip, o: Obs): (c: Choice)
    ensures Arrays8821C(d) ==> Fits(d, c)
  {
    Select(d, if o.busy && !o.noisy then 14 else 10, if o.busy then 17 else 20, 112, if o.busy then 117 else 119, false)
  }

  function BtA2dpHid(d: Chip, o: Obs): (c: Choice)
    ensures Arrays8821C(d) ==> Fits(d, c)
  {
    Select(d, if o.ble then 26 else 9, if o.connecting || !o.busy then 14 else if o.hid418 then 23 else 13,
           if o.ble then 121 else 113, if o.wlHigh1 then 112 else 113, true)
  }

  function BtA2dpPan(d: Chip, o: Obs): (c: Choice)
    ensures Arrays8821C(d) ==> Fits(d, c)
  {
    Select(d, if o.busy && !o.noisy then 14 else 10, if o.busy then 15 else 20, 112, if o.busy then 115 else 120, false)
  }

  function BtPanHid(d: Chip, o: Obs): (c: Choice)
    ensures Arrays8821C(d) ==> Fits(d, c)
  {
    Select(d, 9, if o.busy then 18 else 19, 113, if o.busy then 117 else 119, false)
  }

  function BtA2dpPanHid(d: Chip, o: Obs): (c: Choice)
    ensures Arrays8821C(d) ==> Fits(d, c)
  {
    Select(d, 10, if o.busy then 15 else 20, 113, if o.busy then 115 else 120, false)
  }

  function Under5g(d: Chip, o: Obs, game: bool): (c: Choice)
    ensures Arrays8821C(d) ==> InRange(d, c) && c.free == (game && o.linkscan)
  {
    Select(d, 0, 0, 100, 100, false).(free := game && o.linkscan)
  }

  function WlOnly(d: Chip): (c: Choice)
    ensures Arrays8821C(d) ==> Fits(d, c)
  {
    Select(d, 2, 0, 100, 100, false)
  }

  function NativeLps(d: Chip, o: Obs, game: bool): (c: Choice)
    ensures Arrays8821C(d) && !game ==> Fits(d, c)
  {
    var c := Select(d, 28, 0, 100, 100, false);
    if game then c.(tx := o.tputTx, rf := if o.tputTx then 6 else 5, free := true) else c
  }

  function Linkscan(d: Chip, o: Obs): (c: Choice)
    ensures Arrays8821C(d) ==> Fits(d, c)
  {
    if o.a2dp then Select(d, if o.busy then 26 else 9, 11, 112, 111, true) else Select(d, 9, 7, 112, 107, false)
  }

  function NotConnected(d: Chip): (c: Choice)
    ensures Arrays8821C(d) ==> Fits(d, c)
  {
    Select(d, 1, 0, 100, 100, false)
  }

  // ----- Which action runs -----

  datatype Algo = NoProfile | Hfp | Hid | A2dp | Pan | A2dpHid | A2dpPan | PanHid | A2dpPanHid

  predicate ForA2dp(a: Algo) {
    a.A2dp? || a.A2dpHid? || a.A2dpPan? || a.A2dpPanHid?
  }

  predicate ForPan(a: Algo) {
    a.Pan? || a.A2dpPan? || a.PanHid? || a.A2dpPanHid?
  }

  predicate ForHid(a: Algo) {
    a.Hid? || a.A2dpHid? || a.PanHid? || a.A2dpPanHid?
  }

  /** A2DP is the one profile and Bluetooth has several links, one of which has a profile that is not told. */
  predicate MoreThanA2dp(o: Obs) {
    o.a2dp && o.multiLink && !o.hfp && !o.hid && !o.pan
  }

  /** The profiles to serve with HID: HID itself, and hands-free next to another profile. */
  predicate HidLike(o: Obs) {
    o.hid || (o.hfp && (o.a2dp || o.pan))
  }

  /** rtw_coex_algorithm: it serves the profiles that are present. */
  function Algorithm(o: Obs): (a: Algo)
    ensures ForA2dp(a) <==> o.a2dp
    ensures !MoreThanA2dp(o) ==> (ForPan(a) <==> o.pan) && (ForHid(a) <==> HidLike(o))
    ensures MoreThanA2dp(o) ==> (ForHid(a) <==> o.hidPairs > 0) && (ForPan(a) <==> o.hidPairs == 0)
    ensures a.Hfp? <==> o.hfp && !o.hid && !o.a2dp && !o.pan
    ensures a.NoProfile? <==> !o.hfp && !o.hid && !o.a2dp && !o.pan
  {
    if o.a2dp then
      if o.hfp || o.hid then if o.pan then A2dpPanHid else A2dpHid
      else if o.pan then A2dpPan
      else if !o.multiLink then A2dp
      else if o.hidPairs > 0 then A2dpHid
      else A2dpPan
    else if o.pan then if o.hfp || o.hid then PanHid else Pan
    else if o.hid then Hid
    else if o.hfp then Hfp
    else NoProfile
  }

  /** rtw_coex_freerun_check. */
  predicate FreerunCheck(d: Chip, o: Obs) {
    && !o.btDisabled && !d.share && o.busy
    && (|| o.hidPairs >= 2
        || (o.wlHigh1 && o.btHigh0)
        || (o.wlHigh3 && (if o.tputTx then o.btHigh0 else o.btHigh1) && !o.manyAps))
  }

  function Connected(d: Chip, o: Obs): (c: Option<Choice>)
    ensures Arrays8821C(d) ==> c.Some? && Fits(d, c.value)
  {
    match Algorithm(o)
    case Hfp => Some(BtHfp(d, o))
    case Hid => if FreerunCheck(d, o) then Freerun(d, o) else Some(BtHid(d, o))
    case A2dp =>
      if FreerunCheck(d, o) then Freerun(d, o) else Some(if o.a2dpSink then BtA2dpSink(d, o) else BtA2dp(d, o))
    case Pan => Some(BtPan(d, o))
    case A2dpHid => if FreerunCheck(d, o) then Freerun(d, o) else Some(BtA2dpHid(d, o))
    case A2dpPan => Some(BtA2dpPan(d, o))
    case PanHid => Some(BtPanHid(d, o))
    case A2dpPanHid => Some(BtA2dpPanHid(d, o))
    case NoProfile => Some(BtIdle(d, o))
  }

  /** A connected run that is allowed to may run freely for a HID device or for music without a network. */
  predicate MayRunFreely(o: Obs) {
    !o.pan && (o.hid || o.a2dp) && !(MoreThanA2dp(o) && o.hidPairs == 0)
  }

  /** Free running is open: an antenna of its own, Bluetooth switched on and Wi-Fi busy. */
  predicate FreerunOpen(d: Chip, o: Obs) {
    !o.btDisabled && !d.share && o.busy
  }

  /** Only then does a run go freely. Two HID devices suffice, and without them both sides have to hear
      their peers well: Wi-Fi in one way or the other, Bluetooth in that of the traffic's direction. */
  lemma FreerunWhen(d: Chip, o: Obs)
    ensures FreerunCheck(d, o) ==> FreerunOpen(d, o)
    ensures FreerunOpen(d, o) && o.hidPairs >= 2 ==> FreerunCheck(d, o)
    ensures FreerunOpen(d, o) && o.wlHigh1 && o.btHigh0 ==> FreerunCheck(d, o)
    ensures FreerunOpen(d, o) && o.wlHigh3 && !o.manyAps && o.tputTx && o.btHigh0 ==> FreerunCheck(d, o)
    ensures FreerunOpen(d, o) && o.wlHigh3 && !o.manyAps && !o.tputTx && o.btHigh1 ==> FreerunCheck(d, o)
    ensures FreerunCheck(d, o) && o.hidPairs < 2 ==> (o.wlHigh1 || o.wlHigh3) && (o.btHigh0 || o.btHigh1)
    ensures FreerunCheck(d, o) && o.hidPairs < 2 && (o.manyAps || !o.wlHigh3) ==> o.wlHigh1 && o.btHigh0
    ensures FreerunCheck(d, o) && o.hidPairs < 2 && !o.wlHigh1 && o.tputTx ==> o.btHigh0
    ensures FreerunCheck(d, o) && o.hidPairs < 2 && !(o.wlHigh1 && o.btHigh0) && !o.tputTx ==> o.btHigh1
  {
  }

  /** The action of a connected run serves exactly the profiles that are present, or runs freely. */
  lemma ConnectedServes(d: Chip, o: Obs)
    ensures var c := Connected(d, o);
            var hidLike := o.hfp || o.hid;
            if MayRunFreely(o) && FreerunCheck(d, o) then c.Some? && c == Freerun(d, o)
            else
              && (o.a2dp && o.pan && hidLike ==> c == Some(BtA2dpPanHid(d, o)))
              && (o.a2dp && o.pan && !hidLike ==> c == Some(BtA2dpPan(d, o)))
              && (o.a2dp && !o.pan && hidLike ==> c == Some(BtA2dpHid(d, o)))
              && (MoreThanA2dp(o) ==> c == Some(if o.hidPairs > 0 then BtA2dpHid(d, o) else BtA2dpPan(d, o)))
              && (o.a2dp && !o.pan && !hidLike && !o.multiLink ==>
                    c == Some(if o.a2dpSink then BtA2dpSink(d, o) else BtA2dp(d, o)))
              && (!o.a2dp && o.pan && hidLike ==> c == Some(BtPanHid(d, o)))
              && (!o.a2dp && o.pan && !hidLike ==> c == Some(BtPan(d, o)))
              && (!o.a2dp && !o.pan && o.hid ==> c == Some(BtHid(d, o)))
              && (!o.a2dp && !o.pan && !o.hid && o.hfp ==> c == Some(BtHfp(d, o)))
              && (!o.a2dp && !o.pan && !o.hid && !o.hfp ==> c == Some(BtIdle(d, o)))
  {
    FreerunWhen(d, o);
    hide FreerunCheck, BtHfp, BtHid, BtA2dp, BtA2dpSink, BtPan, BtA2dpHid, BtA2dpPan, BtPanHid, BtA2dpPanHid, BtIdle;
  }

  /** The action of one run that is not turned away. nativeLps: firmware is in power save and
      coexistence does not control that; game: a game controller is known. */
  function Pick(d: Chip, o: Obs, nativeLps: bool, game: bool): (c: Option<Choice>)
    ensures Arrays8821C(d) && !game ==> c.Some? && Fits(d, c.value)
  {
    if o.under5g then Some(Under5g(d, o, game))
    else if o.btDisabled then Some(if o.connected then WlOnly(d) else NotConnected(d))
    else if nativeLps then Some(NativeLps(d, o, game))
    else if game && o.connected then Some(GameHid(d, o))
    else if o.whck then Some(WhqlTest(d))
    else if o.setupLink then Some(Relink(d, o))
    else if o.inqPage then Some(Inquiry(d, o))
    else if !o.btStatus.Busy? && o.connected then Some(BtIdle(d, o))
    else if o.linkscan then Some(Linkscan(d, o))
    else if o.connected then Connected(d, o)
    else Some(NotConnected(d))
  }

  /** Nothing but the profiles is left to decide: Wi-Fi is connected on 2.4 GHz and does not scan, and
      Bluetooth is switched on, busy, and neither under test nor paging. */
  predicate ProfilesDecide(o: Obs, nativeLps: bool, game: bool) {
    && o.connected && !o.under5g && !o.linkscan && !nativeLps && !game
    && !o.btDisabled && o.btStatus.Busy? && !o.whck && !o.setupLink && !o.inqPage
  }

  /** What comes before the profiles: 5 GHz, then Bluetooth switched off, then power save, a game
      controller, a test, paging, an idle Bluetooth, a scan, and no connection at all. */
  lemma PickOrder(d: Chip, o: Obs, nativeLps: bool, game: bool)
    ensures var c := Pick(d, o, nativeLps, game);
            var open := !o.under5g && !o.btDisabled && !nativeLps && !(game && o.connected);
            && (ProfilesDecide(o, nativeLps, game) ==> c == Connected(d, o))
            && (o.under5g ==> c == Some(Under5g(d, o, game)))
            && (!o.under5g && o.btDisabled ==> c == Some(if o.connected then WlOnly(d) else NotConnected(d)))
            && (!o.under5g && !o.btDisabled && nativeLps ==> c == Some(NativeLps(d, o, game)))
            && (!o.under5g && !o.btDisabled && !nativeLps && game && o.connected ==> c == Some(GameHid(d, o)))
            && (open && o.whck ==> c == Some(WhqlTest(d)))
            && (open && !o.whck && o.setupLink ==> c == Some(Relink(d, o)))
            && (open && !o.whck && !o.setupLink && o.inqPage ==> c == Some(Inquiry(d, o)))
            && (open && !o.whck && !o.setupLink && !o.inqPage ==>
                  && (o.connected && !o.btStatus.Busy? ==> c == Some(BtIdle(d, o)))
                  && (o.linkscan && (!o.connected || o.btStatus.Busy?) ==> c == Some(Linkscan(d, o)))
                  && (!o.linkscan && !o.connected ==> c == Some(NotConnected(d))))
  {
    hide Under5g, WlOnly, NotConnected, NativeLps, GameHid, WhqlTest, Relink, Inquiry, BtIdle, Linkscan, Connected;
  }

  /** Without a game controller the RF parameters are the receive array's first, but for free running, and
      that is a run in which the profiles decide. */
  lemma RfIsNormalIff(d: Chip, o: Obs, nativeLps: bool)
    requires Arrays8821C(d)
    ensures var c := Pick(d, o, nativeLps, false);
            var free := ProfilesDecide(o, nativeLps, false) && MayRunFreely(o) && FreerunCheck(d, o);
            c.Some? && (!free <==> c.value.rf == 0 && !c.value.tx) && (free ==> c == Freerun(d, o))
  {
    PickOrder(d, o, nativeLps, false);
    ConnectedServes(d, o);
    FreerunWhen(d, o);
    hide Connected, FreerunCheck;
  }

  /** The selections that leave their arrays, said by their cause: a game controller, and either
      the transmit direction in native power save, or a shared antenna with the transmit direction
      or one of the two tables that the 8821C does not have. */
  predicate Strays(d: Chip, o: Obs, nativeLps: bool, game: bool) {
    && game && !o.under5g && !o.btDisabled
    && (if nativeLps then o.tputTx
        else o.connected && d.share
             && (o.tputTx || (!o.whck && (o.linkscan || o.hid || (!o.setupLink && !o.inqPage)))))
  }

  /** With the 8821C arrays a selection is in range exactly when it is not one of those. */
  lemma InRangeIff(d: Chip, o: Obs, nativeLps: bool, game: bool)
    requires Arrays8821C(d)
    ensures var c := Pick(d, o, nativeLps, game);
            c.Some? && (InRange(d, c.value) <==> !Strays(d, o, nativeLps, game))
  {
  }

  // ----- The state -----

  /** A Bluetooth HID device as far as it is known. */
  datatype HidDevice = HidDevice(handle: U8, vendor: U8, name: seq<U8>, completed: bool)

  /** struct rtw_coex_hid_handle_list. */
  datatype HandleList = HandleList(cmdId: U8, len: U8, subId: U8, count: U8, handles: seq<U8>)

  /** hid_handle_list, hid_info and bt_game_hid_exist. */
  datatype Hids = Hids(list: HandleList, infos: seq<HidDevice>, game: bool)

  datatype Mode = Link2G | Link5G | Free2G | NoLink

  /** cur_table with TABLE0 and TABLE1, cur_ps_tdma(_on) with ps_tdma_para. */
  datatype Selected = Selected(table: U8, regs: Entry, tdma: U8, tdmaOn: bool, para: seq<U8>)

  /** The LPS flag, wl_under_lps and wl_force_lps_ctrl. */
  datatype Lps = Lps(leisure: bool, under: bool, force: bool)

  datatype Selection = RfPara(rf: nat) | Table(table: U8) | Tdma(tdma: U8)

  /** log: every selection that an action made, in order. */
  datatype State = State(hids: Hids, mode: Mode, sel: Selected, lps: Lps, log: seq<Selection>)

  /** A case number as an index: non-shared cases are counted from 100 in a u8. */
  function Index(d: Chip, t: U8): U8 {
    if d.share then t else if t >= 100 then t - 100 else t + 156
  }

  predicate GoodSelection(d: Chip, x: Selection) {
    match x
    case RfPara(rf) => rf < d.rfParaNum
    case Table(t) => Index(d, t) < |d.Tables()|
    case Tdma(t) => Index(d, t) < |d.Tdmas()|
  }

  // ----- One run -----

  /** rtw_coex_table, with rtw_coex_set_table: a write is left out only when it would change nothing. */
  function SetTable(d: Chip, s: State, t: U8): State {
    var i := Index(d, t);
    s.(sel := s.sel.(table := t, regs := if i < |d.Tables()| then d.Tables()[i] else s.sel.regs))
  }

  /** The pattern forces power save off: bit 4 and not bit 5 of its first byte, or free running. */
  predicate ForcesLps(s: State, para: seq<U8>) {
    (para != [] && para[0] / 16 % 4 == 1) || s.mode.Free2G?
  }

  /** rtw_coex_tdma. inner is what a run sees that leaving power save brings about. */
  function SetTdma(d: Chip, s: State, force: bool, t: U8, inner: Obs): State
    decreases s.lps.leisure, 3
  {
    var on := t != 0 && t != 100;
    if !force && on == s.sel.tdmaOn && t == s.sel.tdma then s
    else
      var s1 := s.(sel := s.sel.(tdma := t, tdmaOn := on));
      if Index(d, t) < |d.Tdmas()| then SetPara(d, s1, d.Tdmas()[Index(d, t)], inner) else s1
  }

  /** rtw_coex_set_tdma: power save control first, which may run the machine again; then the pattern. */
  function SetPara(d: Chip, s: State, para: seq<U8>, inner: Obs): State
    decreases s.lps.leisure, 2
  {
    var s1 := LeaveLps(d, s.(lps := s.lps.(force := ForcesLps(s, para))), inner);
    s1.(sel := s1.sel.(para := para))
  }

  /** rtw_leave_lps, as far as it concerns coexistence: the flag goes first, then the notification. */
  function LeaveLps(d: Chip, s: State, o: Obs): State
    decreases s.lps.leisure, 1
  {
    if !s.lps.leisure then s else LpsDisable(d, s.(lps := s.lps.(leisure := false)), o)
  }

  /** rtw_coex_lps_notify when power save ends. */
  function LpsDisable(d: Chip, s: State, o: Obs): State
    decreases s.lps.leisure, 6
  {
    if o.manual || o.stopDm then s else RunCoex(d, s.(lps := s.lps.(under := false)), false, o, o)
  }

  /** The run is turned away before any action. */
  predicate TurnedAway(o: Obs, btInfo: bool) {
    !o.running || o.manual || o.stopDm || o.underIps || (o.freeze && btInfo && !o.setupLink)
  }

  /** rtw_coex_run_coex. btInfo: the reason is news from Bluetooth. */
  function RunCoex(d: Chip, s: State, btInfo: bool, o: Obs, inner: Obs): State
    decreases s.lps.leisure, 5
  {
    if TurnedAway(o, btInfo) then s else Chosen(d, s, o, inner)
  }

  function LinkMode(o: Obs, c: Option<Choice>): Mode {
    if c.Some? && c.value.free then Free2G else if o.under5g then Link5G else Link2G
  }

  function Chosen(d: Chip, s: State, o: Obs, inner: Obs): State
    decreases s.lps.leisure, 5, 0
  {
    var c := Pick(d, o, s.lps.under && !s.lps.force, s.hids.game);
    Act(d, s.(mode := LinkMode(o, c)), c, inner)
  }

  function Act(d: Chip, s: State, c: Option<Choice>, inner: Obs): State
    decreases s.lps.leisure, 4
  {
    if c.None? then s
    else
      var log := s.log + [RfPara(c.value.rf), Table(c.value.table), Tdma(c.value.tdma)];
      SetTdma(d, SetTable(d, s.(log := log), c.value.table), false, c.value.tdma, inner)
  }

  /** What turns a run away, cause by cause; nothing changes then. */
  lemma RunsWhen(d: Chip, s: State, btInfo: bool, o: Obs, inner: Obs)
    ensures !o.running || o.manual || o.stopDm || o.underIps ==> RunCoex(d, s, btInfo, o, inner) == s
    ensures o.freeze && btInfo && !o.setupLink ==> RunCoex(d, s, btInfo, o, inner) == s
    ensures o.running && !o.manual && !o.stopDm && !o.underIps && (!o.freeze || !btInfo || o.setupLink) ==>
              RunCoex(d, s, btInfo, o, inner) == Chosen(d, s, o, inner)
  {
    hide Chosen;
  }

  /** A pattern forces when bit 4 of its first byte is set and bit 5 is clear, and so does free running. */
  lemma ForcesLpsIff(s: State, para: seq<U8>)
    ensures ForcesLps(s, para)
       <==> s.mode.Free2G? || (para != [] && para[0] / 0x10 % 2 == 1 && para[0] / 0x20 % 2 == 0)
  {
  }

  // ----- What every run keeps -----

  predicate NoneCompleted(h: Hids) {
    |h.infos| == 4 && forall i :: 0 <= i < |h.infos| ==> !h.infos[i].completed
  }

  predicate AllGood(d: Chip, log: seq<Selection>) {
    forall i :: 0 <= i < |log| ==> GoodSelection(d, log[i])
  }

  /** No game controller can be known, the link mode is never 2GFREE, and every selection so far was
      in its array. */
  predicate Safe(d: Chip, s: State) {
    NoneCompleted(s.hids) && !s.hids.game && !s.mode.Free2G? && AllGood(d, s.log)
  }

  /** The registers hold the entry of the current table. */
  predicate Loaded(d: Chip, s: State) {
    Index(d, s.sel.table) < |d.Tables()| && s.sel.regs == d.Tables()[Index(d, s.sel.table)]
  }

  /** The recorded switch of the time division agrees with the recorded pattern number. */
  predicate OnAgrees(s: State) {
    s.sel.tdmaOn <==> s.sel.tdma != 0 && s.sel.tdma != 100
  }

  predicate Kept(d: Chip, s: State, t: State) {
    && Safe(d, t) && t.hids == s.hids && (Loaded(d, s) ==> Loaded(d, t)) && (OnAgrees(s) ==> OnAgrees(t))
  }

  lemma LogGrows(d: Chip, log: seq<Selection>, more: seq<Selection>)
    requires AllGood(d, log) && AllGood(d, more)
    ensures AllGood(d, log + more)
  {
  }

  lemma {:induction false} RunKeeps(d: Chip, s: State, btInfo: bool, o: Obs, inner: Obs)
    requires Arrays8821C(d) && Safe(d, s)
    ensures var t := RunCoex(d, s, btInfo, o, inner);
            Kept(d, s, t) && (!TurnedAway(o, btInfo) ==> Loaded(d, t))
    decreases s.lps.leisure, 5
  {
    hide Arrays8821C, AllGood, Pick, SetTable, SetTdma, NoneCompleted, GoodSelection, Index;
    if !TurnedAway(o, btInfo) {
      var c := Pick(d, o, s.lps.under && !s.lps.force, s.hids.game);
      ActKeeps(d, s.(mode := if o.under5g then Link5G else Link2G), c, inner);
    }
  }

  lemma {:induction false} ActKeeps(d: Chip, s: State, c: Option<Choice>, inner: Obs)
    requires Arrays8821C(d) && Safe(d, s) && c.Some? && Fits(d, c.value)
    ensures Kept(d, s, Act(d, s, c, inner)) && Loaded(d, Act(d, s, c, inner))
    decreases s.lps.leisure, 4
  {
    var more := [RfPara(c.value.rf), Table(c.value.table), Tdma(c.value.tdma)];
    LogGrows(d, s.log, more);
    hide AllGood, Pick, SetTdma, NoneCompleted;
    TdmaKeeps(d, SetTable(d, s.(log := s.log + more), c.value.table), false, c.value.tdma, inner);
  }

  lemma {:induction false} TdmaKeeps(d: Chip, s: State, force: bool, t: U8, inner: Obs)
    requires Arrays8821C(d) && Safe(d, s)
    ensures Kept(d, s, SetTdma(d, s, force, t, inner))
    decreases s.lps.leisure, 3
  {
    hide AllGood, NoneCompleted, RunCoex;
    var s1 := s.(sel := s.sel.(tdma := t, tdmaOn := t != 0 && t != 100));
    if Index(d, t) < |d.Tdmas()| {
      LeaveKeeps(d, s1.(lps := s1.lps.(force := ForcesLps(s1, d.Tdmas()[Index(d, t)]))), inner);
    }
  }

  lemma {:induction false} LeaveKeeps(d: Chip, s: State, o: Obs)
    requires Arrays8821C(d) && Safe(d, s)
    ensures Kept(d, s, LeaveLps(d, s, o))
    ensures s.lps.leisure && !TurnedAway(o, false) ==> Loaded(d, LeaveLps(d, s, o))
    decreases s.lps.leisure, 1
  {
    hide Arrays8821C, AllGood, NoneCompleted, RunCoex, Index;
    if s.lps.leisure && !(o.manual || o.stopDm) {
      RunKeeps(d, s.(lps := s.lps.(leisure := false, under := false)), false, o, o);
    }
  }

  /** The pattern that is selected already is not written again, unless that is forced. */
  lemma SelectedPatternStays(d: Chip, s: State, inner: Obs)
    requires OnAgrees(s)
    ensures SetTdma(d, s, false, s.sel.tdma, inner) == s
  {
  }

  // ----- News about HID devices -----

  datatype HidNews = HidList(list: HandleList) | HidInfo(handle: U8, vendor: U8, name: seq<U8>) | OtherNews

  const WIR: seq<U8> := [0x57, 0x69, 0x72]
  const XBO: seq<U8> := [0x58, 0x62, 0x6f]

  predicate IsGameHid(h: HidDevice) {
    && h.completed && h.handle != 0xff && h.handle != 0 && h.handle < 0x10
    && h.vendor == 0x46 && (h.name == WIR || h.name == XBO)
  }

  function Bytes(text: string): seq<int> {
    seq(|text|, i requires 0 <= i < |text| => text[i] as int)
  }

  /** A game controller: told about, with a handle from 1 to 15, of that vendor, and of one of two names. */
  lemma IsGameHidIff(h: HidDevice)
    ensures IsGameHid(h) <==> && h.completed && 1 <= h.handle <= 15 && h.vendor == 70
                              && (h.name == Bytes("Wir") || h.name == Bytes("Xbo"))
  {
    assert Bytes("Wir") == WIR && Bytes("Xbo") == XBO;
  }

  predicate AnyGame(infos: seq<HidDevice>) {
    exists i :: 0 <= i < |infos| && IsGameHid(infos[i])
  }

  function Unknown(handle: U8): HidDevice {
    HidDevice(if handle == 0xff then 0 else handle, 0, [0, 0, 0], false)
  }

  /** What is told about a handle goes to the first device with it. */
  function Completed(infos: seq<HidDevice>, n: HidNews): seq<HidDevice>
    requires n.HidInfo?
  {
    if infos == [] then []
    else if infos[0].handle == n.handle then [HidDevice(n.handle, n.vendor, n.name, true)] + infos[1..]
    else [infos[0]] + Completed(infos[1..], n)
  }

  function Listed(handles: seq<U8>): seq<HidDevice> {
    seq(|handles|, i requires 0 <= i < |handles| => Unknown(handles[i]))
  }

  /** A list of handles names that many devices, of which nothing else is known; 0xff stands for none. */
  lemma ListedIs(handles: seq<U8>)
    ensures |Listed(handles)| == |handles|
    ensures forall i :: 0 <= i < |handles| ==>
              var h := Listed(handles)[i];
              && h.handle == (if handles[i] < 255 then handles[i] else 0)
              && h.vendor == 0 && h.name == Bytes("\0\0\0") && !h.completed
    ensures !AnyGame(Listed(handles))
  {
    assert Bytes("\0\0\0") == [0, 0, 0];
  }

  /** The devices after the news; none when the news is dropped. */
  function Told(d: Chip, h: Hids, n: HidNews): Option<Hids> {
    match n
    case HidList(list) =>
      if !d.mimoPs || list == h.list then None
      else Some(Hids(list, Listed(list.handles), h.game))
    case HidInfo(_, _, _) => if !d.mimoPs then None else Some(h.(infos := Completed(h.infos, n)))
    case OtherNews => Some(h)
  }

  /** rtw_coex_bt_hid_info_notify. */
  function HidNotify(d: Chip, s: State, n: HidNews, o: Obs, inner: Obs): State {
    match Told(d, s.hids, n)
    case None => s
    case Some(h) =>
      var s1 := s.(hids := h.(game := AnyGame(h.infos)));
      if s1.hids.game == h.game then s1 else RunCoex(d, s1, false, o, inner)
  }

  // ----- Everything that happens to the machine -----

  datatype Event =
    | Notified(btInfo: bool, o: Obs, inner: Obs)    // any notification or work that runs the machine
    | HidNewsCame(news: HidNews, o: Obs, inner: Obs)
    | EnterLps(o: Obs, inner: Obs)
    | EndLps(o: Obs)
    | EnterIps(inner: Obs)
    | Initialise(inner: Obs)
    | PowerOn

  const NO_HIDS := Hids(HandleList(0, 0, 0, 0, [0, 0, 0, 0]), [Unknown(0), Unknown(0), Unknown(0), Unknown(0)], false)

  function Start(): State {
    State(NO_HIDS, Link2G, Selected(0, Entry(0, 0), 0, false, [0, 0, 0, 0, 0]), Lps(false, false, false), [])
  }

  /** rtw_coex_init_coex_var. */
  function Cleared(s: State): State {
    State(NO_HIDS, NoLink, Selected(0, s.sel.regs, 0, false, [0, 0, 0, 0, 0]), Lps(s.lps.leisure, false, false), s.log)
  }

  function Step(d: Chip, s: State, e: Event): State {
    match e
    case Notified(btInfo, o, inner) => RunCoex(d, s, btInfo, o, inner)
    case HidNewsCame(n, o, inner) => HidNotify(d, s, n, o, inner)
    case EnterLps(o, inner) =>
      if s.lps.force || s.lps.leisure then s
      else
        var s1 := if o.manual || o.stopDm then s
                  else RunCoex(d, s.(lps := s.lps.(under := true)), false, o, inner);
        s1.(lps := s1.lps.(leisure := true))
    case EndLps(o) => LeaveLps(d, s, o)
    case EnterIps(inner) => Act(d, s, Some(AllOff(d)), inner)
    case Initialise(inner) => SetTdma(d, SetTable(d, Cleared(s), 1), true, 0, inner)
    case PowerOn => SetTable(d, s, 1)
  }

  /** The step takes a run to its exit, or sets everything off. */
  predicate Loads(s: State, e: Event) {
    match e
    case Notified(btInfo, o, _) => !TurnedAway(o, btInfo)
    case EnterLps(o, _) => !s.lps.force && !s.lps.leisure && !TurnedAway(o, false)
    case EndLps(o) => s.lps.leisure && !TurnedAway(o, false)
    case EnterIps(_) => true
    case _ => false
  }

  lemma StepKeeps(d: Chip, s: State, e: Event)
    requires Arrays8821C(d) && !d.mimoPs && Safe(d, s)
    ensures var t := Step(d, s, e);
            && Safe(d, t) && (Loads(s, e) ==> Loaded(d, t))
            && (Loaded(d, s) && (d.share || !(e.Initialise? || e.PowerOn?)) ==> Loaded(d, t))
            && (OnAgrees(s) ==> OnAgrees(t))
  {
    match e
    case Notified(btInfo, o, inner) =>
      hide Loaded, Safe;
      RunKeeps(d, s, btInfo, o, inner);
    case HidNewsCame(n, o, inner) =>
    case EnterLps(o, inner) =>
      RunKeeps(d, s.(lps := s.lps.(under := true)), false, o, inner);
      hide RunCoex;
    case EndLps(o) =>
      hide Loaded, Safe;
      LeaveKeeps(d, s, o);
    case EnterIps(inner) =>
      hide Loaded, Safe;
      ActKeeps(d, s, Some(AllOff(d)), inner);
    case Initialise(inner) =>
      TdmaKeeps(d, SetTable(d, Cleared(s), 1), true, 0, inner);
      hide SetTdma;
    case PowerOn =>
  }

  function After(d: Chip, s: State, events: seq<Event>): State
    decreases |events|
  {
    if events == [] then s else After(d, Step(d, s, events[0]), events[1..])
  }

  lemma {:induction false} RunsKeep(d: Chip, s: State, events: seq<Event>)
    requires Arrays8821C(d) && !d.mimoPs && Safe(d, s)
    ensures Safe(d, After(d, s, events)) && (OnAgrees(s) ==> OnAgrees(After(d, s, events)))
    decreases |events|
  {
    hide Step, Safe, Arrays8821C, OnAgrees;
    if events != [] {
      StepKeeps(d, s, events[0]);
      RunsKeep(d, Step(d, s, events[0]), events[1..]);
    }
  }

  /** Over every run on the 8821C: no game controller is ever known, the link mode is never 2GFREE,
      every selection an action made is in its array, and the time division counts as switched on exactly
      for a pattern that is; and a step that ends a run leaves the registers with the entry of the
      current table. */
  lemma CoexSafety(d: Chip, events: seq<Event>, e: Event)
    requires Arrays8821C(d) && !d.mimoPs
    ensures var s := After(d, Start(), events);
            && !s.hids.game && !s.mode.Free2G? && AllGood(d, s.log) && OnAgrees(s)
            && (Loads(s, e) ==> Loaded(d, Step(d, s, e)))
  {
    assert Safe(d, Start());
    RunsKeep(d, Start(), events);
    StepKeeps(d, After(d, Start(), events), e);
  }

  /** Initialising loads the current table exactly with a shared antenna: its table 1 and pattern 0
      are not numbers that the other arrangement has. */
  lemma InitLoadsIff(d: Chip, s: State, inner: Obs)
    requires Arrays8821C(d) && !d.mimoPs && Safe(d, s)
    ensures Loaded(d, Step(d, s, Initialise(inner))) <==> d.share
  {
    TdmaKeeps(d, SetTable(d, Cleared(s), 1), true, 0, inner);
    hide RunCoex;
  }

  /** What initialising leaves behind, whatever was before: nothing known, table 1 and pattern 0, which with
      an antenna of its own are numbers without an entry, so that the registers stay. */
  lemma InitialisedIs(d: Chip, s: State, inner: Obs)
    requires Arrays8821C(d) && !s.lps.leisure
    ensures var t := Step(d, s, Initialise(inner));
            && t.hids == NO_HIDS && t.mode == NoLink && t.log == s.log
            && t.sel.table == 1 && t.sel.tdma == 0 && !t.sel.tdmaOn && !t.lps.leisure && !t.lps.under
            && t.sel.regs == (if d.share then d.sharedTables[1] else s.sel.regs)
            && t.sel.para == (if d.share then d.sharedTdma[0] else [0, 0, 0, 0, 0])
            && (t.lps.force <==> d.share && ForcesLps(t, t.sel.para))
  {
    var s1 := SetTable(d, Cleared(s), 1);
    s1 := s1.(sel := s1.sel.(tdma := 0, tdmaOn := false));
    if d.share {
      var s2 := s1.(lps := s1.lps.(force := ForcesLps(s1, d.sharedTdma[0])));
      assert LeaveLps(d, s2, inner) == s2;
      assert SetTdma(d, SetTable(d, Cleared(s), 1), true, 0, inner) == s2.(sel := s2.sel.(para := d.sharedTdma[0]));
    } else {
      assert SetTdma(d, SetTable(d, Cleared(s), 1), true, 0, inner) == s1;
    }
  }

  /** Power save is entered unless a pattern forces it off or it is on already; the machine runs first
      unless it is controlled by hand. */
  lemma EnterLpsWhen(d: Chip, s: State, o: Obs, inner: Obs)
    ensures var t := Step(d, s, EnterLps(o, inner));
            && (s.lps.force || s.lps.leisure ==> t == s)
            && (!s.lps.force && !s.lps.leisure ==> t.lps.leisure)
            && (!s.lps.force && !s.lps.leisure && (o.manual || o.stopDm) ==> t == s.(lps := s.lps.(leisure := true)))
  {
    hide RunCoex;
  }

  /** Powering on writes table 1. */
  lemma PoweredOnIs(d: Chip, s: State)
    requires Arrays8821C(d) && d.share
    ensures var t := Step(d, s, PowerOn);
            t.sel.table == 1 && t.sel.regs == d.sharedTables[1] && t.lps == s.lps && t.sel.para == s.sel.para
  {
  }

  const ONE_HANDLE := HandleList(0, 8, 0, 1, [5, 0, 0, 0])

  /** The support flag is what keeps selections in range: with it, two pieces of news about a game
      controller lead to receive or transmit parameters that the 8821C does not have. */
  lemma GameHidStrays(d: Chip, o: Obs, inner: Obs)
    requires Arrays8821C(d) && d.mimoPs && d.share
    requires !TurnedAway(o, false) && !o.under5g && !o.btDisabled && o.connected && o.tputTx
    ensures var news := [HidNewsCame(HidList(ONE_HANDLE), o, inner), HidNewsCame(HidInfo(5, 0x46, WIR), o, inner)];
            !AllGood(d, After(d, Start(), news).log)
  {
    var first, second := HidNewsCame(HidList(ONE_HANDLE), o, inner), HidNewsCame(HidInfo(5, 0x46, WIR), o, inner);
    var s1 := Step(d, Start(), first);
    assert [first, second][1..] == [second] && [second][1..] == [];
    assert s1.hids.infos == [Unknown(5), Unknown(0), Unknown(0), Unknown(0)];
    var h := Told(d, s1.hids, second.news).value;
    assert IsGameHid(h.infos[0]);
    var s2 := s1.(hids := h.(game := true), mode := Free2G);
    var c := GameHid(d, o);
    assert Pick(d, o, false, true) == Some(c) && c.rf == 6;
    var log := [RfPara(c.rf), Table(c.table), Tdma(c.tdma)];
    hide Pick, SetTdma, SetTable, Completed, IsGameHid, GameHid;
    QuietTdma(d, SetTable(d, s2.(log := log), c.table), false, c.tdma, inner);
    assert s1.log + log == log && SetTable(d, s2.(log := log), c.table).log == log;
    var s3 := s1.(hids := h.(game := true));
    assert Step(d, s1, second) == RunCoex(d, s3, false, o, inner) == Chosen(d, s3, o, inner);
    assert Chosen(d, s3, o, inner) == Act(d, s2, Some(c), inner);
    assert After(d, Start(), [first, second]) == After(d, s1, [second]) == Step(d, s1, second);
    assert !GoodSelection(d, log[0]);
  }

  lemma QuietTdma(d: Chip, s: State, force: bool, t: U8, inner: Obs)
    requires !s.lps.leisure
    ensures SetTdma(d, s, force, t, inner).log == s.log
  {
    var s1 := s.(sel := s.sel.(tdma := t, tdmaOn := t != 0 && t != 100));
    if Index(d, t) < |d.Tdmas()| {
      var s2 := s1.(lps := s1.lps.(force := ForcesLps(s1, d.Tdmas()[Index(d, t)])));
      assert LeaveLps(d, s2, inner) == s2;
    }
  }

  // ----- The pattern and its number -----

  /** Leaving power save runs the machine again in the middle of setting a pattern. The pattern that
      stays is the outer one; the number that stays is the inner run's, if it was not turned away. So
      the two belong together exactly when the inner run selects a pattern with the same bytes. */
  lemma ReentryDecidesNumber(d: Chip, s: State, force: bool, t: U8, inner: Obs)
    requires Arrays8821C(d) && Safe(d, s) && Index(d, t) < |d.Tdmas()|
    requires force || t != s.sel.tdma
    ensures var r := SetTdma(d, s, force, t, inner);
            && r.sel.para == d.Tdmas()[Index(d, t)]
            && r.sel.tdma == (if s.lps.leisure && !TurnedAway(inner, false)
                              then Pick(d, inner, false, false).value.tdma else t)
            && Index(d, r.sel.tdma) < |d.Tdmas()|
            && (r.sel.para == d.Tdmas()[Index(d, r.sel.tdma)]
                <==> d.Tdmas()[Index(d, t)] == d.Tdmas()[Index(d, r.sel.tdma)])
  {
    var s1 := s.(sel := s.sel.(tdma := t, tdmaOn := t != 0 && t != 100));
    var s2 := s1.(lps := s1.lps.(force := ForcesLps(s1, d.Tdmas()[Index(d, t)])));
    assert SetTdma(d, s, force, t, inner) == SetPara(d, s1, d.Tdmas()[Index(d, t)], inner);
    if s.lps.leisure {
      var awake := s2.(lps := s2.lps.(leisure := false));
      var s3 := s2.(lps := s2.lps.(leisure := false, under := false));
      QuietRun(d, s3, inner);
      assert LeaveLps(d, s2, inner) == LpsDisable(d, awake, inner);
      assert LpsDisable(d, awake, inner)
          == if inner.manual || inner.stopDm then awake else RunCoex(d, s3, false, inner, inner);
      hide Pick, RunCoex;
    } else {
      assert LeaveLps(d, s2, inner) == s2;
    }
  }

  lemma QuietRun(d: Chip, s: State, o: Obs)
    requires Arrays8821C(d) && !s.hids.game && !s.lps.leisure && !s.lps.under
    ensures var r := RunCoex(d, s, false, o, o);
            r.sel.tdma == if TurnedAway(o, false) then s.sel.tdma else Pick(d, o, false, false).value.tdma
  {
    if !TurnedAway(o, false) {
      var c := Pick(d, o, false, false).value;
      var s1 := s.(mode := if o.under5g then Link5G else Link2G);
      assert RunCoex(d, s, false, o, o) == Act(d, s1, Some(c), o);
      hide Pick, SetTable, RunCoex;
      var s2 := s1.(log := s1.log + [RfPara(c.rf), Table(c.table), Tdma(c.tdma)]);
      QuietNumber(d, SetTable(d, s2, c.table), c.tdma, o);
      TableLeavesPattern(d, s2, c.table);
    }
  }

  lemma TableLeavesPattern(d: Chip, s: State, t: U8)
    ensures var r := SetTable(d, s, t);
            r.sel.tdma == s.sel.tdma && r.lps == s.lps && r.hids == s.hids && r.mode == s.mode && r.log == s.log
  {
  }

  lemma QuietNumber(d: Chip, s: State, t: U8, inner: Obs)
    requires !s.lps.leisure
    ensures SetTdma(d, s, false, t, inner).sel.tdma == t
  {
    var s1 := s.(sel := s.sel.(tdma := t, tdmaOn := t != 0 && t != 100));
    if Index(d, t) < |d.Tdmas()| {
      var s2 := s1.(lps := s1.lps.(force := ForcesLps(s1, d.Tdmas()[Index(d, t)])));
      assert LeaveLps(d, s2, inner) == s2;
    }
  }

  // ----- The machine as the driver runs it, updated in place -----

  datatype Reason = BtInfo | LpsChange | Other

  class CoexDevice {
    const chip: Chip
    var hids: Hids
    var mode: Mode
    var reason: Reason
    var curTable: U8
    var regs: Entry
    var curTdma: U8
    var tdmaOn: bool
    var para: seq<U8>
    var leisure: bool
    var underLps: bool
    var forceLps: bool
    ghost var log: seq<Selection>

    ghost function Now(): State
      reads this
    {
      State(hids, mode, Selected(curTable, regs, curTdma, tdmaOn, para), Lps(leisure, underLps, forceLps), log)
    }

    constructor (chip: Chip)
      ensures this.chip == chip && Now() == Start()
    {
      this.chip, hids, mode, reason := chip, NO_HIDS, Link2G, Other;
      curTable, regs, curTdma, tdmaOn, para := 0, Entry(0, 0), 0, false, [0, 0, 0, 0, 0];
      leisure, underLps, forceLps, log := false, false, false, [];
    }

    /** rtw_coex_table with rtw_coex_set_table. */
    method WriteTable(force: bool, t: U8)
      modifies this`curTable, this`regs
      ensures Now() == SetTable(chip, old(Now()), t)
    {
      curTable := t;
      var i := Index(chip, t);
      if i < |chip.Tables()| {
        var entry := chip.Tables()[i];
        if !force && !reason.LpsChange? && entry.bt == regs.bt && entry.wl == regs.wl {
          return;
        }
        regs := Entry(entry.bt, entry.wl);
      }
    }

    /** rtw_coex_tdma. */
    method RunTdma(force: bool, t: U8, inner: Obs)
      modifies this
      ensures Now() == SetTdma(chip, old(Now()), force, t, inner)
      decreases leisure, 3
    {
      var on := t != 0 && t != 100;
      if !force && on == tdmaOn && t == curTdma {
        return;
      }
      tdmaOn := on;
      curTdma := t;
      var i := Index(chip, t);
      if i < |chip.Tdmas()| {
        RunPara(chip.Tdmas()[i], inner);
      }
    }

    /** rtw_coex_set_tdma with rtw_coex_power_save_state. */
    method RunPara(pattern: seq<U8>, inner: Obs)
      modifies this
      ensures Now() == SetPara(chip, old(Now()), pattern, inner)
      decreases leisure, 2
    {
      if (pattern != [] && pattern[0] / 16 % 4 == 1) || mode.Free2G? {
        forceLps := true;
      } else {
        forceLps := false;
      }
      Leave(inner);
      para := pattern;
    }

    /** rtw_leave_lps and the notification it ends in. */
    method Leave(o: Obs)
      modifies this
      ensures Now() == LeaveLps(chip, old(Now()), o)
      decreases leisure, 1
    {
      if !leisure {
        return;
      }
      leisure := false;
      if o.manual || o.stopDm {
        return;
      }
      underLps := false;
      Run(LpsChange, o, o);
    }

    /** rtw_coex_run_coex. */
    method Run(why: Reason, o: Obs, inner: Obs)
      modifies this
      ensures Now() == RunCoex(chip, old(Now()), why.BtInfo?, o, inner)
      decreases leisure, 6
    {
      hide Chosen;
      if !o.running {
        return;
      }
      reason := why;
      if o.manual || o.stopDm || o.underIps {
        return;
      }
      if o.freeze && reason.BtInfo? && !o.setupLink {
        return;
      }
      Choose(o, inner);
    }

    /** The link mode, the action that the observations select, and that action. */
    method Choose(o: Obs, inner: Obs)
      modifies this
      ensures Now() == Chosen(chip, old(Now()), o, inner)
      decreases leisure, 5
    {
      hide Pick, Act, Arrays8821C, Fits;
      hide LinkMode;
      var c := Pick(chip, o, underLps && !forceLps, hids.game);
      SetLinkMode(o, c);
      Take(c, inner);
    }

    /** The link mode of the run, changed by an action for a game controller. */
    method SetLinkMode(o: Obs, c: Option<Choice>)
      modifies this`mode
      ensures mode == LinkMode(o, c)
    {
      mode := if o.under5g then Link5G else Link2G;
      if c.Some? && c.value.free {
        mode := Free2G;
      }
    }

    /** The end of every action: RF parameters, then the table, then the pattern. */
    method Take(c: Option<Choice>, inner: Obs)
      modifies this
      ensures Now() == Act(chip, old(Now()), c, inner)
      decreases leisure, 4
    {
      hide SetTable, SetTdma;
      if c.None? {
        return;
      }
      log := log + [RfPara(c.value.rf), Table(c.value.table), Tdma(c.value.tdma)];
      WriteTable(false, c.value.table);
      RunTdma(false, c.value.tdma, inner);
    }

    /** __rtw_coex_init_hw_config, with rtw_coex_init_coex_var: the link mode is none of the known. */
    method InitHwConfig(inner: Obs)
      modifies this
      ensures Now() == Step(chip, old(Now()), Initialise(inner))
    {
      hide SetTable, SetTdma, Cleared;
      InitCoexVar();
      WriteTable(true, 1);
      RunTdma(true, 0, inner);
    }

    method InitCoexVar()
      modifies this
      ensures Now() == Cleared(old(Now())) && leisure == old(leisure)
    {
      hids, mode, reason := NO_HIDS, NoLink, Other;
      curTable, curTdma, tdmaOn, para := 0, 0, false, [0, 0, 0, 0, 0];
      underLps, forceLps := false, false;
    }

    /** rtw_coex_bt_hid_info_notify. */
    method HidInfoNotify(news: HidNews, o: Obs, inner: Obs)
      modifies this
      ensures Now() == HidNotify(chip, old(Now()), news, o, inner)
    {
      if !chip.mimoPs && !news.OtherNews? {
        return;
      }
      match news {
        case HidList(list) =>
          if list == hids.list {
            return;
          }
          hids := Hids(list, Listed(list.handles), hids.game);
        case HidInfo(_, _, _) =>
          hids := hids.(infos := Completed(hids.infos, news));
        case OtherNews =>
      }
      hide AnyGame, RunCoex, Completed, Listed;
      var exist := CountGames();
      if exist != hids.game {
        hids := hids.(game := exist);
        Run(Other, o, inner);
      }
    }

    /** The loop that counts the game controllers among the known devices. */
    method CountGames() returns (exist: bool)
      ensures exist == AnyGame(hids.infos)
    {
      var games := 0;
      for i := 0 to |hids.infos|
        invariant games > 0 <==> exists k :: 0 <= k < i && IsGameHid(hids.infos[k])
        invariant 0 <= games <= i
      {
        if IsGameHid(hids.infos[i]) {
          games := games + 1;
        }
      }
      exist := games > 0;
    }
  }
}
