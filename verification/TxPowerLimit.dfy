/** The transmit power limit tables (phy.c): how the rows of a chip's table become one limit per
    band, regulatory domain, bandwidth, rate section and channel. */
module TxPowerLimit {
  import opened Wrappers

  type U8 = x: int | 0 <= x < 256
  type S8 = x: int | -128 <= x < 128

  const WW := 12           // RTW_REGD_WW, the worldwide domain
  const REGD_MAX := 13
  const WIDTH_MAX := 3     // 20, 40 and 80 MHz
  const SECTION_NUM := 10
  const CHANNELS_2G := 14
  const CHANNELS_5G_NUM := 49
  const BAND_1 := [36, 38, 40, 42, 44, 46, 48]
  const BAND_2 := [52, 54, 56, 58, 60, 62, 64]
  const BAND_3 := [100, 102, 104, 106, 108, 110, 112, 116, 118, 120, 122, 124, 126, 128,
                   132, 134, 136, 138, 140, 142, 144]
  const BAND_4 := [149, 151, 153, 155, 157, 159, 161, 165, 167, 169, 171, 173, 175, 177]
  const CHANNELS_5G := BAND_1 + BAND_2 + BAND_3 + BAND_4

  datatype Band = G2 | G5

  /** A coordinate of tx_pwr_limit_2g and tx_pwr_limit_5g together. */
  datatype Cell = Cell(band: Band, regd: nat, bw: nat, rs: nat, ch: nat)

  type Limits = map<Cell, S8>

  function Channels(band: Band): nat {
    if band.G2? then CHANNELS_2G else CHANNELS_5G_NUM
  }

  predicate IsCell(c: Cell) {
    c.regd < REGD_MAX && c.bw < WIDTH_MAX && c.rs < SECTION_NUM && c.ch < Channels(c.band)
  }

  ghost predicate Full(lim: Limits) {
    forall c :: c in lim <==> IsCell(c)
  }

  function Ww(c: Cell): Cell {
    c.(regd := WW)
  }

  function Min(a: int, b: int): int {
    if b < a then b else a
  }

  /** Where each seven of the 5 GHz channels start. */
  function GroupStart(g: nat): nat
    requires g < 7
  {
    match g
    case 0 => 36 case 1 => 52 case 2 => 100 case 3 => 116 case 4 => 132 case 5 => 149 case _ => 165
  }

  lemma InBands(i: nat)
    ensures i < 7 ==> BAND_1[i] == 36 + 2 * i && BAND_2[i] == 52 + 2 * i
    ensures i < 7 ==> BAND_3[i] == 100 + 2 * i && BAND_3[7 + i] == 116 + 2 * i && BAND_3[14 + i] == 132 + 2 * i
    ensures i < 7 ==> BAND_4[i] == 149 + 2 * i && BAND_4[7 + i] == 165 + 2 * i
  {
    if i == 0 {
    } else if i == 1 {
    } else if i == 2 {
    } else if i == 3 {
    } else if i == 4 {
    } else if i == 5 {
    } else if i == 6 {
    }
  }

  /** The channel at a place: seven groups of seven channels, two apart. */
  lemma ChannelAt(g: nat, i: nat)
    requires g < 7 && i < 7
    ensures |CHANNELS_5G| == CHANNELS_5G_NUM && CHANNELS_5G[7 * g + i] == GroupStart(g) + 2 * i
  {
    InBands(i);
  }

  // ----- One row -----

  /** struct rtw_txpwr_lmt_cfg_pair. */
  datatype Row = Row(regd: U8, band: U8, bw: U8, rs: U8, ch: U8, limit: S8)

  function Find(ch: U8, i: nat): Option<nat>
    requires i <= |CHANNELS_5G|
    decreases |CHANNELS_5G| - i
  {
    if i == |CHANNELS_5G| then None else if CHANNELS_5G[i] == ch then Some(i) else Find(ch, i + 1)
  }

  function BandOf(band: U8): Option<Band> {
    if band == 0 then Some(G2) else if band == 1 then Some(G5) else None
  }

  /** rtw_channel_to_idx. */
  function ChannelIdx(band: U8, ch: U8): Option<nat> {
    match BandOf(band)
    case None => None
    case Some(G2) => if 1 <= ch <= CHANNELS_2G then Some(ch - 1) else None
    case Some(G5) => Find(ch, 0)
  }

  /** The cell a row is for; none when the row is rejected with a warning. */
  function Target(row: Row): (c: Option<Cell>)
    ensures c.Some? ==> IsCell(c.value)
  {
    var idx := ChannelIdx(row.band, row.ch);
    if row.regd >= REGD_MAX || row.bw >= WIDTH_MAX || row.rs >= SECTION_NUM || idx.None? then None
    else (FindInRange(row.ch, 0); Some(Cell(BandOf(row.band).value, row.regd, row.bw, row.rs, idx.value)))
  }

  lemma {:induction false} FindInRange(ch: U8, i: nat)
    requires i <= |CHANNELS_5G|
    ensures Find(ch, i).Some? ==> i <= Find(ch, i).value < |CHANNELS_5G| && CHANNELS_5G[Find(ch, i).value] == ch
    decreases |CHANNELS_5G| - i
  {
    if i < |CHANNELS_5G| {
      FindInRange(ch, i + 1);
    }
  }

  lemma {:induction false} FindFinds(ch: U8, i: nat)
    requires i <= |CHANNELS_5G| && Find(ch, i).None?
    ensures forall k :: i <= k < |CHANNELS_5G| ==> CHANNELS_5G[k] != ch
    decreases |CHANNELS_5G| - i
  {
    if i < |CHANNELS_5G| {
      FindFinds(ch, i + 1);
    }
  }

  /** A row is accepted exactly when domain, width and section are in range and its band has its
      channel; its cell is then that domain, width and section at the channel's place. */
  lemma TargetIs(row: Row)
    ensures Target(row).Some? <==> row.regd < REGD_MAX && row.bw < WIDTH_MAX && row.rs < SECTION_NUM
                                   && (|| (row.band == 0 && 1 <= row.ch <= CHANNELS_2G)
                                       || (row.band == 1 && row.ch in CHANNELS_5G))
    ensures Target(row).Some? ==>
              var c := Target(row).value;
              && c.regd == row.regd && c.bw == row.bw && c.rs == row.rs
              && row.ch == (if c.band.G2? then c.ch + 1 else CHANNELS_5G[c.ch]) && c.band.G5? == (row.band == 1)
  {
    FindInRange(row.ch, 0);
    if Find(row.ch, 0).None? {
      FindFinds(row.ch, 0);
    }
    hide Find;
  }

  function Clamp(max: S8, v: S8): (r: S8)
    requires 0 <= max
    ensures -max <= r <= max && (-max <= v <= max ==> r == v)
  {
    if v < -max then -max else if v > max then max else v
  }

  /** rtw_phy_set_tx_power_limit. */
  function SetLimit(max: S8, lim: Limits, row: Row): (r: Limits)
    requires 0 <= max && Full(lim)
    ensures Full(r)
  {
    match Target(row)
    case None => lim
    case Some(c) =>
      var v := Clamp(max, row.limit);
      var stored := lim[c := v];
      stored[Ww(c) := Min(stored[Ww(c)], v)]
  }

  // ----- All rows -----

  ghost predicate AllMax(max: S8, lim: Limits) {
    Full(lim) && forall c :: IsCell(c) ==> lim[c] == max
  }

  /** The tables after the first k rows. */
  function After(max: S8, lim: Limits, rows: seq<Row>, k: nat): (r: Limits)
    requires 0 <= max && Full(lim) && k <= |rows|
    ensures Full(r)
  {
    if k == 0 then lim else SetLimit(max, After(max, lim, rows, k - 1), rows[k - 1])
  }

  /** Row j is accepted and sets the limit of worldwide cell w, for some domain. */
  predicate Hits(row: Row, w: Cell) {
    Target(row).Some? && Ww(Target(row).value) == w
  }

  predicate HitsWw(row: Row, w: Cell) {
    Target(row) == Some(w)
  }

  /** Where the last row before k starts that sets worldwide cell w itself; 0 if none does. */
  function Since(rows: seq<Row>, w: Cell, k: nat): (b: nat)
    requires k <= |rows| && w.regd == WW
    ensures b <= k && (b > 0 ==> b < k && HitsWw(rows[b], w))
  {
    if k == 0 then 0 else if HitsWw(rows[k - 1], w) then k - 1 else Since(rows, w, k - 1)
  }

  /** v is the least of max and the clamped limits that rows b..k have for cell w; max does not
      enter when row b sets w itself. */
  ghost predicate IsLeast(max: S8, rows: seq<Row>, w: Cell, b: nat, k: nat, v: int)
    requires 0 <= max && b <= k <= |rows|
  {
    && v <= max && (forall j :: b <= j < k && Hits(rows[j], w) ==> v <= Clamp(max, rows[j].limit))
    && (v == max || exists j :: b <= j < k && Hits(rows[j], w) && v == Clamp(max, rows[j].limit))
  }

  lemma SetLimitAt(max: S8, lim: Limits, row: Row, c: Cell)
    requires 0 <= max && Full(lim) && IsCell(c)
    ensures var v := Clamp(max, row.limit);
            SetLimit(max, lim, row)[c] == if Target(row) == Some(c) then v
                                          else if Hits(row, c) then Min(lim[c], v)
                                          else lim[c]
  {
    hide Target;
  }

  lemma LeastNext(max: S8, rows: seq<Row>, w: Cell, b: nat, k: nat, v: int)
    requires 0 <= max && b < k <= |rows| && w.regd == WW && IsLeast(max, rows, w, b, k - 1, v)
    ensures !Hits(rows[k - 1], w) ==> IsLeast(max, rows, w, b, k, v)
    ensures Hits(rows[k - 1], w) ==> IsLeast(max, rows, w, b, k, Min(v, Clamp(max, rows[k - 1].limit)))
    ensures HitsWw(rows[k - 1], w) ==> Hits(rows[k - 1], w)
                                       && IsLeast(max, rows, w, k - 1, k, Clamp(max, rows[k - 1].limit))
  {
    hide Clamp, Target;
  }

  /** The worldwide cell holds the least limit of any domain for it, counted from the last row
      that sets the worldwide cell itself. */
  lemma {:induction false} WorldwideIsLeast(max: S8, lim: Limits, rows: seq<Row>, w: Cell, k: nat)
    requires 0 <= max && AllMax(max, lim) && k <= |rows| && IsCell(w) && w.regd == WW
    ensures IsLeast(max, rows, w, Since(rows, w, k), k, After(max, lim, rows, k)[w])
  {
    if k > 0 {
      WorldwideIsLeast(max, lim, rows, w, k - 1);
      SetLimitAt(max, After(max, lim, rows, k - 1), rows[k - 1], w);
      hide Target, SetLimit, Clamp, IsLeast, Full, Hits;
      LeastNext(max, rows, w, Since(rows, w, k - 1), k, After(max, lim, rows, k - 1)[w]);
    }
  }

  /** Some row from b on has a limit for cell w that is not above this row's. */
  ghost predicate Undercut(max: S8, rows: seq<Row>, w: Cell, b: nat, row: Row)
    requires 0 <= max && b <= |rows|
  {
    exists i :: b <= i < |rows| && Hits(rows[i], w) && Clamp(max, rows[i].limit) <= Clamp(max, row.limit)
  }

  /** It is the least limit that any row has for it exactly when no row from before the last
      worldwide row is below all that follow. */
  lemma TrueMinimumIff(max: S8, lim: Limits, rows: seq<Row>, w: Cell)
    requires 0 <= max && AllMax(max, lim) && IsCell(w) && w.regd == WW
    ensures IsLeast(max, rows, w, 0, |rows|, After(max, lim, rows, |rows|)[w])
       <==> forall j :: 0 <= j < Since(rows, w, |rows|) && Hits(rows[j], w) ==>
              Clamp(max, rows[j].limit) == max || Undercut(max, rows, w, Since(rows, w, |rows|), rows[j])
  {
    WorldwideIsLeast(max, lim, rows, w, |rows|);
    hide Hits, Clamp, Since, After;
  }

  /** One behind the last row before k for cell c; 0 if there is none. */
  function LastRow(rows: seq<Row>, c: Cell, k: nat): (r: nat)
    requires k <= |rows|
    ensures r <= k && (r > 0 ==> Target(rows[r - 1]) == Some(c))
  {
    if k == 0 then 0 else if Target(rows[k - 1]) == Some(c) then k else LastRow(rows, c, k - 1)
  }

  /** The cell of a domain holds its last row's limit. */
  lemma {:induction false} DomainIsLast(max: S8, lim: Limits, rows: seq<Row>, c: Cell, k: nat)
    requires 0 <= max && AllMax(max, lim) && k <= |rows| && IsCell(c) && c.regd != WW
    ensures var r := LastRow(rows, c, k);
            After(max, lim, rows, k)[c] == if r == 0 then max else Clamp(max, rows[r - 1].limit)
  {
    if k > 0 {
      DomainIsLast(max, lim, rows, c, k - 1);
      SetLimitAt(max, After(max, lim, rows, k - 1), rows[k - 1], c);
      hide Target, SetLimit, Clamp, Full, IsCell, Hits;
    }
  }

  /** A table without rows for the worldwide domain leaves it at or below every domain. */
  lemma WorldwideBelow(max: S8, lim: Limits, rows: seq<Row>, c: Cell)
    requires 0 <= max && AllMax(max, lim) && IsCell(c)
    requires forall j :: 0 <= j < |rows| ==> rows[j].regd != WW
    ensures After(max, lim, rows, |rows|)[Ww(c)] <= After(max, lim, rows, |rows|)[c] <= max
  {
    hide After, Clamp, ChannelIdx, LastRow, Full;
    var n := |rows|;
    WorldwideIsLeast(max, lim, rows, Ww(c), n);
    assert Since(rows, Ww(c), n) == 0;
    if c.regd != WW {
      DomainIsLast(max, lim, rows, c, n);
    }
  }

  // ----- Domains without rows -----

  /** enum rtw_regulatory_domains, but for WW. */
  const FCC := 0
  const MKK := 1
  const ETSI := 2
  const IC := 3
  const KCC := 4
  const ACMA := 5
  const CHILE := 6
  const UKRAINE := 7
  const MEXICO := 8
  const CN := 9
  const QATAR := 10
  const UK := 11

  /** rtw_regd_alt: the American domains fall back on FCC and the others on ETSI; these two, MKK and the
      worldwide domain have no alternative, so that alternatives do not chain. */
  function Alternative(regd: nat): (a: Option<nat>)
    ensures a.Some? <==> regd < WW && regd != FCC && regd != MKK && regd != ETSI
    ensures a == Some(FCC) <==> regd == IC || regd == CHILE || regd == MEXICO
    ensures a.Some? && a != Some(FCC) ==> a == Some(ETSI)
  {
    if regd in {3, 6, 8} then Some(0)
    else if regd in {4, 5, 7, 9, 10, 11} then Some(2)
    else None
  }

  /** The domain whose limits a domain gets, given the domains that have rows. */
  function Source(configured: set<nat>, regd: nat): (r: nat)
    ensures r == regd <==> regd == WW || regd in configured
    ensures r == WW || r in configured
    ensures r != regd && r != WW ==> Alternative(regd) == Some(r)
    ensures regd != WW && regd !in configured && Alternative(regd).Some? && Alternative(regd).value in configured ==>
              r == Alternative(regd).value
  {
    if regd == WW || regd in configured then regd
    else if Alternative(regd).Some? && Alternative(regd).value in configured then Alternative(regd).value
    else WW
  }

  function Filled(configured: set<nat>, lim: Limits): (r: Limits)
    requires Full(lim)
    ensures Full(r) && forall c :: IsCell(c) ==> r[c] == lim[c.(regd := Source(configured, c.regd))]
  {
    map c | c in lim :: lim[c.(regd := Source(configured, c.regd))]
  }

  function Configured(rows: seq<Row>, k: nat): set<nat>
    requires k <= |rows|
  {
    if k == 0 then {} else Configured(rows, k - 1) + {rows[k - 1].regd}
  }

  lemma FilledBelow(max: S8, configured: set<nat>, lim: Limits, c: Cell)
    requires Full(lim) && IsCell(c)
    requires forall d :: IsCell(d) ==> lim[Ww(d)] <= lim[d] <= max
    ensures Filled(configured, lim)[Ww(c)] <= Filled(configured, lim)[c] <= max
  {
    var d := c.(regd := Source(configured, c.regd));
    assert IsCell(d) && Ww(d) == Ww(c);
    assert Filled(configured, lim)[c] == lim[d] && Filled(configured, lim)[Ww(c)] == lim[Ww(c)];
  }

  // ----- The cross reference between HT and VHT -----

  /** The other rate section of the pair: HT and VHT with the same number of streams. */
  function Partner(rs: nat): nat {
    if rs in {2, 3, 6, 7} then rs + 2 else if rs in {4, 5, 8, 9} then rs - 2 else rs
  }

  predicate Paired(c: Cell) {
    c.band.G5? && c.bw < 2 && Partner(c.rs) != c.rs
  }

  function Other(c: Cell): Cell {
    c.(rs := Partner(c.rs))
  }

  function Crossed(max: S8, lim: Limits, c: Cell): S8
    requires Full(lim) && IsCell(c)
  {
    if Paired(c) && lim[c] == max then lim[Other(c)] else lim[c]
  }

  /** rtw_xref_txpwr_lmt. */
  function Xref(max: S8, lim: Limits): (r: Limits)
    requires Full(lim)
    ensures Full(r) && forall c :: IsCell(c) ==> r[c] == Crossed(max, lim, c)
  {
    map c | c in lim :: Crossed(max, lim, c)
  }

  /** Afterwards a pair is equal or has neither side at the maximum; no limit below the maximum
      changed, none was raised, none but those of HT and VHT sections on 5 GHz with 20 or 40 MHz was
      touched, and a second application changes nothing. */
  lemma XrefSettles(max: S8, lim: Limits, c: Cell)
    requires Full(lim) && IsCell(c) && lim[c] <= max && lim[Other(c)] <= max
    ensures var r := Xref(max, lim);
            && (Paired(c) ==> r[c] == r[Other(c)] || (r[c] != max && r[Other(c)] != max))
            && (lim[c] != max ==> r[c] == lim[c]) && r[c] <= lim[c]
            && (c.band.G2? || c.bw > 1 || c.rs < 2 ==> r[c] == lim[c])
            && (r[c] == max <==> lim[c] == max && (Paired(c) ==> lim[Other(c)] == max))
            && Xref(max, r)[c] == r[c]
  {
    assert IsCell(Other(c)) && Other(Other(c)) == c && Paired(Other(c)) == Paired(c);
  }

  /** What the cross reference does to the worldwide limit: with worldwide limits at or below a
      domain before, they stay so exactly unless the domain's cell had no limit, the worldwide one
      had, and the domain's other cell is below it. */
  lemma WorldwideBelowAfterXrefIff(max: S8, lim: Limits, c: Cell)
    requires Full(lim) && IsCell(c) && lim[c] <= max && lim[Other(c)] <= max
    requires lim[Ww(c)] <= lim[c] && lim[Ww(Other(c))] <= lim[Other(c)]
    ensures Xref(max, lim)[Ww(c)] <= Xref(max, lim)[c]
       <==> !(Paired(c) && lim[c] == max && lim[Ww(c)] < max && lim[Other(c)] < lim[Ww(c)])
  {
    assert IsCell(Other(c)) && IsCell(Ww(Other(c))) && Ww(Other(c)) == Other(Ww(c));
  }

  // ----- The whole table -----

  /** rtw_parse_tbl_txpwr_lmt. */
  function Parsed(max: S8, lim: Limits, rows: seq<Row>): (r: Limits)
    requires 0 <= max && Full(lim)
    ensures Full(r)
  {
    Xref(max, Filled(Configured(rows, |rows|), After(max, lim, rows, |rows|)))
  }

  /** Without rows for the worldwide domain, its limits are at or below those of every domain
      once the domains without rows are filled in, before the cross reference. */
  lemma WorldwideBelowAll(max: S8, lim: Limits, rows: seq<Row>, c: Cell)
    requires 0 <= max && AllMax(max, lim) && IsCell(c)
    requires forall j :: 0 <= j < |rows| ==> rows[j].regd != WW
    ensures var filled := Filled(Configured(rows, |rows|), After(max, lim, rows, |rows|));
            filled[Ww(c)] <= filled[c] <= max
  {
    var after := After(max, lim, rows, |rows|);
    hide After, Configured, Source, Filled, Clamp;
    forall d | IsCell(d)
      ensures after[Ww(d)] <= after[d] <= max
    {
      WorldwideBelow(max, lim, rows, d);
    }
    FilledBelow(max, Configured(rows, |rows|), after, c);
  }

  /** The limits in use: worldwide is at or below a domain exactly unless the cross reference filled
      the domain's cell, and not the worldwide one, from a pair that is below it. */
  lemma ParsedBelowIff(max: S8, lim: Limits, rows: seq<Row>, c: Cell)
    requires 0 <= max && AllMax(max, lim) && IsCell(c)
    requires forall j :: 0 <= j < |rows| ==> rows[j].regd != WW
    ensures var filled := Filled(Configured(rows, |rows|), After(max, lim, rows, |rows|));
            var broken := Paired(c) && filled[c] == max && filled[Ww(c)] < max && filled[Other(c)] < filled[Ww(c)];
            Parsed(max, lim, rows)[Ww(c)] <= Parsed(max, lim, rows)[c] <==> !broken
  {
    WorldwideBelowAll(max, lim, rows, c);
    WorldwideBelowAll(max, lim, rows, Other(c));
    hide After, Configured, Filled, Xref;
    WorldwideBelowAfterXrefIff(max, Filled(Configured(rows, |rows|), After(max, lim, rows, |rows|)), c);
  }

  const TWO_ROWS := [Row(0, 1, 0, 2, 36, 10), Row(2, 1, 0, 4, 36, 20)]

  /** Two rows are enough for it to fail: HT limited to 10 by one domain, VHT to 20 by another. */
  lemma XrefCanBreakWorldwide(lim: Limits)
    requires AllMax(63, lim)
    ensures var c := Cell(G5, 0, 0, 4, 0);
            Parsed(63, lim, TWO_ROWS)[Ww(c)] == 20 && Parsed(63, lim, TWO_ROWS)[c] == 10
  {
    var ht, vht := Cell(G5, 0, 0, 2, 0), Cell(G5, 0, 0, 4, 0);
    hide After, Configured, Filled, AllMax, Full, Xref, Target, Source, IsCell;
    TwoRowsFilled(lim, ht, vht);
    CrossedFrom(Filled(Configured(TWO_ROWS, 2), After(63, lim, TWO_ROWS, 2)), vht);
  }

  lemma CrossedFrom(lim: Limits, c: Cell)
    requires Full(lim) && c == Cell(G5, 0, 0, 4, 0)
    ensures lim[c] == 63 ==> Xref(63, lim)[c] == lim[Other(c)]
    ensures lim[Ww(c)] != 63 ==> Xref(63, lim)[Ww(c)] == lim[Ww(c)]
  {
    hide Xref;
  }

  lemma TwoRowsFilled(lim: Limits, ht: Cell, vht: Cell)
    requires AllMax(63, lim) && ht == Cell(G5, 0, 0, 2, 0) && vht == Cell(G5, 0, 0, 4, 0)
    ensures var filled := Filled(Configured(TWO_ROWS, 2), After(63, lim, TWO_ROWS, 2));
            filled[ht] == 10 && filled[vht] == 63 && filled[Ww(vht)] == 20
  {
    assert Target(TWO_ROWS[0]) == Some(ht) && Target(TWO_ROWS[1]) == Some(vht.(regd := 2)) by {
      assert CHANNELS_5G[0] == 36;
    }
    hide Target, Full, Filled, AllMax;
    assert 0 in Configured(TWO_ROWS, 2) by {
      assert 0 in Configured(TWO_ROWS, 1);
    }
    hide Configured, After, SetLimit;
    TwoRows(lim, TWO_ROWS, ht);
    TwoRows(lim, TWO_ROWS, vht);
    TwoRows(lim, TWO_ROWS, Ww(vht));
  }

  lemma TwoRows(lim: Limits, rows: seq<Row>, c: Cell)
    requires AllMax(63, lim) && |rows| == 2 && IsCell(c)
    ensures After(63, lim, rows, 2)[c] == SetLimit(63, SetLimit(63, lim, rows[0]), rows[1])[c]
         == (var one := if Target(rows[0]) == Some(c) then Clamp(63, rows[0].limit)
                        else if Hits(rows[0], c) then Min(63, Clamp(63, rows[0].limit)) else 63;
             if Target(rows[1]) == Some(c) then Clamp(63, rows[1].limit)
             else if Hits(rows[1], c) then Min(one, Clamp(63, rows[1].limit)) else one)
  {
    hide Target, SetLimit, Clamp;
    SetLimitAt(63, lim, rows[0], c);
    SetLimitAt(63, SetLimit(63, lim, rows[0]), rows[1], c);
    assert After(63, lim, rows, 1) == SetLimit(63, After(63, lim, rows, 0), rows[0]);
  }

  // ----- The tables as the driver fills them, updated in place -----

  class TxPowerTables {
    const max: S8
    var limits: Limits

    constructor (max: S8, limits: Limits)
      requires 0 <= max && Full(limits)
      ensures this.max == max && this.limits == limits
    {
      this.max, this.limits := max, limits;
    }

    /** rtw_phy_set_tx_power_limit. */
    method SetTxPowerLimit(row: Row)
      requires 0 <= max && Full(limits)
      modifies this`limits
      ensures Full(limits) && limits == SetLimit(max, old(limits), row)
    {
      var target := Target(row);
      if target.None? {
        return;
      }
      var limit := Clamp(max, row.limit);
      limits := limits[target.value := limit];
      var ww := limits[Ww(target.value)];
      ww := Min(ww, limit);
      limits := limits[Ww(target.value) := ww];
    }

    /** The channel loops of __cfg_txpwr_lmt_by_alt, one for each band. */
    method CopyBand(band: Band, regd: nat, alt: nat, bw: nat, rs: nat)
      requires Full(limits) && regd < REGD_MAX && alt < REGD_MAX && regd != alt && bw < WIDTH_MAX && rs < SECTION_NUM
      modifies this`limits
      ensures Mixed(old(limits), Copy(old(limits), alt), limits,
                    (c: Cell) => c.regd == regd && c.bw == bw && c.rs == rs && c.band == band)
    {
      ghost var was, goal := limits, Copy(limits, alt);
      for ch := 0 to Channels(band)
        invariant Mixed(was, goal, limits, (c: Cell) =>
                        c.regd == regd && c.bw == bw && c.rs == rs && c.band == band && c.ch < ch)
      {
        ghost var mid := limits;
        var here := Cell(band, regd, bw, rs, ch);
        limits := limits[here := limits[Cell(band, alt, bw, rs, ch)]];
        MixedStep(was, goal, mid, goal, limits,
                  (c: Cell) => c.regd == regd && c.bw == bw && c.rs == rs && c.band == band && c.ch < ch,
                  (c: Cell) => c == here,
                  (c: Cell) => c.regd == regd && c.bw == bw && c.rs == rs && c.band == band && c.ch < ch + 1);
      }
    }

    /** rtw_cfg_txpwr_lmt_by_alt. */
    method CopyDomain(regd: nat, alt: nat)
      requires Full(limits) && regd < REGD_MAX && alt < REGD_MAX && regd != alt
      modifies this`limits
      ensures Mixed(old(limits), Copy(old(limits), alt), limits, (c: Cell) => c.regd == regd)
    {
      hide Full;
      ghost var was, goal := limits, Copy(limits, alt);
      for bw := 0 to WIDTH_MAX
        invariant Mixed(was, goal, limits, (c: Cell) => c.regd == regd && c.bw < bw)
      {
        for rs := 0 to SECTION_NUM
          invariant Mixed(was, goal, limits, (c: Cell) => c.regd == regd && (c.bw < bw || (c.bw == bw && c.rs < rs)))
        {
          ghost var mid := limits;
          CopyBand(G2, regd, alt, bw, rs);
          ghost var half := limits;
          CopyBand(G5, regd, alt, bw, rs);
          MixedStep(was, goal, mid, Copy(mid, alt), half,
                    (c: Cell) => c.regd == regd && (c.bw < bw || (c.bw == bw && c.rs < rs)),
                    (c: Cell) => c.regd == regd && c.bw == bw && c.rs == rs && c.band == G2,
                    (c: Cell) => c.regd == regd
                                 && (c.bw < bw || (c.bw == bw && (c.rs < rs || (c.rs == rs && c.band == G2)))));
          MixedStep(was, goal, half, Copy(half, alt), limits,
                    (c: Cell) => c.regd == regd
                                 && (c.bw < bw || (c.bw == bw && (c.rs < rs || (c.rs == rs && c.band == G2)))),
                    (c: Cell) => c.regd == regd && c.bw == bw && c.rs == rs && c.band == G5,
                    (c: Cell) => c.regd == regd && (c.bw < bw || (c.bw == bw && c.rs < rs + 1)));
        }
      }
    }

    /** rtw_xref_5g_txpwr_lmt. */
    method XrefPair(regd: nat, bw: nat, ch: nat, ht: nat, vht: nat)
      requires Full(limits) && regd < REGD_MAX && bw < 2 && ch < Channels(G5)
      requires ht in {2, 3, 6, 7} && vht == ht + 2
      modifies this`limits
      ensures Mixed(old(limits), Xref(max, old(limits)), limits, (c: Cell) =>
                    c.band == G5 && c.regd == regd && c.bw == bw && c.ch == ch && c.rs in {ht, vht})
    {
      var h, v := Cell(G5, regd, bw, ht, ch), Cell(G5, regd, bw, vht, ch);
      if limits[h] == limits[v] {
        return;
      }
      if limits[h] == max {
        limits := limits[h := limits[v]];
      } else if limits[v] == max {
        limits := limits[v := limits[h]];
      }
    }

    /** rtw_xref_txpwr_lmt_by_rs. */
    method XrefSections(regd: nat, bw: nat, ch: nat)
      requires Full(limits) && regd < REGD_MAX && bw < 2 && ch < Channels(G5)
      modifies this`limits
      ensures Mixed(old(limits), Xref(max, old(limits)), limits, (c: Cell) =>
                    c.regd == regd && c.bw == bw && c.ch == ch)
    {
      hide Full;
      ghost var was, goal := limits, Xref(max, limits);
      var ht := [2, 3, 6, 7];
      for i := 0 to 4
        invariant Mixed(was, goal, limits, (c: Cell) =>
                        c.band == G5 && c.regd == regd && c.bw == bw && c.ch == ch && PairIndex(c.rs) < i)
      {
        ghost var mid := limits;
        XrefPair(regd, bw, ch, ht[i], ht[i] + 2);
        MixedStep(was, goal, mid, Xref(max, mid), limits,
                  (c: Cell) => c.band == G5 && c.regd == regd && c.bw == bw && c.ch == ch && PairIndex(c.rs) < i,
                  (c: Cell) => c.band == G5 && c.regd == regd && c.bw == bw && c.ch == ch && c.rs in {ht[i], ht[i] + 2},
                  (c: Cell) => c.band == G5 && c.regd == regd && c.bw == bw && c.ch == ch && PairIndex(c.rs) < i + 1);
      }
    }

    /** rtw_xref_txpwr_lmt, with its loops over domains, widths and channels. */
    method XrefAll()
      requires Full(limits)
      modifies this`limits
      ensures limits == Xref(max, old(limits))
    {
      hide Full;
      ghost var was, goal := limits, Xref(max, limits);
      for regd := 0 to REGD_MAX
        invariant Mixed(was, goal, limits, (c: Cell) => c.regd < regd)
      {
        for bw := 0 to 2
          invariant Mixed(was, goal, limits, (c: Cell) => c.regd < regd || (c.regd == regd && c.bw < bw))
        {
          for ch := 0 to Channels(G5)
            invariant Mixed(was, goal, limits, (c: Cell) =>
                            c.regd < regd || (c.regd == regd && (c.bw < bw || (c.bw == bw && c.ch < ch))))
          {
            ghost var mid := limits;
            XrefSections(regd, bw, ch);
            MixedStep(was, goal, mid, Xref(max, mid), limits,
                      (c: Cell) => c.regd < regd || (c.regd == regd && (c.bw < bw || (c.bw == bw && c.ch < ch))),
                      (c: Cell) => c.regd == regd && c.bw == bw && c.ch == ch,
                      (c: Cell) => c.regd < regd || (c.regd == regd && (c.bw < bw || (c.bw == bw && c.ch < ch + 1))));
          }
        }
      }
      MixedDone(was, goal, limits, (c: Cell) => c.regd < REGD_MAX);
    }

    /** rtw_parse_tbl_txpwr_lmt. */
    method ParseTable(rows: seq<Row>)
      requires 0 <= max && Full(limits)
      modifies this`limits
      ensures limits == Parsed(max, old(limits), rows)
    {
      hide Full;
      var configured: set<nat> := {};
      for p := 0 to |rows|
        invariant configured == Configured(rows, p) && Full(limits) && limits == After(max, old(limits), rows, p)
      {
        configured := configured + {rows[p].regd};
        SetTxPowerLimit(rows[p]);
      }
      FillDomains(configured);
      XrefAll();
    }

    /** The loop over the domains without rows. */
    method FillDomains(configured: set<nat>)
      requires Full(limits)
      modifies this`limits
      ensures limits == Filled(configured, old(limits))
    {
      hide Full, Source, Filled;
      ghost var was, goal := limits, Filled(configured, limits);
      for i := 0 to REGD_MAX
        invariant Mixed(was, goal, limits, (c: Cell) => c.regd < i)
      {
        ghost var mid := limits;
        FillDomain(configured, i);
        FilledAlike(configured, was, mid, i);
        MixedStep(was, goal, mid, Filled(configured, mid), limits,
                  (c: Cell) => c.regd < i, (c: Cell) => c.regd == i, (c: Cell) => c.regd < i + 1);
      }
      MixedDone(was, goal, limits, (c: Cell) => c.regd < REGD_MAX);
    }

    method FillDomain(configured: set<nat>, i: nat)
      requires Full(limits) && i < REGD_MAX
      modifies this`limits
      ensures Mixed(old(limits), Filled(configured, old(limits)), limits, (c: Cell) => c.regd == i)
    {
      if i == WW || i in configured {
        return;
      }
      var alternative := Alternative(i);
      if alternative.Some? && alternative.value in configured {
        CopyDomain(i, alternative.value);
        return;
      }
      CopyDomain(i, WW);
    }
  }

  lemma FilledAlike(configured: set<nat>, was: Limits, mid: Limits, i: nat)
    requires Full(was) && i < REGD_MAX && Mixed(was, Filled(configured, was), mid, (c: Cell) => c.regd < i)
    ensures forall c :: IsCell(c) && c.regd == i ==> Filled(configured, mid)[c] == Filled(configured, was)[c]
  {
    hide Filled;
    forall c | IsCell(c) && c.regd == i
      ensures Filled(configured, mid)[c] == Filled(configured, was)[c]
    {
      var d := c.(regd := Source(configured, i));
      assert IsCell(d) && d.(regd := Source(configured, d.regd)) == d;
      assert mid[d] == was[d];
    }
  }

  function PairIndex(rs: nat): nat {
    if rs in {2, 4} then 0 else if rs in {3, 5} then 1 else if rs in {6, 8} then 2 else if rs in {7, 9} then 3 else 4
  }

  // ----- What the nested loops have done so far -----

  function Copy(lim: Limits, alt: nat): (r: Limits)
    requires Full(lim) && alt < REGD_MAX
    ensures Full(r) && forall c :: IsCell(c) ==> r[c] == lim[c.(regd := alt)]
  {
    map c | c in lim :: lim[c.(regd := alt)]
  }

  /** The cells of the done region have their final limit, the others their first. */
  ghost predicate Mixed(was: Limits, goal: Limits, now: Limits, done: Cell -> bool)
    requires Full(was) && Full(goal)
  {
    Full(now) && forall c :: IsCell(c) ==> now[c] == if done(c) then goal[c] else was[c]
  }

  lemma OneCell(mid: Limits, goal: Limits, here: Cell)
    requires Full(mid) && Full(goal) && IsCell(here)
    ensures Mixed(mid, goal, mid[here := goal[here]], (c: Cell) => c == here)
  {
  }

  lemma MixedStep(was: Limits, goal: Limits, mid: Limits, goalMid: Limits, now: Limits,
                  done: Cell -> bool, step: Cell -> bool, next: Cell -> bool)
    requires Full(was) && Full(goal) && Full(goalMid) && Mixed(was, goal, mid, done) && Mixed(mid, goalMid, now, step)
    requires forall c :: IsCell(c) && step(c) ==> goalMid[c] == goal[c]
    requires forall c :: IsCell(c) ==> next(c) == (done(c) || step(c))
    ensures Mixed(was, goal, now, next)
  {
  }

  lemma MixedDone(was: Limits, goal: Limits, now: Limits, done: Cell -> bool)
    requires Full(was) && Full(goal) && Mixed(was, goal, now, done)
    requires forall c :: IsCell(c) ==> done(c)
    ensures now == goal
  {
  }
}
