/** Power by rate (phy.c): offsets and limits are rewritten relative to one base per rate section,
    and the limit in use is the least over the bandwidths up to the current one. */
module TxPowerRate {
  import opened TxPowerLimit
  import opened Wrappers

  const RATE_MAX := 84
  const PATH_MAX := 4

  // ----- Rate sections -----

  /** The first rate of a section; its rates are consecutive (rtw_rate_section). */
  function First(rs: nat): nat
    requires rs < SECTION_NUM
  {
    match rs
    case 0 => 0 case 1 => 4 case 2 => 12 case 3 => 20 case 4 => 44
    case 5 => 54 case 6 => 28 case 7 => 36 case 8 => 64 case _ => 74
  }

  /** rtw_rate_size. */
  function Size(rs: nat): nat
    requires rs < SECTION_NUM
  {
    if rs == 0 then 4 else if rs in {4, 5, 8, 9} then 10 else 8
  }

  /** rtw_phy_rate_to_rate_section; SECTION_NUM for a rate that has none. */
  function SectionOf(rate: nat): nat {
    if rate <= 3 then 0
    else if rate <= 11 then 1
    else if rate <= 19 then 2
    else if rate <= 27 then 3
    else if rate <= 35 then 6
    else if rate <= 43 then 7
    else if rate <= 53 then 4
    else if rate <= 63 then 5
    else if rate <= 73 then 8
    else if rate <= 83 then 9
    else SECTION_NUM
  }

  /** The sections partition the rates: every rate is in the one section it is mapped to. */
  lemma SectionsPartition(rate: nat, rs: nat)
    requires rs < SECTION_NUM
    ensures First(rs) <= rate < First(rs) + Size(rs) <==> SectionOf(rate) == rs
    ensures SectionOf(rate) < SECTION_NUM <==> rate < RATE_MAX
  {
  }

  lemma SectionFits(rs: nat)
    requires rs < SECTION_NUM
    ensures First(rs) + Size(rs) <= RATE_MAX
  {
  }

  /** The HT sections, for one stream to four; VHT has 4, 5, 8 and 9. */
  predicate IsHt(rs: nat) {
    rs == 2 || rs == 3 || rs == 6 || rs == 7
  }

  /** The rate whose power is the base of its section: MCS7 for VHT, else the last. */
  function BaseRate(rs: nat): (r: nat)
    requires rs < SECTION_NUM
    ensures r < RATE_MAX && SectionOf(r) == rs
    ensures rs <= 1 || IsHt(rs) ==> SectionOf(r + 1) != rs
    ensures rs > 1 && !IsHt(rs) ==> r == First(rs) + 7
  {
    First(rs) + (if Size(rs) == 10 then 7 else Size(rs) - 1)
  }

  // ----- The rewrite of the offsets -----

  datatype PerBand = PerBand(g2: S8, g5: S8) {
    function On(band: Band): S8 {
      if band.G2? then g2 else g5
    }
  }

  /** An int stored in an s8. */
  function ToS8(x: int): S8 {
    (x + 128) % 256 - 128
  }

  function Minus(a: PerBand, b: PerBand): PerBand {
    PerBand(ToS8(a.g2 - b.g2), ToS8(a.g5 - b.g5))
  }

  /** The rewrite loses nothing: adding the base back in an s8 gives the value there was; and as long as
      nothing overflows, what is stored is the difference. */
  lemma BaseRestores(a: PerBand, b: PerBand)
    ensures var r := Minus(a, b);
            && ToS8(r.g2 + b.g2) == a.g2 && ToS8(r.g5 + b.g5) == a.g5
            && (-128 <= a.g2 - b.g2 < 128 ==> r.g2 == a.g2 - b.g2)
            && (-128 <= a.g5 - b.g5 < 128 ==> r.g5 == a.g5 - b.g5)
  {
  }

  /** tx_pwr_by_rate_offset_2g/_5g and tx_pwr_by_rate_base_2g/_5g, by path and by rate or section. */
  class PowerByRate {
    const offset: array2<PerBand>
    const base: array2<PerBand>

    constructor ()
      ensures fresh(offset) && fresh(base) && Shaped()
      ensures forall p, r :: 0 <= p < PATH_MAX && 0 <= r < RATE_MAX ==> offset[p, r] == PerBand(0, 0)
    {
      offset := new PerBand[PATH_MAX, RATE_MAX]((_, _) => PerBand(0, 0));
      base := new PerBand[PATH_MAX, SECTION_NUM]((_, _) => PerBand(0, 0));
    }

    ghost predicate Shaped() {
      && offset.Length0 == PATH_MAX && offset.Length1 == RATE_MAX
      && base.Length0 == PATH_MAX && base.Length1 == SECTION_NUM && offset != base
    }

    /** rtw_phy_tx_power_by_rate_config_by_path: the base is read before it is subtracted. */
    method ConfigSection(path: nat, rs: nat)
      requires Shaped() && path < PATH_MAX && rs < SECTION_NUM
      modifies offset, base
      ensures forall p, r :: 0 <= p < PATH_MAX && 0 <= r < RATE_MAX ==>
                offset[p, r] == if p == path && SectionOf(r) == rs
                                then Minus(old(offset[p, r]), old(offset[path, BaseRate(rs)])) else old(offset[p, r])
      ensures forall p, s :: 0 <= p < PATH_MAX && 0 <= s < SECTION_NUM ==>
                base[p, s] == if p == path && s == rs then old(offset[path, BaseRate(rs)]) else old(base[p, s])
    {
      forall r: nat | r < RATE_MAX
        ensures First(rs) <= r < First(rs) + Size(rs) <==> SectionOf(r) == rs
      {
        SectionsPartition(r, rs);
      }
      SectionFits(rs);
      hide First, Size, SectionOf, BaseRate, Minus;
      var b := offset[path, BaseRate(rs)];
      base[path, rs] := b;
      for i := 0 to Size(rs)
        invariant forall p, r :: 0 <= p < PATH_MAX && 0 <= r < RATE_MAX ==>
                    offset[p, r] == if p == path && First(rs) <= r < First(rs) + i
                                    then Minus(old(offset[p, r]), b) else old(offset[p, r])
        invariant forall p, s :: 0 <= p < PATH_MAX && 0 <= s < SECTION_NUM ==>
                    base[p, s] == if p == path && s == rs then b else old(base[p, s])
      {
        offset[path, First(rs) + i] := Minus(offset[path, First(rs) + i], b);
      }
    }

    /** rtw_phy_tx_power_by_rate_config. */
    method Config()
      requires Shaped()
      modifies offset, base
      ensures forall p, r :: 0 <= p < PATH_MAX && 0 <= r < RATE_MAX ==>
                offset[p, r] == Minus(old(offset[p, r]), old(offset[p, BaseRate(SectionOf(r))]))
      ensures forall p, s :: 0 <= p < PATH_MAX && 0 <= s < SECTION_NUM ==>
                base[p, s] == old(offset[p, BaseRate(s)])
    {
      for path := 0 to PATH_MAX
        invariant forall p, r :: 0 <= p < PATH_MAX && 0 <= r < RATE_MAX ==>
                    offset[p, r] == if p < path then Minus(old(offset[p, r]), old(offset[p, BaseRate(SectionOf(r))]))
                                    else old(offset[p, r])
        invariant forall p, s :: 0 <= p < path && 0 <= s < SECTION_NUM ==> base[p, s] == old(offset[p, BaseRate(s)])
      {
        for rs := 0 to SECTION_NUM
          invariant forall p, r :: 0 <= p < PATH_MAX && 0 <= r < RATE_MAX ==>
                      offset[p, r] == if p < path || (p == path && SectionOf(r) < rs)
                                      then Minus(old(offset[p, r]), old(offset[p, BaseRate(SectionOf(r))]))
                                      else old(offset[p, r])
          invariant forall p, s :: 0 <= p < PATH_MAX && 0 <= s < SECTION_NUM && (p < path || (p == path && s < rs)) ==>
                      base[p, s] == old(offset[p, BaseRate(s)])
        {
          ConfigSection(path, rs);
        }
      }
    }
  }

  // ----- The rewrite of the limits -----

  /** Every limit less the base of its section on path A. */
  function Shifted(lim: Limits, base: seq<PerBand>): (r: Limits)
    requires Full(lim) && |base| == SECTION_NUM
    ensures Full(r) && forall c :: IsCell(c) ==> r[c] == ToS8(lim[c] - base[c.rs].On(c.band))
  {
    map c | c in lim :: ToS8(lim[c] - base[c.rs].On(c.band))
  }

  /** Adding the base of the limit's band back gives the limit there was. */
  lemma LimitRestores(lim: Limits, base: seq<PerBand>, c: Cell)
    requires Full(lim) && |base| == SECTION_NUM && IsCell(c)
    ensures ToS8(Shifted(lim, base)[c] + if c.band.G2? then base[c.rs].g2 else base[c.rs].g5) == lim[c]
  {
    BaseRestores(PerBand(lim[c], lim[c]), base[c.rs]);
  }

  class PowerLimits {
    var limits: Limits

    constructor (limits: Limits)
      ensures this.limits == limits
    {
      this.limits := limits;
    }

    /** The channel loops of __rtw_phy_tx_power_limit_config, one for each band. */
    method ShiftBand(band: Band, base: seq<PerBand>, regd: nat, bw: nat, rs: nat)
      requires Full(limits) && |base| == SECTION_NUM && regd < REGD_MAX && bw < WIDTH_MAX && rs < SECTION_NUM
      modifies this
      ensures Mixed(old(limits), Shifted(old(limits), base), limits,
                    (c: Cell) => c.regd == regd && c.bw == bw && c.rs == rs && c.band == band)
    {
      hide ToS8, Shifted, Full;
      ghost var was, goal := limits, Shifted(limits, base);
      for ch := 0 to Channels(band)
        invariant Mixed(was, goal, limits, (c: Cell) =>
                        c.regd == regd && c.bw == bw && c.rs == rs && c.band == band && c.ch < ch)
      {
        ghost var mid := limits;
        ShiftCell(Cell(band, regd, bw, rs, ch), base);
        MixedStep(was, goal, mid, Shifted(mid, base), limits,
                  (c: Cell) => c.regd == regd && c.bw == bw && c.rs == rs && c.band == band && c.ch < ch,
                  (c: Cell) => c == Cell(band, regd, bw, rs, ch),
                  (c: Cell) => c.regd == regd && c.bw == bw && c.rs == rs && c.band == band && c.ch < ch + 1);
      }
    }

    method ShiftCell(here: Cell, base: seq<PerBand>)
      requires Full(limits) && |base| == SECTION_NUM && IsCell(here)
      modifies this
      ensures Mixed(old(limits), Shifted(old(limits), base), limits, (c: Cell) => c == here)
    {
      hide ToS8, Shifted, Mixed;
      OneCell(limits, Shifted(limits, base), here);
      limits := limits[here := ToS8(limits[here] - base[here.rs].On(here.band))];
    }

    method ShiftSection(base: seq<PerBand>, regd: nat, bw: nat, rs: nat)
      requires Full(limits) && |base| == SECTION_NUM && regd < REGD_MAX && bw < WIDTH_MAX && rs < SECTION_NUM
      modifies this
      ensures Mixed(old(limits), Shifted(old(limits), base), limits,
                    (c: Cell) => c.regd == regd && c.bw == bw && c.rs == rs)
    {
      hide Full, Shifted, ToS8;
      ghost var was := limits;
      ShiftBand(G2, base, regd, bw, rs);
      ghost var half := limits;
      ShiftBand(G5, base, regd, bw, rs);
      MixedStep(was, Shifted(was, base), half, Shifted(half, base), limits,
                (c: Cell) => c.regd == regd && c.bw == bw && c.rs == rs && c.band == G2,
                (c: Cell) => c.regd == regd && c.bw == bw && c.rs == rs && c.band == G5,
                (c: Cell) => c.regd == regd && c.bw == bw && c.rs == rs);
    }

    /** rtw_phy_tx_power_limit_config. */
    method Config(base: seq<PerBand>)
      requires Full(limits) && |base| == SECTION_NUM
      modifies this
      ensures limits == Shifted(old(limits), base)
    {
      hide Full, Shifted, ToS8;
      ghost var was, goal := limits, Shifted(limits, base);
      for regd := 0 to REGD_MAX
        invariant Mixed(was, goal, limits, (c: Cell) => c.regd < regd)
      {
        for bw := 0 to WIDTH_MAX
          invariant Mixed(was, goal, limits, (c: Cell) => c.regd < regd || (c.regd == regd && c.bw < bw))
        {
          for rs := 0 to SECTION_NUM
            invariant Mixed(was, goal, limits, (c: Cell) =>
                            c.regd < regd || (c.regd == regd && (c.bw < bw || (c.bw == bw && c.rs < rs))))
          {
            ghost var mid := limits;
            ShiftSection(base, regd, bw, rs);
            MixedStep(was, goal, mid, Shifted(mid, base), limits,
                      (c: Cell) => c.regd < regd || (c.regd == regd && (c.bw < bw || (c.bw == bw && c.rs < rs))),
                      (c: Cell) => c.regd == regd && c.bw == bw && c.rs == rs,
                      (c: Cell) => c.regd < regd || (c.regd == regd && (c.bw < bw || (c.bw == bw && c.rs < rs + 1))));
          }
        }
      }
      MixedDone(was, goal, limits, (c: Cell) => c.regd < REGD_MAX);
    }
  }

  // ----- The limit in use -----

  function CodeOf(band: Band): (code: U8)
    ensures BandOf(code) == Some(band)
  {
    if band.G2? then 0 else 1
  }

  /** CCK and OFDM use 20 MHz only, HT at most 40. */
  function Widest(rate: nat, bw: nat): (w: nat)
    ensures IsHt(SectionOf(rate)) ==> w <= 1 && w <= bw && (w == 1 || w == bw)
    ensures !IsHt(SectionOf(rate)) ==> w == if SectionOf(rate) <= 1 then 0 else bw
  {
    if SectionOf(rate) <= 1 then 0 else if 12 <= rate <= 43 && bw > 1 then 1 else bw
  }

  /** The cell read for one width: the table is chosen by the channel, the index by the band. */
  function CellFor(band: Band, regd: nat, rs: nat, bw: nat, ch: U8): Option<Cell> {
    match ChannelIdx(CodeOf(band), ch)
    case None => None
    case Some(i) => Some(Cell(if ch <= CHANNELS_2G then G2 else G5, regd, bw, rs, i))
  }

  /** Channel and band never disagree: the cell read is one of the band's. */
  lemma CellIsOfBand(band: Band, regd: nat, rs: nat, bw: nat, ch: U8)
    requires regd < REGD_MAX && rs < SECTION_NUM && bw < WIDTH_MAX
    ensures var c := CellFor(band, regd, rs, bw, ch);
            c.Some? ==> IsCell(c.value) && c.value.band == band && c.value.regd == regd && c.value.rs == rs
  {
    FindInRange(ch, 0);
    if band.G5? && Find(ch, 0).Some? {
      var i := Find(ch, 0).value;
      ChannelAt(i / 7, i % 7);
    }
    hide Find;
  }

  function ReadCell(lim: Limits, band: Band, regd: nat, rs: nat, bw: nat, ch: U8): Option<S8>
    requires Full(lim) && regd < REGD_MAX && rs < SECTION_NUM && bw < WIDTH_MAX
  {
    match CellFor(band, regd, rs, bw, ch)
    case None => None
    case Some(c) => (CellIsOfBand(band, regd, rs, bw, ch); Some(lim[c]))
  }

  /** The limits of the first n widths, if each of them has its channel. */
  function LimitsRead(lim: Limits, band: Band, regd: nat, rs: nat, cch: seq<U8>, n: nat): (r: Option<seq<S8>>)
    requires Full(lim) && regd < REGD_MAX && rs < SECTION_NUM && n <= |cch| <= WIDTH_MAX
    ensures r.Some? ==> |r.value| == n
  {
    if n == 0 then Some([])
    else
      var before := LimitsRead(lim, band, regd, rs, cch, n - 1);
      var last := ReadCell(lim, band, regd, rs, n - 1, cch[n - 1]);
      if before.None? || last.None? then None else Some(before.value + [last.value])
  }

  function Least(max: int, read: seq<S8>): (r: int)
    ensures r <= max && (forall i :: 0 <= i < |read| ==> r <= read[i]) && (r == max || r in read)
  {
    if read == [] then max else Min(Least(max, read[..|read| - 1]), read[|read| - 1])
  }

  /** rtw_phy_get_tx_power_limit. */
  function LimitOf(max: S8, lim: Limits, band: Band, bw: nat, rate: nat, regd: nat, cch: seq<U8>): S8
    requires Full(lim) && bw < WIDTH_MAX && |cch| == WIDTH_MAX
  {
    if regd > WW || SectionOf(rate) == SECTION_NUM then max
    else
      match LimitsRead(lim, band, regd, SectionOf(rate), cch, Widest(rate, bw) + 1)
      case None => max
      case Some(read) => Least(max, read)
  }

  lemma {:induction false} NoneStays(lim: Limits, band: Band, regd: nat, rs: nat, cch: seq<U8>, k: nat, n: nat)
    requires Full(lim) && regd < REGD_MAX && rs < SECTION_NUM && k <= n <= |cch| <= WIDTH_MAX
    requires LimitsRead(lim, band, regd, rs, cch, k).None?
    ensures LimitsRead(lim, band, regd, rs, cch, n).None?
  {
    if k < n {
      NoneStays(lim, band, regd, rs, cch, k, n - 1);
    }
  }

  method GetTxPowerLimit(max: S8, lim: Limits, band: Band, bw: nat, rate: nat, regd: nat, cch: seq<U8>)
    returns (limit: S8)
    requires Full(lim) && bw < WIDTH_MAX && |cch| == WIDTH_MAX
    ensures limit == LimitOf(max, lim, band, bw, rate, regd, cch)
  {
    hide ReadCell, Least, Min;
    limit := max;
    assert Least(max, []) == max;
    var rs := SectionOf(rate);
    if regd > WW || rs == SECTION_NUM {
      return max;
    }
    for cur := 0 to Widest(rate, bw) + 1
      invariant LimitsRead(lim, band, regd, rs, cch, cur).Some?
      invariant limit == Least(max, LimitsRead(lim, band, regd, rs, cch, cur).value)
    {
      var curLimit := ReadCell(lim, band, regd, rs, cur, cch[cur]);
      if curLimit.None? {
        NoneStays(lim, band, regd, rs, cch, cur + 1, Widest(rate, bw) + 1);
        return max;
      }
      LeastAppend(max, LimitsRead(lim, band, regd, rs, cch, cur).value, curLimit.value);
      limit := Min(curLimit.value, limit);
    }
  }

  lemma LeastAppend(max: int, read: seq<S8>, v: S8)
    ensures Least(max, read + [v]) == Min(v, Least(max, read))
  {
    assert (read + [v])[..|read|] == read;
  }

  // ----- What the rewrite means -----

  predicate FitsLess(v: int, b: int) {
    -128 <= v - b < 128
  }

  predicate EachLess(a: seq<S8>, b: seq<S8>, base: int) {
    |a| == |b| && forall i :: 0 <= i < |a| ==> b[i] == ToS8(a[i] - base)
  }

  lemma EachLessSnoc(a: seq<S8>, b: seq<S8>, base: int, v: S8)
    requires EachLess(a, b, base)
    ensures EachLess(a + [v], b + [ToS8(v - base)], base)
  {
    hide ToS8;
  }

  /** The limits of n widths after the rewrite are those before, less the base. */
  predicate ReadLess(lim: Limits, base: seq<PerBand>, band: Band, regd: nat, rs: nat, cch: seq<U8>, n: nat)
    requires Full(lim) && |base| == SECTION_NUM && regd < REGD_MAX && rs < SECTION_NUM && n <= |cch| <= WIDTH_MAX
  {
    var a, b := LimitsRead(lim, band, regd, rs, cch, n), LimitsRead(Shifted(lim, base), band, regd, rs, cch, n);
    a.Some? == b.Some? && (a.Some? ==> EachLess(a.value, b.value, base[rs].On(band)))
  }

  lemma {:induction false} ReadShifted(lim: Limits, base: seq<PerBand>,
                                       band: Band, regd: nat, rs: nat, cch: seq<U8>, n: nat)
    requires Full(lim) && |base| == SECTION_NUM && regd < REGD_MAX && rs < SECTION_NUM && n <= |cch| <= WIDTH_MAX
    ensures ReadLess(lim, base, band, regd, rs, cch, n)
  {
    if n > 0 {
      ReadShifted(lim, base, band, regd, rs, cch, n - 1);
      NextLess(lim, base, band, regd, rs, cch, n);
      hide ReadLess;
    }
    hide Full, Shifted, ReadCell;
  }

  lemma NextLess(lim: Limits, base: seq<PerBand>, band: Band, regd: nat, rs: nat, cch: seq<U8>, n: nat)
    requires Full(lim) && |base| == SECTION_NUM && regd < REGD_MAX && rs < SECTION_NUM && 0 < n <= |cch| <= WIDTH_MAX
    requires ReadLess(lim, base, band, regd, rs, cch, n - 1)
    ensures ReadLess(lim, base, band, regd, rs, cch, n)
  {
    hide LimitsRead, ReadCell, Shifted, ToS8, Full, EachLess;
    CellShifted(lim, base, band, regd, rs, n - 1, cch[n - 1]);
    ReadNext(lim, band, regd, rs, cch, n);
    ReadNext(Shifted(lim, base), band, regd, rs, cch, n);
    var a, b := LimitsRead(lim, band, regd, rs, cch, n - 1), LimitsRead(Shifted(lim, base), band, regd, rs, cch, n - 1);
    var v := ReadCell(lim, band, regd, rs, n - 1, cch[n - 1]);
    if a.Some? && v.Some? {
      EachLessSnoc(a.value, b.value, base[rs].On(band), v.value);
    }
  }

  lemma ReadNext(lim: Limits, band: Band, regd: nat, rs: nat, cch: seq<U8>, n: nat)
    requires Full(lim) && regd < REGD_MAX && rs < SECTION_NUM && 0 < n <= |cch| <= WIDTH_MAX
    ensures var before := LimitsRead(lim, band, regd, rs, cch, n - 1);
            var last := ReadCell(lim, band, regd, rs, n - 1, cch[n - 1]);
            LimitsRead(lim, band, regd, rs, cch, n)
            == if before.None? || last.None? then None else Some(before.value + [last.value])
  {
  }

  lemma CellShifted(lim: Limits, base: seq<PerBand>, band: Band, regd: nat, rs: nat, bw: nat, ch: U8)
    requires Full(lim) && |base| == SECTION_NUM && regd < REGD_MAX && rs < SECTION_NUM && bw < WIDTH_MAX
    ensures var a, b := ReadCell(lim, band, regd, rs, bw, ch), ReadCell(Shifted(lim, base), band, regd, rs, bw, ch);
            && a.Some? == b.Some?
            && (a.Some? ==> b.value == ToS8(a.value - base[rs].On(band)))
  {
    CellIsOfBand(band, regd, rs, bw, ch);
    hide CellFor, Shifted, ToS8;
  }

  lemma {:induction false} LeastShifted(max: int, read: seq<S8>, less: seq<S8>, b: int)
    requires |less| == |read| && forall i :: 0 <= i < |read| ==> less[i] == read[i] - b
    ensures Least(max, less) + b == Least(max + b, read)
    decreases |read|
  {
    if read != [] {
      LeastShifted(max, read[..|read| - 1], less[..|read| - 1], b);
    }
  }

  lemma {:induction false} LeastCapped(max: int, cap: int, read: seq<S8>)
    requires read != [] && forall i :: 0 <= i < |read| ==> read[i] <= max
    ensures Least(cap, read) == Min(cap, Least(max, read))
    decreases |read|
  {
    if |read| > 1 {
      LeastCapped(max, cap, read[..|read| - 1]);
    }
  }

  /** What a rate gets on a path after the rewrite: the path's base plus the lesser of offset and limit. */
  function RelativePower(max: S8, lim: Limits, base: seq<PerBand>, own: int, off: int,
                         band: Band, bw: nat, rate: nat, regd: nat, cch: seq<U8>): int
    requires Full(lim) && |base| == SECTION_NUM && bw < WIDTH_MAX && |cch| == WIDTH_MAX
  {
    own + Min(ToS8(off - own), LimitOf(max, Shifted(lim, base), band, bw, rate, regd, cch))
  }

  /** The inputs for which nothing leaves the range of an s8. */
  ghost predicate Fits(lim: Limits, base: seq<PerBand>, own: int, off: int,
                       band: Band, bw: nat, rate: nat, regd: nat, cch: seq<U8>)
    requires Full(lim) && |base| == SECTION_NUM && bw < WIDTH_MAX && |cch| == WIDTH_MAX && rate < RATE_MAX && regd <= WW
  {
    var read := LimitsRead(lim, band, regd, SectionOf(rate), cch, Widest(rate, bw) + 1);
    && FitsLess(off, own) && read.Some?
    && forall i :: 0 <= i < |read.value| ==> FitsLess(read.value[i], base[SectionOf(rate)].On(band))
  }

  /** On any path the rewrite moves the limit by the difference between the path's base and path
      A's, and caps the result at the path's base plus the maximum. */
  lemma RewriteMeans(max: S8, lim: Limits, base: seq<PerBand>, own: int, off: int,
                     band: Band, bw: nat, rate: nat, regd: nat, cch: seq<U8>)
    requires Full(lim) && |base| == SECTION_NUM && bw < WIDTH_MAX && |cch| == WIDTH_MAX && rate < RATE_MAX && regd <= WW
    requires Fits(lim, base, own, off, band, bw, rate, regd, cch) && forall c :: IsCell(c) ==> lim[c] <= max
    ensures var limit := LimitOf(max, lim, band, bw, rate, regd, cch);
            var moved := limit + own - base[SectionOf(rate)].On(band);
            RelativePower(max, lim, base, own, off, band, bw, rate, regd, cch) == Min(off, Min(moved, own + max))
  {
    hide LimitOf, Shifted, Full;
    ShiftedLimit(max, lim, base, own, off, band, bw, rate, regd, cch);
    ToS8Exact(off, own);
  }

  lemma ToS8Exact(v: int, b: int)
    requires FitsLess(v, b)
    ensures ToS8(v - b) == v - b
  {
  }

  lemma ShiftedLimit(max: S8, lim: Limits, base: seq<PerBand>, own: int, off: int,
                     band: Band, bw: nat, rate: nat, regd: nat, cch: seq<U8>)
    requires Full(lim) && |base| == SECTION_NUM && bw < WIDTH_MAX && |cch| == WIDTH_MAX && rate < RATE_MAX && regd <= WW
    requires Fits(lim, base, own, off, band, bw, rate, regd, cch) && forall c :: IsCell(c) ==> lim[c] <= max
    ensures var b := base[SectionOf(rate)].On(band);
            LimitOf(max, Shifted(lim, base), band, bw, rate, regd, cch) + b
            == Min(LimitOf(max, lim, band, bw, rate, regd, cch), max + b)
  {
    hide ToS8, Least, Shifted, Full, LimitsRead;
    var rs, n := SectionOf(rate), Widest(rate, bw) + 1;
    var b := base[rs].On(band);
    ReadShifted(lim, base, band, regd, rs, cch, n);
    var read := LimitsRead(lim, band, regd, rs, cch, n).value;
    var less := LimitsRead(Shifted(lim, base), band, regd, rs, cch, n).value;
    ReadAtMost(max, lim, band, regd, rs, cch, n);
    forall i | 0 <= i < n
      ensures less[i] == read[i] - b
    {
      ToS8Exact(read[i], b);
    }
    hide IsCell;
    LeastShifted(max, read, less, b);
    LeastCapped(max, max + b, read);
  }

  lemma {:induction false} ReadAtMost(max: S8, lim: Limits, band: Band, regd: nat, rs: nat, cch: seq<U8>, n: nat)
    requires Full(lim) && regd < REGD_MAX && rs < SECTION_NUM && n <= |cch| <= WIDTH_MAX
    requires LimitsRead(lim, band, regd, rs, cch, n).Some? && forall c :: IsCell(c) ==> lim[c] <= max
    ensures var read := LimitsRead(lim, band, regd, rs, cch, n).value; forall i :: 0 <= i < n ==> read[i] <= max
  {
    if n > 0 {
      ReadAtMost(max, lim, band, regd, rs, cch, n - 1);
      CellIsOfBand(band, regd, rs, n - 1, cch[n - 1]);
      hide CellFor, IsCell;
    }
  }

  /** On path A, whose own base the limits are relative to, the rewrite preserves the meaning (the
      lesser of offset and limit) exactly when that is at most base plus maximum: always, with a
      base that is not negative. */
  lemma PathAKeptIff(max: S8, lim: Limits, base: seq<PerBand>, off: int,
                     band: Band, bw: nat, rate: nat, regd: nat, cch: seq<U8>)
    requires Full(lim) && |base| == SECTION_NUM && bw < WIDTH_MAX && |cch| == WIDTH_MAX && rate < RATE_MAX && regd <= WW
    requires Fits(lim, base, base[SectionOf(rate)].On(band), off, band, bw, rate, regd, cch)
    requires forall c :: IsCell(c) ==> lim[c] <= max
    ensures var own := base[SectionOf(rate)].On(band);
            var meant := Min(off, LimitOf(max, lim, band, bw, rate, regd, cch));
            && (RelativePower(max, lim, base, own, off, band, bw, rate, regd, cch) == meant <==> meant <= own + max)
            && (own >= 0 ==> meant <= own + max)
  {
    var own := base[SectionOf(rate)].On(band);
    hide LimitOf, RelativePower, Fits;
    RewriteMeans(max, lim, base, own, off, band, bw, rate, regd, cch);
    LimitAtMost(max, lim, band, bw, rate, regd, cch);
  }

  lemma LimitAtMost(max: S8, lim: Limits, band: Band, bw: nat, rate: nat, regd: nat, cch: seq<U8>)
    requires Full(lim) && bw < WIDTH_MAX && |cch| == WIDTH_MAX
    ensures LimitOf(max, lim, band, bw, rate, regd, cch) <= max
  {
  }

  /** On another path it does so exactly when: with the offset the lesser one, it is not above the
      limit taken against this path's base, nor above that base plus maximum; with the limit the
      lesser one, the bases are equal and it is not above base plus maximum, or this path's base is
      the greater one and the limit is just base plus maximum. */
  lemma OtherPathKeptIff(max: S8, lim: Limits, base: seq<PerBand>, own: int, off: int,
                         band: Band, bw: nat, rate: nat, regd: nat, cch: seq<U8>)
    requires Full(lim) && |base| == SECTION_NUM && bw < WIDTH_MAX && |cch| == WIDTH_MAX && rate < RATE_MAX && regd <= WW
    requires Fits(lim, base, own, off, band, bw, rate, regd, cch) && forall c :: IsCell(c) ==> lim[c] <= max
    ensures var limit := LimitOf(max, lim, band, bw, rate, regd, cch);
            var b := base[SectionOf(rate)].On(band);
            var same := if off <= limit then off <= limit + own - b && off <= own + max
                        else if own == b then limit <= own + max
                        else own > b && limit == own + max;
            RelativePower(max, lim, base, own, off, band, bw, rate, regd, cch) == Min(off, limit) <==> same
  {
    hide LimitOf, RelativePower, Fits;
    RewriteMeans(max, lim, base, own, off, band, bw, rate, regd, cch);
    LimitAtMost(max, lim, band, bw, rate, regd, cch);
  }
}
