/** The conditional register tables (phy.c): a flat list of tiles in which condition tiles select
    which of the plain writes reach the hardware. */
module PhyTable {
  import opened Wrappers

  type U32 = x: int | 0 <= x < 0x1_0000_0000

  /** union phy_table_tile: the first word is a register address or a packed struct rtw_phy_cond. */
  datatype Tile = Tile(addr: U32, data: U32)

  /** What the two top bits and the branch field (bits 28 and 29) make of a tile. */
  datatype Kind = Cond | Else | EndIf | Check | Plain

  function KindOf(t: Tile): Kind {
    if t.addr >= 0x8000_0000 then
      var branch := t.addr / 0x1000_0000 % 4;
      if branch == 3 then EndIf else if branch == 2 then Else else Cond
    else if t.addr >= 0x4000_0000 then Check
    else Plain
  }

  /** hal->phy_cond: what the driver found out about the chip. */
  datatype Hw = Hw(cut: nat, pkg: nat, intf: nat, rfe: nat)

  predicate Agrees(want: int, have: nat) {
    want == 0 || want == have
  }

  /** check_positive, for chips other than the 8812A and 8821A. */
  predicate Holds(hw: Hw, w: U32) {
    && Agrees(w / 0x100_0000 % 16, hw.cut)
    && Agrees(w / 0x1000 % 16, hw.pkg)
    && Agrees(w / 0x100 % 16, hw.intf)
    && w % 0x100 == hw.rfe
  }

  // ----- The fields of a condition word -----

  type U8 = x: int | 0 <= x < 256
  type Bits4 = x: int | 0 <= x < 16
  type Bits2 = x: int | 0 <= x < 4

  /** struct rtw_phy_cond, from its lowest field to its highest. */
  datatype PhyCond = PhyCond(rfe: U8, intf: Bits4, pkg: Bits4, plat: Bits4, intfRsvd: Bits4, cut: Bits4,
                             branch: Bits2, neg: bool, pos: bool)

  function Pack(c: PhyCond): U32 {
    c.rfe + 0x100 * c.intf + 0x1000 * c.pkg + 0x1_0000 * c.plat + 0x10_0000 * c.intfRsvd + 0x100_0000 * c.cut
    + 0x1000_0000 * c.branch + (if c.neg then 0x4000_0000 else 0) + if c.pos then 0x8000_0000 else 0
  }

  /** Every word is a condition with its nine fields. */
  lemma EveryWordPacks(w: U32) returns (c: PhyCond)
    ensures Pack(c) == w
  {
    var w1 := w / 0x100;
    var w2 := w1 / 16;
    var w3 := w2 / 16;
    var w4 := w3 / 16;
    var w5 := w4 / 16;
    var w6 := w5 / 16;
    var w7 := w6 / 4;
    c := PhyCond(w % 0x100, w1 % 16, w2 % 16, w3 % 16, w4 % 16, w5 % 16, w6 % 4, w7 % 2 == 1, w7 / 2 == 1);
  }

  lemma InterfaceField(low: U8, v: Bits4, high: nat)
    ensures (low + 0x100 * (v + 16 * high)) / 0x100 % 16 == v
  {
    assert (low + 0x100 * (v + 16 * high)) / 0x100 == v + 16 * high;
  }

  lemma PackageField(low: nat, v: Bits4, high: nat)
    requires low < 0x1000
    ensures (low + 0x1000 * (v + 16 * high)) / 0x1000 % 16 == v
  {
    assert (low + 0x1000 * (v + 16 * high)) / 0x1000 == v + 16 * high;
  }

  lemma CutField(low: nat, v: Bits4, high: nat)
    requires low < 0x100_0000
    ensures (low + 0x100_0000 * (v + 16 * high)) / 0x100_0000 % 16 == v
  {
    assert (low + 0x100_0000 * (v + 16 * high)) / 0x100_0000 == v + 16 * high;
  }

  lemma TypeField(v: U8, high: nat)
    ensures (v + 0x100 * high) % 0x100 == v
  {
  }

  /** The word as it is split below and above each of the fields that a check reads. */
  lemma Splits(c: PhyCond)
    returns (aboveCut: nat, belowCut: nat, abovePkg: nat)
    ensures belowCut < 0x100_0000 && Pack(c) == belowCut + 0x100_0000 * (c.cut + 16 * aboveCut)
    ensures Pack(c) == (c.rfe + 0x100 * c.intf) + 0x1000 * (c.pkg + 16 * abovePkg)
    ensures Pack(c) == c.rfe + 0x100 * (c.intf + 16 * (c.pkg + 16 * abovePkg))
  {
    aboveCut := c.branch + (if c.neg then 4 else 0) + if c.pos then 8 else 0;
    belowCut := c.rfe + 0x100 * c.intf + 0x1000 * c.pkg + 0x1_0000 * c.plat + 0x10_0000 * c.intfRsvd;
    abovePkg := c.plat + 16 * (c.intfRsvd + 16 * (c.cut + 16 * aboveCut));
  }

  /** A condition selects a chip exactly when its cut, package and interface are each zero or those of
      the chip, and the front end type is the chip's; no other field matters. */
  lemma HoldsIff(hw: Hw, c: PhyCond)
    ensures Holds(hw, Pack(c)) <==>
              && (c.cut == 0 || c.cut == hw.cut)
              && (c.pkg == 0 || c.pkg == hw.pkg)
              && (c.intf == 0 || c.intf == hw.intf)
              && c.rfe == hw.rfe
  {
    hide Pack;
    var aboveCut, belowCut, abovePkg := Splits(c);
    CutField(belowCut, c.cut, aboveCut);
    PackageField(c.rfe + 0x100 * c.intf, c.pkg, abovePkg);
    InterfaceField(c.rfe, c.intf, c.pkg + 16 * abovePkg);
    TypeField(c.rfe, c.intf + 16 * (c.pkg + 16 * abovePkg));
  }

  lemma BranchField(low: nat, v: Bits2, high: nat)
    requires low < 0x1000_0000
    ensures (low + 0x1000_0000 * (v + 4 * high)) / 0x1000_0000 % 4 == v
  {
    assert (low + 0x1000_0000 * (v + 4 * high)) / 0x1000_0000 == v + 4 * high;
  }

  /** A tile opens, switches or ends a block when its pos bit is set, by its branch field; it checks the
      condition in force when only its neg bit is set; otherwise it is a write. */
  lemma KindIs(c: PhyCond, data: U32)
    ensures var kind := KindOf(Tile(Pack(c), data));
            && (kind.EndIf? <==> c.pos && c.branch == 3)
            && (kind.Else? <==> c.pos && c.branch == 2)
            && (kind.Cond? <==> c.pos && c.branch < 2)
            && (kind.Check? <==> !c.pos && c.neg)
            && (kind.Plain? <==> !c.pos && !c.neg)
  {
    var low := c.rfe + 0x100 * c.intf + 0x1000 * c.pkg + 0x1_0000 * c.plat + 0x10_0000 * c.intfRsvd
               + 0x100_0000 * c.cut;
    var high := (if c.neg then 1 else 0) + if c.pos then 2 else 0;
    assert Pack(c) == low + 0x1000_0000 * (c.branch + 4 * high);
    hide Pack;
    BranchField(low, c.branch, high);
  }

  // ----- The interpreter -----

  /** pos_cond, is_matched and is_skipped. */
  datatype State = State(cond: U32, matched: bool, skipped: bool)

  const START := State(0, true, false)

  function Step(hw: Hw, s: State, t: Tile): State {
    match KindOf(t)
    case EndIf => State(s.cond, true, false)
    case Else => s.(matched := !s.skipped)
    case Cond => s.(cond := t.addr)
    case Check => if !s.skipped && Holds(hw, s.cond) then State(s.cond, true, true) else s.(matched := false)
    case Plain => s
  }

  function Emit(s: State, t: Tile): seq<Tile> {
    if KindOf(t).Plain? && s.matched then [t] else []
  }

  function Run(hw: Hw, s: State, tiles: seq<Tile>): State
    decreases |tiles|
  {
    if tiles == [] then s else Run(hw, Step(hw, s, tiles[0]), tiles[1..])
  }

  /** The writes that reach do_cfg, in order. */
  function Trace(hw: Hw, s: State, tiles: seq<Tile>): seq<Tile>
    decreases |tiles|
  {
    if tiles == [] then [] else Emit(s, tiles[0]) + Trace(hw, Step(hw, s, tiles[0]), tiles[1..])
  }

  lemma {:induction false} Concatenate(hw: Hw, s: State, a: seq<Tile>, b: seq<Tile>)
    ensures Run(hw, s, a + b) == Run(hw, Run(hw, s, a), b)
    ensures Trace(hw, s, a + b) == Trace(hw, s, a) + Trace(hw, Run(hw, s, a), b)
    decreases |a|
  {
    if a == [] {
      assert a + b == b;
    } else {
      assert (a + b)[1..] == a[1..] + b;
      Concatenate(hw, Step(hw, s, a[0]), a[1..], b);
    }
  }

  lemma RunOne(hw: Hw, s: State, t: Tile)
    ensures Run(hw, s, [t]) == Step(hw, s, t) && Trace(hw, s, [t]) == Emit(s, t)
  {
    assert [t][1..] == [];
    assert Trace(hw, Step(hw, s, t), []) == [];
  }

  // ----- Structured tables and what they mean -----

  datatype Branch = Branch(cond: Tile, check: Tile, body: seq<Tile>)

  /** A plain write, or IF/ELIF branches, perhaps an ELSE tile with its body, and the ENDIF tile. */
  datatype Item = Write(tile: Tile) | Block(branches: seq<Branch>, orElse: Option<(Tile, seq<Tile>)>, end: Tile)

  predicate AllPlain(body: seq<Tile>) {
    forall k :: 0 <= k < |body| ==> KindOf(body[k]).Plain?
  }

  predicate GoodBranches(branches: seq<Branch>) {
    forall k :: 0 <= k < |branches| ==>
      KindOf(branches[k].cond).Cond? && KindOf(branches[k].check).Check? && AllPlain(branches[k].body)
  }

  predicate GoodItem(i: Item) {
    match i
    case Write(t) => KindOf(t).Plain?
    case Block(branches, orElse, end) =>
      && GoodBranches(branches) && KindOf(end).EndIf?
      && (orElse.Some? ==> KindOf(orElse.value.0).Else? && AllPlain(orElse.value.1))
  }

  function FlattenBranches(branches: seq<Branch>): seq<Tile> {
    if branches == [] then []
    else [branches[0].cond, branches[0].check] + branches[0].body + FlattenBranches(branches[1..])
  }

  function FlattenElse(orElse: Option<(Tile, seq<Tile>)>): seq<Tile> {
    if orElse.Some? then [orElse.value.0] + orElse.value.1 else []
  }

  function FlattenItem(i: Item): seq<Tile> {
    match i
    case Write(t) => [t]
    case Block(branches, orElse, end) => FlattenBranches(branches) + (FlattenElse(orElse) + [end])
  }

  function Flatten(items: seq<Item>): seq<Tile> {
    if items == [] then [] else FlattenItem(items[0]) + Flatten(items[1..])
  }

  function ElseBody(orElse: Option<(Tile, seq<Tile>)>): seq<Tile> {
    if orElse.Some? then orElse.value.1 else []
  }

  /** The body of the first branch whose condition holds; failing that the ELSE body, or nothing. */
  function Chosen(hw: Hw, branches: seq<Branch>, otherwise: seq<Tile>): seq<Tile> {
    if branches == [] then otherwise
    else if Holds(hw, branches[0].cond.addr) then branches[0].body
    else Chosen(hw, branches[1..], otherwise)
  }

  function MeaningOf(hw: Hw, i: Item): seq<Tile> {
    match i
    case Write(t) => [t]
    case Block(branches, orElse, _) => Chosen(hw, branches, ElseBody(orElse))
  }

  function Meaning(hw: Hw, items: seq<Item>): seq<Tile> {
    if items == [] then [] else MeaningOf(hw, items[0]) + Meaning(hw, items[1..])
  }

  lemma {:induction false} PlainBody(hw: Hw, s: State, body: seq<Tile>)
    requires AllPlain(body)
    ensures Run(hw, s, body) == s && Trace(hw, s, body) == if s.matched then body else []
    decreases |body|
  {
    if body != [] {
      PlainBody(hw, s, body[1..]);
      assert body == [body[0]] + body[1..];
    }
  }

  /** One branch: its body runs exactly when no branch before it was taken and its condition holds. */
  lemma OneBranch(hw: Hw, s: State, b: Branch)
    requires KindOf(b.cond).Cond? && KindOf(b.check).Check? && AllPlain(b.body)
    ensures var t := Run(hw, s, [b.cond, b.check] + b.body);
            var taken := !s.skipped && Holds(hw, b.cond.addr);
            && t == State(b.cond.addr, taken, s.skipped || taken)
            && Trace(hw, s, [b.cond, b.check] + b.body) == if taken then b.body else []
  {
    hide Holds, Run, Trace;
    var s1 := Step(hw, s, b.cond);
    RunOne(hw, s, b.cond);
    RunOne(hw, s1, b.check);
    Concatenate(hw, s, [b.cond], [b.check]);
    assert [b.cond] + [b.check] == [b.cond, b.check];
    Concatenate(hw, s, [b.cond, b.check], b.body);
    PlainBody(hw, Step(hw, s1, b.check), b.body);
  }

  /** The branches together: the first whose condition holds, and none once one was taken. */
  lemma {:induction false} Branches(hw: Hw, s: State, branches: seq<Branch>, otherwise: seq<Tile>)
    requires GoodBranches(branches)
    ensures var t, trace := Run(hw, s, FlattenBranches(branches)), Trace(hw, s, FlattenBranches(branches));
            && (s.skipped ==> t.skipped && trace == [])
            && (!s.skipped ==> trace + (if t.skipped then [] else otherwise) == Chosen(hw, branches, otherwise))
    decreases |branches|
  {
    if branches != [] {
      hide Holds, Run, Trace;
      var b, rest := branches[0], FlattenBranches(branches[1..]);
      var first := [b.cond, b.check] + b.body;
      OneBranch(hw, s, b);
      Concatenate(hw, s, first, rest);
      Branches(hw, Run(hw, s, first), branches[1..], otherwise);
    }
  }

  /** From a clear state an item emits what it means and leaves a clear state. */
  lemma OneItem(hw: Hw, s: State, i: Item)
    requires GoodItem(i) && s.matched && !s.skipped
    ensures var t := Run(hw, s, FlattenItem(i));
            && t.matched && !t.skipped
            && Trace(hw, s, FlattenItem(i)) == MeaningOf(hw, i)
  {
    match i
    case Write(t) =>
      assert [t][1..] == [];
    case Block(branches, orElse, end) =>
      Branches(hw, s, branches, ElseBody(orElse));
      var t := Run(hw, s, FlattenBranches(branches));
      Concatenate(hw, s, FlattenBranches(branches), FlattenElse(orElse) + [end]);
      ElseAndEnd(hw, t, orElse, end);
      hide Holds, Run, Trace, Chosen, FlattenBranches;
  }

  lemma ElseAndEnd(hw: Hw, s: State, orElse: Option<(Tile, seq<Tile>)>, end: Tile)
    requires KindOf(end).EndIf? && (orElse.Some? ==> KindOf(orElse.value.0).Else? && AllPlain(orElse.value.1))
    ensures var t := Run(hw, s, FlattenElse(orElse) + [end]);
            t.matched && !t.skipped
    ensures Trace(hw, s, FlattenElse(orElse) + [end]) == if s.skipped then [] else ElseBody(orElse)
  {
    hide Holds;
    Concatenate(hw, s, FlattenElse(orElse), [end]);
    assert [end][1..] == [];
    if orElse.Some? {
      var (tile, body) := orElse.value;
      PlainBody(hw, Step(hw, s, tile), body);
      assert FlattenElse(orElse)[1..] == body;
    }
  }

  /** Interpreting a flattened table performs exactly the writes the structured table means, for
      every chip description. */
  lemma {:induction false} FlatIsMeaning(hw: Hw, s: State, items: seq<Item>)
    requires (forall k :: 0 <= k < |items| ==> GoodItem(items[k])) && s.matched && !s.skipped
    ensures Trace(hw, s, Flatten(items)) == Meaning(hw, items)
    decreases |items|
  {
    if items != [] {
      OneItem(hw, s, items[0]);
      hide Holds, Run, Trace, FlattenItem, MeaningOf, GoodItem;
      Concatenate(hw, s, FlattenItem(items[0]), Flatten(items[1..]));
      FlatIsMeaning(hw, Run(hw, s, FlattenItem(items[0])), items[1..]);
    }
  }

  // ----- Arbitrary tiles: when a write is performed -----

  /** The state in front of tile k. */
  function At(hw: Hw, tiles: seq<Tile>, k: nat): State
    requires k <= |tiles|
  {
    if k == 0 then START else Step(hw, At(hw, tiles, k - 1), tiles[k - 1])
  }

  /** Where the section of tile k starts: behind the last ENDIF tile, or at the beginning. */
  function Section(tiles: seq<Tile>, k: nat): (b: nat)
    requires k <= |tiles|
    ensures b <= k && (b == 0 || KindOf(tiles[b - 1]).EndIf?)
    ensures forall j :: b <= j < k ==> !KindOf(tiles[j]).EndIf?
  {
    if k == 0 || KindOf(tiles[k - 1]).EndIf? then k else Section(tiles, k - 1)
  }

  /** The condition in force at tile k: that of the last IF/ELIF tile before it. */
  function InForce(tiles: seq<Tile>, k: nat): U32
    requires k <= |tiles|
  {
    if k == 0 then 0 else if KindOf(tiles[k - 1]).Cond? then tiles[k - 1].addr else InForce(tiles, k - 1)
  }

  /** Tile m checks a condition that holds. */
  predicate Hit(hw: Hw, tiles: seq<Tile>, m: nat)
    requires m < |tiles|
  {
    KindOf(tiles[m]).Check? && Holds(hw, InForce(tiles, m))
  }

  ghost predicate SomeHit(hw: Hw, tiles: seq<Tile>, k: nat)
    requires k <= |tiles|
  {
    exists m :: Section(tiles, k) <= m < k && Hit(hw, tiles, m)
  }

  /** The position behind the last check, ELSE or ENDIF tile before k; 0 if there is none. */
  function Governor(tiles: seq<Tile>, k: nat): (r: nat)
    requires k <= |tiles|
    ensures Section(tiles, k) <= r <= k && (r > 0 ==> !KindOf(tiles[r - 1]).Plain? && !KindOf(tiles[r - 1]).Cond?)
    ensures forall j :: r <= j < k ==> KindOf(tiles[j]).Plain? || KindOf(tiles[j]).Cond?
  {
    if k == 0 || (!KindOf(tiles[k - 1]).Plain? && !KindOf(tiles[k - 1]).Cond?) then k else Governor(tiles, k - 1)
  }

  /** Whether a write at position k is performed, said without running the table: the tile that
      governs it is a check whose condition is the first in its section to hold, or an ELSE with
      no condition holding before it in its section, or it opens the section. */
  ghost predicate Live(hw: Hw, tiles: seq<Tile>, k: nat)
    requires k <= |tiles|
  {
    var r := Governor(tiles, k);
    r == 0 || KindOf(tiles[r - 1]).EndIf?
    || (!SomeHit(hw, tiles, r - 1) && (KindOf(tiles[r - 1]).Check? ==> Hit(hw, tiles, r - 1)))
  }

  lemma HitStep(hw: Hw, tiles: seq<Tile>, k: nat)
    requires 0 < k <= |tiles|
    ensures SomeHit(hw, tiles, k)
       <==> !KindOf(tiles[k - 1]).EndIf? && (SomeHit(hw, tiles, k - 1) || Hit(hw, tiles, k - 1))
  {
    hide Holds, InForce;
    if !KindOf(tiles[k - 1]).EndIf? && Hit(hw, tiles, k - 1) {
      assert Section(tiles, k) <= k - 1 && Hit(hw, tiles, k - 1);
    }
  }

  lemma LiveStep(hw: Hw, tiles: seq<Tile>, k: nat)
    requires 0 < k <= |tiles|
    ensures Live(hw, tiles, k) ==
            match KindOf(tiles[k - 1])
            case EndIf => true
            case Else => !SomeHit(hw, tiles, k - 1)
            case Check => Hit(hw, tiles, k - 1) && !SomeHit(hw, tiles, k - 1)
            case Cond => Live(hw, tiles, k - 1)
            case Plain => Live(hw, tiles, k - 1)
  {
    hide Holds, InForce, SomeHit, Section, Hit;
  }

  lemma {:induction false} StateIs(hw: Hw, tiles: seq<Tile>, k: nat)
    requires k <= |tiles|
    ensures var s := At(hw, tiles, k);
            && s.cond == InForce(tiles, k)
            && s.skipped == SomeHit(hw, tiles, k)
            && s.matched == Live(hw, tiles, k)
  {
    if k > 0 {
      StateIs(hw, tiles, k - 1);
      HitStep(hw, tiles, k);
      LiveStep(hw, tiles, k);
      hide Holds, SomeHit, Section, Live, Governor;
    }
  }

  /** The plain tiles before k that stand at a live position, in order. */
  ghost function LiveWrites(hw: Hw, tiles: seq<Tile>, k: nat): seq<Tile>
    requires k <= |tiles|
  {
    if k == 0 then []
    else LiveWrites(hw, tiles, k - 1)
         + if KindOf(tiles[k - 1]).Plain? && Live(hw, tiles, k - 1) then [tiles[k - 1]] else []
  }

  lemma {:induction false} FromHere(hw: Hw, tiles: seq<Tile>, k: nat)
    requires k <= |tiles|
    ensures LiveWrites(hw, tiles, k) + Trace(hw, At(hw, tiles, k), tiles[k..]) == LiveWrites(hw, tiles, |tiles|)
    decreases |tiles| - k
  {
    hide Holds, Live, Step, SomeHit, InForce, KindOf;
    if k < |tiles| {
      FromHere(hw, tiles, k + 1);
      StateIs(hw, tiles, k);
      assert tiles[k..][1..] == tiles[k + 1..];
    }
  }

  /** On arbitrary tiles: exactly the plain tiles at live positions are written, in order. */
  lemma TraceIsLiveWrites(hw: Hw, tiles: seq<Tile>)
    ensures Trace(hw, START, tiles) == LiveWrites(hw, tiles, |tiles|)
  {
    FromHere(hw, tiles, 0);
    assert tiles[0..] == tiles;
  }

  /** Between two ENDIF tiles at most one check is honoured, and nothing behind it is live that
      another tile governs. */
  lemma OneMatchPerSection(hw: Hw, tiles: seq<Tile>, i: nat, j: nat)
    requires i < j <= |tiles| && Section(tiles, i) == Section(tiles, j)
    requires Live(hw, tiles, i) && Live(hw, tiles, j) && Governor(tiles, i) > Section(tiles, i)
    ensures KindOf(tiles[Governor(tiles, i) - 1]).Check? ==> Governor(tiles, j) == Governor(tiles, i)
  {
    hide Hit, Section, Governor, KindOf;
    var g, h := Governor(tiles, i), Governor(tiles, j);
    if h > g {
      SameSection(tiles, h - 1, j);
    }
  }

  lemma {:induction false} SameSection(tiles: seq<Tile>, a: nat, b: nat)
    requires b <= |tiles| && Section(tiles, b) <= a <= b
    ensures Section(tiles, a) == Section(tiles, b)
  {
    if a < b {
      SameSection(tiles, a, b - 1);
    }
  }

  // ----- The driver's loop -----

  /** A table as it is stored: address and data words in turn; a last odd word is not used. */
  function Tiles(words: seq<U32>): (tiles: seq<Tile>)
    ensures |tiles| == |words| / 2
    decreases |words|
  {
    if |words| < 2 then [] else [Tile(words[0], words[1])] + Tiles(words[2..])
  }

  lemma {:induction false} TileAt(words: seq<U32>, k: nat)
    requires 2 * k + 1 < |words|
    ensures Tiles(words)[k] == Tile(words[2 * k], words[2 * k + 1])
    decreases k
  {
    if k > 0 {
      TileAt(words[2..], k - 1);
    }
  }

  /** rtw_parse_tbl_phy_cond: returns the writes in the order in which do_cfg gets them. */
  method ParseTable(tbl: array<U32>, hw: Hw) returns (trace: seq<Tile>)
    ensures trace == Trace(hw, START, Tiles(tbl[..])) == LiveWrites(hw, Tiles(tbl[..]), tbl.Length / 2)
  {
    hide Holds, Live, SomeHit, InForce, Section;
    ghost var tiles := Tiles(tbl[..]);
    var cond: U32, matched, skipped := 0, true, false;
    var p := 0;
    trace := [];
    while p < tbl.Length / 2
      invariant 0 <= p <= tbl.Length / 2
      invariant State(cond, matched, skipped) == At(hw, tiles, p) && trace == LiveWrites(hw, tiles, p)
    {
      var t := Tile(tbl[2 * p], tbl[2 * p + 1]);
      TileAt(tbl[..], p);
      StateIs(hw, tiles, p);
      match KindOf(t) {
        case EndIf => matched, skipped := true, false;
        case Else => matched := !skipped;
        case Cond => cond := t.addr;
        case Check =>
          if !skipped {
            if Holds(hw, cond) {
              matched, skipped := true, true;
            } else {
              matched, skipped := false, false;
            }
          } else {
            matched := false;
          }
        case Plain =>
          if matched {
            trace := trace + [t];
          }
      }
      p := p + 1;
    }
    TraceIsLiveWrites(hw, tiles);
  }
}
