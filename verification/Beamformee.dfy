/** The beamformee allocator (bf.c): per-interface roles, two counters, and a bitmap of the
    register slots that single-user beamformees hold. */
module Beamformee {

  datatype Role = NoBfee | Su | Mu

  /** rtwvif->bfee: the role and, for a single-user beamformee, its register slot. */
  datatype Bfee = Bfee(role: Role, suRegIndex: nat)

  const NO_INDEX := 0xff

  /** rtwdev->bf_info and the interfaces. `entries[i]` is the interface whose address the i-th
      hardware entry (REG_ASSOCIATED_BFMERi_INFO) holds, if any. */
  datatype Bf = Bf(suMax: nat, muMax: nat, vifs: seq<Bfee>, suCnt: nat, muCnt: nat,
                   slots: set<nat>, entries: map<nat, nat>)

  /** What the association supplies: whether the station is known, and which kind of
      beamforming both sides support. */
  datatype Caps = Caps(found: bool, mu: bool, su: bool)

  function Less(cnt: nat): nat {
    (cnt + 255) % 256
  }

  /** The free-slot search: the first clear bit, if there is one. */
  function FreeSlot(slots: set<nat>, suMax: nat, i: nat): (r: nat)
    requires i <= suMax
    ensures i <= r <= suMax && (r < suMax ==> r !in slots)
    decreases suMax - i
  {
    if i == suMax || i !in slots then i else FreeSlot(slots, suMax, i + 1)
  }

  function JoinMu(s: Bf, v: nat): Bf
    requires v < |s.vifs|
  {
    s.(vifs := s.vifs[v := s.vifs[v].(role := Mu)], muCnt := s.muCnt + 1, entries := s.entries[0 := v])
  }

  function JoinSu(s: Bf, v: nat): Bf
    requires v < |s.vifs|
  {
    var i := FreeSlot(s.slots, s.suMax, 0);
    var index := if i < s.suMax then i else s.vifs[v].suRegIndex;
    s.(vifs := s.vifs[v := Bfee(Su, index)], suCnt := s.suCnt + 1,
       slots := if i < s.suMax then s.slots + {i} else s.slots,
       entries := s.entries[(if index == 1 then 1 else 0) := v])
  }

  /** rtw_bf_assoc. */
  function Assoc(s: Bf, v: nat, caps: Caps): Bf
    requires v < |s.vifs|
  {
    if !caps.found then s
    else if caps.mu then if s.muCnt >= s.muMax then s else JoinMu(s, v)
    else if caps.su then if s.suCnt >= s.suMax then s else JoinSu(s, v)
    else s
  }

  /** rtw_bf_disassoc, with rtw_bf_remove_bfee_su or rtw_bf_remove_bfee_mu. */
  function Disassoc(s: Bf, v: nat): Bf
    requires v < |s.vifs|
  {
    match s.vifs[v].role
    case NoBfee => s
    case Mu => s.(vifs := s.vifs[v := s.vifs[v].(role := NoBfee)], muCnt := Less(s.muCnt), entries := s.entries - {0})
    case Su =>
      var index := s.vifs[v].suRegIndex;
      s.(vifs := s.vifs[v := Bfee(NoBfee, NO_INDEX)], suCnt := Less(s.suCnt), slots := s.slots - {index},
         entries := if index < 2 then s.entries - {index} else s.entries)
  }

  // ----- The agreement of counters, bitmap and interfaces -----

  function Count(vifs: seq<Bfee>, role: Role): (n: nat)
    ensures n <= |vifs|
  {
    if vifs == [] then 0 else (if vifs[0].role == role then 1 else 0) + Count(vifs[1..], role)
  }

  function Held(vifs: seq<Bfee>): set<nat> {
    if vifs == [] then {} else (if vifs[0].role.Su? then {vifs[0].suRegIndex} else {}) + Held(vifs[1..])
  }

  predicate DistinctIndices(vifs: seq<Bfee>) {
    forall v, w :: 0 <= v < w < |vifs| && vifs[v].role.Su? && vifs[w].role.Su? ==>
      vifs[v].suRegIndex != vifs[w].suRegIndex
  }

  predicate Inv(s: Bf) {
    && s.suMax <= 255 && s.muMax <= 255
    && s.suCnt == Count(s.vifs, Su) && s.suCnt <= s.suMax
    && s.muCnt == Count(s.vifs, Mu) && s.muCnt <= s.muMax
    && s.slots == Held(s.vifs) && (forall i <- s.slots :: i < s.suMax)
    && DistinctIndices(s.vifs)
  }

  lemma {:induction false} CountUpdate(vifs: seq<Bfee>, v: nat, b: Bfee, role: Role)
    requires v < |vifs|
    ensures Count(vifs[v := b], role)
         == Count(vifs, role) - (if vifs[v].role == role then 1 else 0) + (if b.role == role then 1 else 0)
    decreases |vifs|
  {
    var next := vifs[v := b];
    if v == 0 {
      assert next[1..] == vifs[1..];
    } else {
      assert next[1..] == vifs[1..][v - 1 := b];
      CountUpdate(vifs[1..], v - 1, b, role);
    }
  }

  lemma {:induction false} HeldIs(vifs: seq<Bfee>, i: nat)
    ensures i in Held(vifs) <==> exists v :: 0 <= v < |vifs| && vifs[v].role.Su? && vifs[v].suRegIndex == i
    decreases |vifs|
  {
    if vifs != [] {
      HeldIs(vifs[1..], i);
      if i in Held(vifs[1..]) {
        var v :| 0 <= v < |vifs| - 1 && vifs[1..][v].role.Su? && vifs[1..][v].suRegIndex == i;
        assert vifs[v + 1].role.Su? && vifs[v + 1].suRegIndex == i;
      }
      if v :| 0 <= v < |vifs| && vifs[v].role.Su? && vifs[v].suRegIndex == i {
        assert v == 0 || (vifs[1..][v - 1].role.Su? && vifs[1..][v - 1].suRegIndex == i);
      }
    }
  }

  /** Distinct holders: as many slots are held as there are single-user beamformees. */
  lemma {:induction false} HeldSize(vifs: seq<Bfee>)
    requires DistinctIndices(vifs)
    ensures |Held(vifs)| == Count(vifs, Su)
    decreases |vifs|
  {
    if vifs != [] {
      assert DistinctIndices(vifs[1..]) by {
        forall v, w | 0 <= v < w < |vifs[1..]| && vifs[1..][v].role.Su? && vifs[1..][w].role.Su?
          ensures vifs[1..][v].suRegIndex != vifs[1..][w].suRegIndex
        {
          assert vifs[v + 1].suRegIndex != vifs[w + 1].suRegIndex;
        }
      }
      HeldSize(vifs[1..]);
      if vifs[0].role.Su? {
        HeldIs(vifs[1..], vifs[0].suRegIndex);
        assert vifs[0].suRegIndex !in Held(vifs[1..]);
      }
    }
  }

  lemma {:induction false} FullSearch(slots: set<nat>, suMax: nat, i: nat)
    requires i <= suMax && FreeSlot(slots, suMax, i) == suMax
    ensures forall k :: i <= k < suMax ==> k in slots
    decreases suMax - i
  {
    if i < suMax {
      FullSearch(slots, suMax, i + 1);
    }
  }

  lemma {:induction false} Pigeonhole(slots: set<nat>, n: nat)
    requires forall k :: 0 <= k < n ==> k in slots
    ensures |slots| >= n
  {
    if n > 0 {
      Pigeonhole(slots - {n - 1}, n - 1);
    }
  }

  /** Below the limit the search for a free slot succeeds. */
  lemma SearchSucceeds(s: Bf)
    requires Inv(s) && s.suCnt < s.suMax
    ensures FreeSlot(s.slots, s.suMax, 0) < s.suMax
  {
    HeldSize(s.vifs);
    if FreeSlot(s.slots, s.suMax, 0) == s.suMax {
      FullSearch(s.slots, s.suMax, 0);
      Pigeonhole(s.slots, s.suMax);
    }
  }

  /** Replacing an interface without a slot changes the held slots by its new one. */
  lemma {:induction false} HeldUpdate(vifs: seq<Bfee>, v: nat, b: Bfee)
    requires v < |vifs| && !vifs[v].role.Su?
    ensures Held(vifs[v := b]) == Held(vifs) + if b.role.Su? then {b.suRegIndex} else {}
    decreases |vifs|
  {
    var next := vifs[v := b];
    if v == 0 {
      assert next[1..] == vifs[1..];
    } else {
      assert next[1..] == vifs[1..][v - 1 := b];
      HeldUpdate(vifs[1..], v - 1, b);
    }
  }

  lemma CountsUpdate(vifs: seq<Bfee>, v: nat, b: Bfee)
    requires v < |vifs|
    ensures forall role ::
              Count(vifs[v := b], role)
              == Count(vifs, role) - (if vifs[v].role == role then 1 else 0) + (if b.role == role then 1 else 0)
  {
    forall role {
      CountUpdate(vifs, v, b, role);
    }
  }

  lemma JoinMuKeeps(s: Bf, v: nat)
    requires Inv(s) && v < |s.vifs| && s.vifs[v].role.NoBfee? && s.muCnt < s.muMax
    ensures Inv(JoinMu(s, v))
  {
    var b := s.vifs[v].(role := Mu);
    CountsUpdate(s.vifs, v, b);
    HeldUpdate(s.vifs, v, b);
  }

  lemma JoinSuKeeps(s: Bf, v: nat)
    requires Inv(s) && v < |s.vifs| && s.vifs[v].role.NoBfee? && s.suCnt < s.suMax
    ensures Inv(JoinSu(s, v))
  {
    SearchSucceeds(s);
    var i := FreeSlot(s.slots, s.suMax, 0);
    var b := Bfee(Su, i);
    CountsUpdate(s.vifs, v, b);
    HeldUpdate(s.vifs, v, b);
    HeldIs(s.vifs, i);
  }

  /** The call returns early: station unknown, no beamforming in common, or the limit reached. */
  predicate Ignored(s: Bf, caps: Caps) {
    !caps.found || if caps.mu then s.muCnt >= s.muMax else !caps.su || s.suCnt >= s.suMax
  }

  /** Associating keeps the agreement exactly when the interface had no role yet, or when the
      call returns early: an interface associated twice leaks its count or its slot. */
  lemma AssocKeepsIff(s: Bf, v: nat, caps: Caps)
    requires Inv(s) && v < |s.vifs|
    ensures Inv(Assoc(s, v, caps)) <==> s.vifs[v].role.NoBfee? || Ignored(s, caps)
  {
    var t := Assoc(s, v, caps);
    if t != s {
      if s.vifs[v].role.NoBfee? {
        if caps.mu {
          JoinMuKeeps(s, v);
        } else {
          JoinSuKeeps(s, v);
        }
      } else {
        CountsUpdate(s.vifs, v, t.vifs[v]);
        assert t.vifs == s.vifs[v := t.vifs[v]];
        hide FreeSlot, Count, Held, DistinctIndices;
      }
    }
  }

  /** One interface associated twice: two counted, one there, and its first slot is never freed. */
  lemma DoubleAssociationLeaks(caps: Caps)
    requires caps.found && !caps.mu && caps.su
    ensures var s := Assoc(Assoc(Idle(2, 1, 1), 0, caps), 0, caps);
            && s.suCnt == 2 && Count(s.vifs, Su) == 1 && s.slots == {0, 1} && s.vifs[0].suRegIndex == 1
            && Disassoc(s, 0).slots == {0} && Disassoc(s, 0).suCnt == 1
  {
    var s1 := Assoc(Idle(2, 1, 1), 0, caps);
    assert s1.slots == {0} && s1.vifs == [Bfee(Su, 0)];
    assert FreeSlot(s1.slots, 2, 0) == 1;
    assert Assoc(s1, 0, caps).vifs == [Bfee(Su, 1)];
  }

  lemma DisassocKeeps(s: Bf, v: nat)
    requires Inv(s) && v < |s.vifs|
    ensures Inv(Disassoc(s, v)) && Disassoc(s, v).vifs == s.vifs[v := Disassoc(s, v).vifs[v]]
    ensures Disassoc(s, v).vifs[v].role.NoBfee?
  {
    var t := Disassoc(s, v);
    var b := t.vifs[v];
    CountsUpdate(s.vifs, v, b);
    if s.vifs[v].role.Su? {
      HeldWithout(s.vifs, v, b);
    } else {
      assert t.vifs == s.vifs[v := b];
      HeldUpdate(s.vifs, v, b);
    }
  }

  lemma HeldWithout(vifs: seq<Bfee>, v: nat, b: Bfee)
    requires v < |vifs| && vifs[v].role.Su? && b.role.NoBfee? && DistinctIndices(vifs)
    ensures Held(vifs[v := b]) == Held(vifs) - {vifs[v].suRegIndex}
  {
    var next := vifs[v := b];
    forall i
      ensures i in Held(next) <==> i in Held(vifs) && i != vifs[v].suRegIndex
    {
      HeldIs(next, i);
      HeldIs(vifs, i);
      if w :| 0 <= w < |vifs| && vifs[w].role.Su? && vifs[w].suRegIndex == i {
        assert w == v || next[w] == vifs[w];
      }
    }
  }

  // ----- Runs -----

  datatype Event = Associate(v: nat, caps: Caps) | Disassociate(v: nat)

  function Step(s: Bf, e: Event): Bf
    requires e.v < |s.vifs|
  {
    match e
    case Associate(v, caps) => Assoc(s, v, caps)
    case Disassociate(v) => Disassoc(s, v)
  }

  /** A run in which an interface associates only from role NoBfee. */
  predicate Runs(s: Bf, events: seq<Event>)
    decreases |events|
  {
    events == []
    || (&& events[0].v < |s.vifs|
        && (events[0].Associate? ==> s.vifs[events[0].v].role.NoBfee?)
        && Runs(Step(s, events[0]), events[1..]))
  }

  function After(s: Bf, events: seq<Event>): Bf
    requires Runs(s, events)
    decreases |events|
  {
    if events == [] then s else After(Step(s, events[0]), events[1..])
  }

  lemma {:induction false} RunKeeps(s: Bf, events: seq<Event>)
    requires Inv(s) && Runs(s, events)
    ensures Inv(After(s, events))
    decreases |events|
  {
    if events != [] {
      match events[0]
      case Associate(v, caps) =>
        AssocKeepsIff(s, v, caps);
        RunKeeps(Step(s, events[0]), events[1..]);
      case Disassociate(v) =>
        DisassocKeeps(s, v);
        RunKeeps(Step(s, events[0]), events[1..]);
    }
  }

  function Idle(suMax: nat, muMax: nat, n: nat): Bf {
    Bf(suMax, muMax, seq(n, _ => Bfee(NoBfee, 0)), 0, 0, {}, map[])
  }

  lemma {:induction false} IdleIsEmpty(n: nat, role: Role)
    requires !role.NoBfee?
    ensures Count(seq(n, _ => Bfee(NoBfee, 0)), role) == 0 && Held(seq(n, _ => Bfee(NoBfee, 0))) == {}
  {
    if n > 0 {
      assert seq(n, _ => Bfee(NoBfee, 0))[1..] == seq(n - 1, _ => Bfee(NoBfee, 0));
      IdleIsEmpty(n - 1, role);
    }
  }

  /** Over every run from idle: the counters count the interfaces, the set bits are the slots of
      the single-user ones and as many, all below the limit, and a single-user association below
      the limit always finds a slot. */
  lemma AllocatorSafety(suMax: nat, muMax: nat, n: nat, events: seq<Event>)
    requires suMax <= 255 && muMax <= 255 && Runs(Idle(suMax, muMax, n), events)
    ensures var s := After(Idle(suMax, muMax, n), events);
            && Inv(s) && |s.slots| == s.suCnt == Count(s.vifs, Su) && s.muCnt == Count(s.vifs, Mu)
            && (s.suCnt < s.suMax ==> FreeSlot(s.slots, s.suMax, 0) < s.suMax)
  {
    IdleIsEmpty(n, Su);
    IdleIsEmpty(n, Mu);
    RunKeeps(Idle(suMax, muMax, n), events);
    var s := After(Idle(suMax, muMax, n), events);
    HeldSize(s.vifs);
    if s.suCnt < s.suMax {
      SearchSucceeds(s);
    }
  }

  /** Disassociating undoes an association: counters, slots and the other interfaces are back. */
  lemma DisassocUndoesAssoc(s: Bf, v: nat, caps: Caps)
    requires Inv(s) && v < |s.vifs| && s.vifs[v].role.NoBfee?
    ensures var t := Disassoc(Assoc(s, v, caps), v);
            && t.suCnt == s.suCnt && t.muCnt == s.muCnt && t.slots == s.slots
            && t.vifs == s.vifs[v := t.vifs[v]] && t.vifs[v].role.NoBfee?
  {
    if s.suCnt < s.suMax {
      SearchSucceeds(s);
    }
  }

  // ----- Who owns the hardware entries -----

  /** Every beamformee's hardware entry holds its own address; a multi-user one uses entry 0. */
  predicate Owned(s: Bf) {
    forall v :: 0 <= v < |s.vifs| ==>
      && (s.vifs[v].role.Su? ==> s.vifs[v].suRegIndex in s.entries && s.entries[s.vifs[v].suRegIndex] == v)
      && (s.vifs[v].role.Mu? ==> 0 in s.entries && s.entries[0] == v)
  }

  /** With the 8821C limits an association keeps that exactly when it does not bring a multi-user
      beamformee and the single-user holder of slot 0 together: both write entry 0. */
  lemma OwnedAfterAssocIff(s: Bf, v: nat, caps: Caps)
    requires Inv(s) && Owned(s) && s.suMax == 2 && s.muMax == 1
    requires v < |s.vifs| && s.vifs[v].role.NoBfee? && Assoc(s, v, caps) != s
    ensures Owned(Assoc(s, v, caps))
       <==> if caps.mu then 0 !in s.slots else s.muCnt == 0 || FreeSlot(s.slots, 2, 0) != 0
  {
    if caps.mu {
      HeldIs(s.vifs, 0);
      if 0 in s.slots {
        var w :| 0 <= w < |s.vifs| && s.vifs[w].role.Su? && s.vifs[w].suRegIndex == 0;
        assert Assoc(s, v, caps).vifs[w].role.Su?;
      } else {
        NoOther(s, v, Mu);
      }
    } else {
      SearchSucceeds(s);
      var i := FreeSlot(s.slots, 2, 0);
      HeldIs(s.vifs, i);
      if i == 0 && s.muCnt > 0 {
        var w := SomeWith(s.vifs, Mu);
        assert Assoc(s, v, caps).vifs[w].role.Mu?;
      } else if s.muCnt == 0 {
        NoOther(s, v, Mu);
      }
    }
  }

  lemma {:induction false} SomeWith(vifs: seq<Bfee>, role: Role) returns (w: nat)
    requires Count(vifs, role) > 0
    ensures w < |vifs| && vifs[w].role == role
    decreases |vifs|
  {
    if vifs[0].role == role {
      w := 0;
    } else {
      w := SomeWith(vifs[1..], role);
      w := w + 1;
    }
  }

  lemma {:induction false} NoneWith(vifs: seq<Bfee>, role: Role, w: nat)
    requires Count(vifs, role) == 0 && w < |vifs|
    ensures vifs[w].role != role
    decreases |vifs|
  {
    if w > 0 {
      NoneWith(vifs[1..], role, w - 1);
    }
  }

  lemma NoOther(s: Bf, v: nat, role: Role)
    requires v < |s.vifs| && Count(s.vifs, role) == 0
    ensures forall w :: 0 <= w < |s.vifs| ==> s.vifs[w].role != role
  {
    forall w | 0 <= w < |s.vifs| {
      NoneWith(s.vifs, role, w);
    }
  }

  /** The hardware entry of an interface with a role. */
  function EntryOf(b: Bfee): nat {
    if b.role.Mu? then 0 else b.suRegIndex
  }

  predicate HoldsEntry(s: Bf, w: nat)
    requires w < |s.vifs|
  {
    !s.vifs[w].role.NoBfee? && EntryOf(s.vifs[w]) in s.entries && s.entries[EntryOf(s.vifs[w])] == w
  }

  /** Disassociating leaves another interface its entry exactly when the leaving one has no role or
      uses a different entry. */
  lemma DisassocLeavesEntryIff(s: Bf, v: nat, w: nat)
    requires Inv(s) && v < |s.vifs| && w < |s.vifs| && v != w && HoldsEntry(s, w)
    ensures HoldsEntry(Disassoc(s, v), w) <==> s.vifs[v].role.NoBfee? || EntryOf(s.vifs[v]) != EntryOf(s.vifs[w])
  {
    hide Count, Held;
    if s.vifs[v].role.Su? && s.vifs[w].role.Su? {
      var a, b := if v < w then v else w, if v < w then w else v;
      assert s.vifs[a].suRegIndex != s.vifs[b].suRegIndex;
    }
  }

  /** No stale entry: each one that is set is the entry of an interface that has a role now. */
  predicate NoStale(s: Bf) {
    forall i <- s.entries ::
      s.entries[i] < |s.vifs| && !s.vifs[s.entries[i]].role.NoBfee? && EntryOf(s.vifs[s.entries[i]]) == i
  }

  lemma AssocLeavesNoStale(s: Bf, v: nat, caps: Caps)
    requires Inv(s) && NoStale(s) && s.suMax <= 2 && v < |s.vifs| && s.vifs[v].role.NoBfee?
    ensures NoStale(Assoc(s, v, caps))
  {
    if s.suCnt < s.suMax {
      SearchSucceeds(s);
    }
    hide Count, Held, DistinctIndices, FreeSlot;
  }

  /** Disassociating takes the interface's own entry away with it. */
  lemma DisassocLeavesNoStale(s: Bf, v: nat)
    requires Inv(s) && NoStale(s) && s.suMax <= 2 && v < |s.vifs|
    ensures NoStale(Disassoc(s, v))
    ensures !s.vifs[v].role.NoBfee? ==> Disassoc(s, v).entries == s.entries - {EntryOf(s.vifs[v])}
  {
    if s.vifs[v].role.Su? {
      HeldIs(s.vifs, s.vifs[v].suRegIndex);
      assert s.vifs[v].suRegIndex in s.slots;
    }
    hide Count, Held, DistinctIndices;
  }

  lemma {:induction false} RunLeavesNoStale(s: Bf, events: seq<Event>)
    requires Inv(s) && NoStale(s) && s.suMax <= 2 && Runs(s, events)
    ensures NoStale(After(s, events))
    decreases |events|
  {
    if events != [] {
      var v := events[0].v;
      if events[0].Associate? {
        AssocKeepsIff(s, v, events[0].caps);
        AssocLeavesNoStale(s, v, events[0].caps);
      } else {
        DisassocKeeps(s, v);
        DisassocLeavesNoStale(s, v);
      }
      hide Inv, NoStale, Assoc, Disassoc;
      RunLeavesNoStale(Step(s, events[0]), events[1..]);
    }
  }

  /** With at most two single-user slots, as on the 8821C, over every run from idle: an entry that is
      set names an interface that is associated now and uses that entry; and when the last beamformee
      has left, no entry is set. */
  lemma EntriesSafety(suMax: nat, muMax: nat, n: nat, events: seq<Event>)
    requires suMax <= 2 && muMax <= 255 && Runs(Idle(suMax, muMax, n), events)
    ensures var s := After(Idle(suMax, muMax, n), events);
            NoStale(s) && (s.suCnt == 0 && s.muCnt == 0 ==> s.entries == map[])
  {
    IdleIsEmpty(n, Su);
    IdleIsEmpty(n, Mu);
    RunKeeps(Idle(suMax, muMax, n), events);
    RunLeavesNoStale(Idle(suMax, muMax, n), events);
    var s := After(Idle(suMax, muMax, n), events);
    if s.suCnt == 0 && s.muCnt == 0 {
      forall i <- s.entries
        ensures false
      {
        NoneWith(s.vifs, Su, s.entries[i]);
        NoneWith(s.vifs, Mu, s.entries[i]);
      }
      assert s.entries.Keys == {};
    }
  }

  /** So it cannot happen once every beamformee holds its own entry. */
  lemma DisassocKeepsOwned(s: Bf, v: nat)
    requires Inv(s) && Owned(s) && v < |s.vifs|
    ensures Owned(Disassoc(s, v))
  {
    hide Inv, Disassoc;
    var t := Disassoc(s, v);
    DisassocKeeps(s, v);
    forall w | 0 <= w < |s.vifs| && w != v && !s.vifs[w].role.NoBfee?
      ensures HoldsEntry(t, w) && t.vifs[w] == s.vifs[w]
    {
      DisassocLeavesEntryIff(s, v, w);
    }
  }

  /** With the 8821C limits it is possible: the multi-user beamformee that came second holds entry 0
      until the single-user one that had it before leaves. */
  lemma DisassocCanTakeEntry(su: Caps, mu: Caps)
    requires su.found && !su.mu && su.su && mu.found && mu.mu
    ensures var s := Assoc(Assoc(Idle(2, 1, 2), 0, su), 1, mu);
            && Runs(Idle(2, 1, 2), [Associate(0, su), Associate(1, mu)])
            && HoldsEntry(s, 1) && !HoldsEntry(Disassoc(s, 0), 1)
  {
    var s1 := Assoc(Idle(2, 1, 2), 0, su);
    assert [Associate(0, su), Associate(1, mu)][1..] == [Associate(1, mu)] && [Associate(1, mu)][1..] == [];
    assert Runs(Step(s1, Associate(1, mu)), []);
    assert Runs(s1, [Associate(1, mu)]);
  }

  // ----- The allocator as the driver runs it, updated in place -----

  class BfInfo {
    const bferSuMaxNum: nat
    const bferMuMaxNum: nat
    var vifs: seq<Bfee>
    var bferSuCnt: nat
    var bferMuCnt: nat
    var bferSuRegMaping: set<nat>
    var entries: map<nat, nat>

    ghost function State(): Bf
      reads this
    {
      Bf(bferSuMaxNum, bferMuMaxNum, vifs, bferSuCnt, bferMuCnt, bferSuRegMaping, entries)
    }

    constructor (suMax: nat, muMax: nat, n: nat)
      ensures State() == Idle(suMax, muMax, n)
    {
      bferSuMaxNum, bferMuMaxNum, vifs := suMax, muMax, seq(n, _ => Bfee(NoBfee, 0));
      bferSuCnt, bferMuCnt, bferSuRegMaping, entries := 0, 0, {}, map[];
    }

    /** rtw_bf_assoc, with its loop over the bitmap. */
    method Associate(v: nat, caps: Caps)
      requires v < |vifs|
      modifies this
      ensures State() == Assoc(old(State()), v, caps)
    {
      if !caps.found {
        return;
      }
      if caps.mu {
        if bferMuCnt >= bferMuMaxNum {
          return;
        }
        vifs := vifs[v := vifs[v].(role := Mu)];
        bferMuCnt := bferMuCnt + 1;
        entries := entries[0 := v];
      } else if caps.su {
        if bferSuCnt >= bferSuMaxNum {
          return;
        }
        bferSuCnt := bferSuCnt + 1;
        var index := vifs[v].suRegIndex;
        ghost var free := FreeSlot(bferSuRegMaping, bferSuMaxNum, 0);
        var i := 0;
        while i < bferSuMaxNum
          invariant 0 <= i <= bferSuMaxNum && bferSuRegMaping == old(bferSuRegMaping)
          invariant index == old(vifs[v].suRegIndex)
          invariant FreeSlot(bferSuRegMaping, bferSuMaxNum, i) == free
        {
          if i !in bferSuRegMaping {
            bferSuRegMaping := bferSuRegMaping + {i};
            index := i;
            break;
          }
          i := i + 1;
        }
        vifs := vifs[v := Bfee(Su, index)];
        entries := entries[(if index == 1 then 1 else 0) := v];
      }
    }

    /** rtw_bf_disassoc: the counter first, then the removal, then the role. */
    method Disassociate(v: nat)
      requires v < |vifs|
      modifies this
      ensures State() == Disassoc(old(State()), v)
    {
      if vifs[v].role.NoBfee? {
        return;
      }
      if vifs[v].role.Mu? {
        bferMuCnt := Less(bferMuCnt);
        entries := entries - {0};
        vifs := vifs[v := vifs[v].(role := NoBfee)];
      } else {
        bferSuCnt := Less(bferSuCnt);
        var index := vifs[v].suRegIndex;
        if index < 2 {
          entries := entries - {index};
        }
        bferSuRegMaping := bferSuRegMaping - {index};
        vifs := vifs[v := Bfee(NoBfee, NO_INDEX)];
      }
    }
  }
}
