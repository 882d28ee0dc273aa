/** Reserved pages (fw.c): the packets firmware sends by itself are gathered into a list, laid out in
    pages in a first pass, copied into one buffer in a second, and downloaded as a beacon. */
module RsvdPage {
  import opened Wrappers

  type U8 = x: int | 0 <= x < 256

  const PAGE := 128     // page_size
  const DESC := 48      // tx_pkt_desc_sz
  const MARGIN := 80    // page_size - tx_pkt_desc_sz

  datatype Kind =
    | Beacon | PsPoll | ProbeResp | NullData | QosNull | LpsPgDpk | LpsPgInfo | NloInfo | ChInfo | Dummy
    | ProbeReq(ssid: Option<seq<U8>>)

  /** struct rtw_rsvd_page. */
  datatype Packet = Packet(id: nat, kind: Kind, page: U8, skb: Option<seq<U8>>)

  function Placed(p: Packet, page: U8, skb: Option<seq<U8>>): (r: Packet)
    ensures r.id == p.id && r.kind == p.kind && r.page == page && r.skb == skb
  {
    p.(page := page, skb := skb)
  }

  function Dropped(p: Packet): (r: Packet)
    ensures r.id == p.id && r.kind == p.kind && r.page == p.page && r.skb == None
  {
    p.(skb := None)
  }

  predicate MayLead(kind: Kind) {
    kind.Beacon? || kind.Dummy?
  }

  // ----- Gathering the packets -----

  /** An interface: whether it is an access point, and its packets. */
  datatype Vif = Vif(ap: bool, packets: seq<Packet>)

  /** The packets of the interfaces that take part, in the order in which they are visited. */
  function Active(vifs: seq<Vif>, apActive: bool): seq<Packet> {
    if vifs == [] then []
    else (if vifs[0].ap && !apActive then [] else vifs[0].packets) + Active(vifs[1..], apActive)
  }

  /** All interfaces take part, but access points only while one is active. */
  lemma {:induction false} ActiveIs(vifs: seq<Vif>, apActive: bool, p: Packet)
    ensures p in Active(vifs, apActive)
       <==> exists v :: 0 <= v < |vifs| && p in vifs[v].packets && (vifs[v].ap ==> apActive)
    decreases |vifs|
  {
    if vifs != [] {
      ActiveIs(vifs[1..], apActive, p);
      if v :| 0 <= v < |vifs| && p in vifs[v].packets && (vifs[v].ap ==> apActive) {
        assert v == 0 || p in vifs[1..][v - 1].packets;
      }
      if v :| 0 <= v < |vifs[1..]| && p in vifs[1..][v].packets && (vifs[1..][v].ap ==> apActive) {
        assert p in vifs[v + 1].packets;
      }
    }
  }

  /** A beacon goes to the head of the list, everything else to its tail. */
  function Insert(list: seq<Packet>, p: Packet): seq<Packet> {
    if p.kind.Beacon? then [p] + list else list + [p]
  }

  function InsertAll(list: seq<Packet>, ps: seq<Packet>): seq<Packet>
    decreases |ps|
  {
    if ps == [] then list else InsertAll(Insert(list, ps[0]), ps[1..])
  }

  /** Beacons come first. */
  predicate BeaconsFirst(list: seq<Packet>) {
    forall i, j :: 0 <= i < j < |list| && list[j].kind.Beacon? ==> list[i].kind.Beacon?
  }

  lemma {:induction false} InsertKeeps(list: seq<Packet>, ps: seq<Packet>)
    requires BeaconsFirst(list)
    ensures BeaconsFirst(InsertAll(list, ps)) && multiset(InsertAll(list, ps)) == multiset(list) + multiset(ps)
    decreases |ps|
  {
    if ps != [] {
      assert ps == [ps[0]] + ps[1..];
      InsertKeeps(Insert(list, ps[0]), ps[1..]);
    }
  }

  lemma {:induction false} InsertTwice(list: seq<Packet>, a: seq<Packet>, b: seq<Packet>)
    ensures InsertAll(InsertAll(list, a), b) == InsertAll(list, a + b)
    decreases |a|
  {
    if a == [] {
      assert a + b == b;
    } else {
      assert (a + b)[1..] == a[1..] + b;
      InsertTwice(Insert(list, a[0]), a[1..], b);
    }
  }

  const DUMMY := Packet(0, Dummy, 0, None)

  /** The build list: none when no interface has a packet; else, if no beacon leads, a dummy does. */
  function BuildList(vifs: seq<Vif>, apActive: bool): Option<seq<Packet>> {
    var list := InsertAll([], Active(vifs, apActive));
    if list == [] then None
    else if list[0].kind.Beacon? then Some(list)
    else Some([DUMMY] + list)
  }

  /** On success the list holds every active packet exactly once and at most one dummy more; its
      head is a beacon, or the dummy when no active packet is a beacon; it fails exactly when
      there is no active packet. */
  lemma BuildListIsPermutation(vifs: seq<Vif>, apActive: bool)
    ensures var all := Active(vifs, apActive);
            match BuildList(vifs, apActive)
            case None => all == []
            case Some(list) =>
              && all != [] && MayLead(list[0].kind)
              && multiset(list) == multiset(all) + if exists k :: 0 <= k < |all| && all[k].kind.Beacon? then multiset{}
                                                   else multiset{DUMMY}
  {
    var all := Active(vifs, apActive);
    var list := InsertAll([], all);
    InsertKeeps([], all);
    assert multiset(list) == multiset(all);
    assert |list| == |multiset(list)| == |multiset(all)| == |all|;
    if exists k :: 0 <= k < |all| && all[k].kind.Beacon? {
      var k :| 0 <= k < |all| && all[k].kind.Beacon?;
      assert all[k] in multiset(list);
      var i :| 0 <= i < |list| && list[i] == all[k];
      assert list[0].kind.Beacon?;
    } else if list != [] {
      assert list[0] in multiset(all);
      assert multiset([DUMMY] + list) == multiset{DUMMY} + multiset(list);
    }
  }

  // ----- The layout -----

  function PagesFor(len: nat): nat {
    (len + (PAGE - 1)) / PAGE
  }

  /** rtw_len_to_page: the count is a u8. */
  function LenToPage(len: nat): U8 {
    PagesFor(len) % 256
  }

  function Len(frame: Option<seq<U8>>): nat {
    if frame.Some? then |frame.value| else 0
  }

  /** The page where packet k starts when nothing wraps. */
  function Start(frames: seq<Option<seq<U8>>>, k: nat): nat
    requires k <= |frames|
  {
    if k == 0 then 0
    else Start(frames, k - 1) + PagesFor(Len(frames[k - 1]) + if k == 1 then DESC else 0)
  }

  /** total_page is a u8. */
  function AddU8(t: U8, n: nat): U8 {
    (t + n) % 256
  }

  /** total_page in front of packet k in the first pass: a u8. */
  function Total(frames: seq<Option<seq<U8>>>, k: nat): U8
    requires k <= |frames|
  {
    if k == 0 then 0
    else
      var t := Total(frames, k - 1);
      AddU8(t, LenToPage(Len(frames[k - 1]) + if t == 0 then DESC else 0))
  }

  /** page in front of packet k in the second pass: a u32. */
  function Used(frames: seq<Option<seq<U8>>>, k: nat): nat
    requires k <= |frames|
  {
    if k == 0 then 0
    else
      var p := Used(frames, k - 1);
      p + LenToPage(Len(frames[k - 1]) + if p == 0 then DESC else 0)
  }

  lemma {:induction false} StartGrows(frames: seq<Option<seq<U8>>>, j: nat, k: nat)
    requires j <= k <= |frames|
    ensures Start(frames, j) <= Start(frames, k) && (k > 0 ==> Start(frames, k) >= 1)
  {
    if j < k {
      StartGrows(frames, j, k - 1);
    } else if k > 0 {
      StartGrows(frames, 0, k - 1);
    }
  }

  lemma NoWrap(page: nat, len: nat)
    requires page + PagesFor(len) <= 255
    ensures LenToPage(len) == PagesFor(len) && AddU8(page, LenToPage(len)) == page + PagesFor(len)
  {
  }

  lemma {:induction false} PassesAgree(frames: seq<Option<seq<U8>>>, k: nat)
    requires k <= |frames| && Start(frames, k) <= 255
    ensures Total(frames, k) == Used(frames, k) == Start(frames, k)
  {
    if k > 0 {
      hide PagesFor, LenToPage;
      PassesAgree(frames, k - 1);
      StartGrows(frames, 0, k - 1);
      NoWrap(Start(frames, k - 1), Len(frames[k - 1]) + if k == 1 then DESC else 0);
    }
  }

  /** For packets of at most 255 pages: the page recorded for every packet and the total are those of
      the second pass exactly when the pages add up to at most 255. */
  lemma PassesAgreeIff(frames: seq<Option<seq<U8>>>)
    requires forall i :: 0 <= i < |frames| ==> PagesFor(Len(frames[i]) + DESC) <= 255
    ensures (forall k :: 0 <= k <= |frames| ==> Total(frames, k) == Used(frames, k)) <==> Start(frames, |frames|) <= 255
  {
    if Start(frames, |frames|) <= 255 {
      forall k | 0 <= k <= |frames|
        ensures Total(frames, k) == Used(frames, k)
      {
        StartGrows(frames, k, |frames|);
        PassesAgree(frames, k);
      }
    } else {
      UsedIsStart(frames, |frames|);
    }
  }

  lemma SmallerFrame(len: nat)
    ensures PagesFor(len) <= PagesFor(len + DESC)
  {
  }

  lemma {:induction false} UsedIsStart(frames: seq<Option<seq<U8>>>, k: nat)
    requires k <= |frames| && forall i :: 0 <= i < |frames| ==> PagesFor(Len(frames[i]) + DESC) <= 255
    ensures Used(frames, k) == Start(frames, k)
  {
    if k > 0 {
      UsedIsStart(frames, k - 1);
      StartGrows(frames, 0, k - 1);
      SmallerFrame(Len(frames[k - 1]));
      NoWrap(0, Len(frames[k - 1]) + if k == 1 then DESC else 0);
      hide PagesFor, LenToPage;
    }
  }

  // ----- The buffer -----

  function Zeros(n: nat): seq<U8> {
    seq(n, _ => 0)
  }

  /** A frame filled up with zeros to whole pages; the first leaves room for the descriptor that the
      transmit path puts in front of the buffer. */
  function Padded(frame: seq<U8>, first: bool): (r: seq<U8>)
    ensures |r| == if first then PAGE * PagesFor(|frame| + DESC) - DESC else PAGE * PagesFor(|frame|)
    ensures frame <= r
  {
    frame + Zeros((if first then PAGE * PagesFor(|frame| + DESC) - DESC else PAGE * PagesFor(|frame|)) - |frame|)
  }

  /** The buffer that the first k frames make. */
  function Image(frames: seq<Option<seq<U8>>>, k: nat): (r: seq<U8>)
    requires k <= |frames| && AllSome(frames)
    ensures |r| == if k == 0 then 0 else PAGE * Start(frames, k) - DESC
  {
    if k == 0 then [] else Image(frames, k - 1) + Padded(frames[k - 1].value, k == 1)
  }

  predicate AllSome(frames: seq<Option<seq<U8>>>) {
    forall i :: 0 <= i < |frames| ==> frames[i].Some?
  }

  /** Bytes from a position end in front of the next page that is used, with less than a page between. */
  predicate JustFits(at: nat, len: nat, nextPage: nat) {
    at + len <= PAGE * nextPage < at + len + PAGE
  }

  /** Where frame i starts in what is sent: the first right behind the descriptor, others at their page. */
  function Offset(i: nat, page: nat): nat {
    if i == 0 then DESC else PAGE * page
  }

  /** Every frame gets the pages that it needs and no more. */
  lemma NoPageWasted(frames: seq<Option<seq<U8>>>, i: nat)
    requires i < |frames|
    ensures JustFits(Offset(i, Start(frames, i)), Len(frames[i]), Start(frames, i + 1))
  {
  }

  /** Behind the descriptor of the transmit path every later frame starts at its page, the first right
      behind the descriptor, each whole and in front of the next, with less than a page unused. */
  lemma {:induction false} FrameAtPage(frames: seq<Option<seq<U8>>>, desc: seq<U8>, i: nat, n: nat)
    requires AllSome(frames) && |desc| == DESC && i < n <= |frames|
    ensures var sent := desc + Image(frames, n);
            var at := Offset(i, Start(frames, i));
            && JustFits(at, Len(frames[i]), Start(frames, i + 1))
            && PAGE * Start(frames, i + 1) <= |sent| == PAGE * Start(frames, n)
            && HoldsAt(sent, at, frames[i].value)
    decreases n
  {
    hide Padded, PagesFor, Start;
    var before, last := desc + Image(frames, n - 1), Padded(frames[n - 1].value, n == 1);
    assert desc + Image(frames, n) == before + last;
    hide Image;
    StartGrows(frames, i + 1, n);
    NoPageWasted(frames, i);
    if i + 1 < n {
      FrameAtPage(frames, desc, i, n - 1);
      HoldsLonger(before, last, Offset(i, Start(frames, i)), frames[i].value);
    } else {
      PaddedFits(frames[i].value, i == 0);
      HoldsLast(before, last, frames[i].value);
    }
  }

  ghost predicate HoldsAt(s: seq<U8>, at: nat, bytes: seq<U8>) {
    at + |bytes| <= |s| && forall j :: 0 <= j < |bytes| ==> s[at + j] == bytes[j]
  }

  lemma HoldsLonger(a: seq<U8>, b: seq<U8>, at: nat, bytes: seq<U8>)
    requires HoldsAt(a, at, bytes)
    ensures HoldsAt(a + b, at, bytes)
  {
  }

  lemma HoldsLast(a: seq<U8>, b: seq<U8>, bytes: seq<U8>)
    requires bytes <= b
    ensures HoldsAt(a + b, |a|, bytes)
  {
  }

  // ----- The download -----

  /** The pages that rtw_download_drv_rsvd_page counts for a buffer. */
  function DownloadPages(size: nat): (pages: nat)
    ensures PAGE * pages < size + PAGE && size <= PAGE * pages
  {
    size / PAGE + if size % PAGE != 0 then 1 else 0
  }

  /** A buffer of that image counts as many pages as its frames were given, so the download accepts
      what the first pass accepted; with the descriptor in front it fills them exactly. */
  lemma DownloadCounts(frames: seq<Option<seq<U8>>>)
    requires AllSome(frames) && frames != []
    ensures DownloadPages(|Image(frames, |frames|)|) == Start(frames, |frames|)
    ensures DESC + |Image(frames, |frames|)| == PAGE * Start(frames, |frames|)
  {
    StartGrows(frames, 0, |frames|);
    hide PagesFor, Start, Image;
  }

  /** The pages recorded for the packets are as close together as their frames allow. */
  predicate Laid(list: seq<Packet>, frames: seq<Option<seq<U8>>>)
    requires |list| == |frames|
  {
    && (list != [] ==> list[0].page == 0)
    && forall k :: 1 <= k < |list| ==> JustFits(Offset(k - 1, list[k - 1].page), Len(frames[k - 1]), list[k].page)
  }

  lemma StartIsLaid(list: seq<Packet>, frames: seq<Option<seq<U8>>>)
    requires |list| == |frames| && forall k :: 0 <= k < |list| ==> list[k].page == Start(frames, k)
    ensures Laid(list, frames)
  {
    forall k | 1 <= k < |list|
      ensures JustFits(Offset(k - 1, list[k - 1].page), Len(frames[k - 1]), list[k].page)
    {
      NoPageWasted(frames, k - 1);
    }
  }

  /** The first pass takes packet k: its frame was built, and a packet at page 0 is one that may lead. */
  predicate Accepted(frames: seq<Option<seq<U8>>>, kind: Kind, k: nat)
    requires k < |frames|
  {
    frames[k].Some? && (Total(frames, k) == 0 ==> MayLead(kind))
  }

  // ----- The list and the two passes as the driver runs them -----

  predicate Matches(p: Packet, ssid: Option<seq<U8>>) {
    p.kind.ProbeReq? && p.kind.ssid == ssid
  }

  class RsvdPages {
    const drvPgNum: nat
    var list: seq<Packet>

    constructor (drvPgNum: nat)
      ensures this.drvPgNum == drvPgNum && list == []
    {
      this.drvPgNum, list := drvPgNum, [];
    }

    /** __rtw_build_rsvd_page_from_vifs. */
    method Gather(vifs: seq<Vif>, apActive: bool) returns (ok: bool)
      modifies this`list
      ensures ok == BuildList(vifs, apActive).Some?
      ensures list == if ok then BuildList(vifs, apActive).value else []
    {
      list := [];
      for v := 0 to |vifs|
        invariant InsertAll(list, Active(vifs[v..], apActive)) == InsertAll([], Active(vifs, apActive))
      {
        assert vifs[v..][1..] == vifs[v + 1..];
        GatherVif(vifs[v], apActive, Active(vifs[v + 1..], apActive));
      }
      assert vifs[|vifs|..] == [];
      if list == [] {
        return false;
      }
      if !list[0].kind.Beacon? {
        list := [DUMMY] + list;
      }
      return true;
    }

    /** rtw_build_rsvd_page_iter. */
    method GatherVif(vif: Vif, apActive: bool, ghost rest: seq<Packet>)
      modifies this`list
      ensures InsertAll(list, rest) == InsertAll(old(list), (if vif.ap && !apActive then [] else vif.packets) + rest)
    {
      if vif.ap && !apActive {
        assert [] + rest == rest;
        return;
      }
      for i := 0 to |vif.packets|
        invariant InsertAll(list, vif.packets[i..]) == InsertAll(old(list), vif.packets)
      {
        list := Insert(list, vif.packets[i]);
        assert vif.packets[i..][1..] == vif.packets[i + 1..];
      }
      assert vif.packets[|vif.packets|..] == [];
      InsertTwice(old(list), vif.packets, rest);
    }

    /** Drops the frames: what the label release_skb does. */
    method ReleaseFrames()
      modifies this`list
      ensures |list| == |old(list)| && forall k :: 0 <= k < |list| ==> list[k] == Dropped(old(list)[k])
    {
      for i := 0 to |list|
        invariant |list| == |old(list)|
        invariant forall k :: 0 <= k < |list| ==> list[k] == if k < i then Dropped(old(list)[k]) else old(list)[k]
      {
        list := list[i := Dropped(list[i])];
      }
    }

    /** rtw_get_rsvd_page_probe_req_location, on a list that Build laid out: the page of the last
        matching packet, and 0 exactly when there is none. */
    method ProbeReqLocation(ssid: Option<seq<U8>>) returns (location: U8)
      requires list != [] && MayLead(list[0].kind) && forall k :: 1 <= k < |list| ==> list[k].page >= 1
      ensures location == 0 <==> forall k :: 0 <= k < |list| ==> !Matches(list[k], ssid)
      ensures location != 0 ==> exists k :: 0 <= k < |list| && Matches(list[k], ssid) && location == list[k].page
                                            && forall j :: k < j < |list| ==> !Matches(list[j], ssid)
    {
      location := 0;
      ghost var last := 0;
      for i := 0 to |list|
        invariant location == 0 ==> forall k :: 0 <= k < i ==> !Matches(list[k], ssid)
        invariant location != 0 ==> last < i && Matches(list[last], ssid) && location == list[last].page
                                    && forall j :: last < j < i ==> !Matches(list[j], ssid)
      {
        if Matches(list[i], ssid) {
          location := list[i].page;
          last := i;
        }
      }
    }

    /** The first pass. frames[k] is the frame that is built for packet k, with its own descriptor if
        it needs one; none when that fails. */
    method FirstPass(frames: seq<Option<seq<U8>>>) returns (ok: bool, total: U8)
      requires |frames| == |list|
      modifies this`list
      ensures |list| == |old(list)| && forall k :: 0 <= k < |list| ==> list[k].kind == old(list)[k].kind
      ensures ok <==> forall k :: 0 <= k < |list| ==> Accepted(frames, old(list)[k].kind, k)
      ensures ok ==> total == Total(frames, |list|)
      ensures ok ==> forall k :: 0 <= k < |list| ==> list[k] == Placed(old(list)[k], Total(frames, k), frames[k])
    {
      hide Placed, Accepted, LenToPage, AddU8;
      ghost var was := list;
      total := 0;
      for i := 0 to |list|
        invariant total == Total(frames, i) && PlacedUpTo(was, list, frames, i)
        invariant forall k :: 0 <= k < i ==> Accepted(frames, was[k].kind, k)
      {
        ghost var before := list;
        ok, total := PlaceFrame(frames, i, total);
        PlacedNext(was, before, list, frames, i);
        if !ok {
          assert !Accepted(frames, was[i].kind, i);
          return;
        }
      }
      ok := true;
    }

    method PlaceFrame(frames: seq<Option<seq<U8>>>, i: nat, total: U8) returns (ok: bool, next: U8)
      requires |frames| == |list| && i < |list| && total == Total(frames, i)
      modifies this`list
      ensures ok == Accepted(frames, old(list)[i].kind, i)
      ensures list == if frames[i].Some? then old(list)[i := Placed(old(list)[i], total, frames[i])] else old(list)
      ensures ok ==> frames[i].Some? && next == Total(frames, i + 1)
    {
      hide LenToPage, AddU8, Placed;
      ok, next := false, total;
      if frames[i].None? {
        return;
      }
      list := list[i := Placed(list[i], total, frames[i])];
      if total == 0 {
        if !MayLead(list[i].kind) {
          return;
        }
        next := AddU8(total, LenToPage(Len(frames[i]) + DESC));
      } else {
        next := AddU8(total, LenToPage(Len(frames[i])));
      }
      ok := true;
    }

    /** rtw_build_rsvd_page behind the gathering. */
    method Build(frames: seq<Option<seq<U8>>>) returns (ok: bool, buf: array<U8>)
      requires |frames| == |list| > 0 && Start(frames, |frames|) <= 255
      modifies this`list
      ensures |list| == |old(list)|
      ensures forall k :: 0 <= k < |list| ==> list[k].kind == old(list)[k].kind && list[k].skb == None
      ensures ok <==> AllSome(frames) && MayLead(list[0].kind) && Start(frames, |frames|) <= drvPgNum
      ensures ok ==> fresh(buf) && buf[..] == Image(frames, |frames|)
      ensures ok ==> forall k :: 0 <= k < |list| ==> list[k].page == Start(frames, k)
      ensures ok ==> Laid(list, frames)
    {
      hide PagesFor, LenToPage, Image, Laid, AddU8;
      var total: U8;
      buf := new U8[0];
      forall k | 0 <= k <= |frames|
        ensures Total(frames, k) == Used(frames, k) == Start(frames, k) && (Total(frames, k) == 0 <==> k == 0)
      {
        StartGrows(frames, 0, k);
        StartGrows(frames, k, |frames|);
        PassesAgree(frames, k);
      }
      ok, total := FirstPass(frames);
      if ok && total > drvPgNum {
        ok := false;
      }
      if !ok {
        ReleaseFrames();
        return;
      }
      buf := SecondPass(frames, total);
      StartIsLaid(list, frames);
    }

    /** The second pass: a zeroed buffer, and every frame copied to its page and dropped. */
    method SecondPass(ghost frames: seq<Option<seq<U8>>>, total: U8) returns (buf: array<U8>)
      requires |frames| == |list| > 0 && AllSome(frames) && total == Start(frames, |frames|) >= 1
      requires forall k :: 0 <= k < |list| ==> list[k].skb == frames[k]
      modifies this`list
      ensures fresh(buf) && buf[..] == Image(frames, |frames|)
      ensures |list| == |old(list)| && forall k :: 0 <= k < |list| ==> list[k] == Dropped(old(list)[k])
    {
      hide PagesFor, LenToPage;
      var page := 0;
      buf := new U8[(total - 1) * PAGE + MARGIN](_ => 0);
      for i := 0 to |list|
        invariant |list| == |old(list)| && page == Start(frames, i) && buf.Length == |Image(frames, |frames|)|
        invariant fresh(buf) && BuiltUpTo(buf[..], frames, i)
        invariant forall k :: 0 <= k < |list| ==> list[k] == if k < i then Dropped(old(list)[k]) else old(list)[k]
      {
        StartGrows(frames, i + 1, |frames|);
        page := CopyFrame(frames, i, page, buf);
      }
    }

    method CopyFrame(ghost frames: seq<Option<seq<U8>>>, i: nat, page: nat, buf: array<U8>) returns (next: nat)
      requires |frames| == |list| && AllSome(frames) && i < |list| && list[i].skb == frames[i]
      requires page == Start(frames, i) && Start(frames, i + 1) <= 255 && |Image(frames, i + 1)| <= buf.Length
      requires BuiltUpTo(buf[..], frames, i)
      modifies this`list, buf
      ensures BuiltUpTo(buf[..], frames, i + 1) && next == Start(frames, i + 1)
      ensures list == old(list)[i := Dropped(old(list)[i])]
    {
      hide Start, Image, LenToPage, BuiltUpTo, Written;
      ghost var before := buf[..];
      var frame := list[i].skb.value;
      PlaceOf(frames, i);
      ListToBuf(page, buf, frame);
      BuiltNext(before, buf[..], frames, i);
      next := page + LenToPage(|frame| + if page == 0 then DESC else 0);
      list := list[i := Dropped(list[i])];
    }
  }

  /** Where frame i goes, that it fits there, and where the next one starts. */
  lemma PlaceOf(frames: seq<Option<seq<U8>>>, i: nat)
    requires AllSome(frames) && i < |frames| && Start(frames, i + 1) <= 255
    ensures var page, len := Start(frames, i), |frames[i].value|;
            && |Image(frames, i)| == (if page >= 1 then MARGIN + PAGE * (page - 1) else 0)
            && |Image(frames, i)| + len <= |Image(frames, i + 1)|
            && page + LenToPage(len + if page == 0 then DESC else 0) == Start(frames, i + 1)
  {
    var page, frame := Start(frames, i), frames[i].value;
    StartGrows(frames, 0, i);
    PaddedFits(frame, i == 0);
    hide PagesFor, LenToPage;
    NoWrap(page, |frame| + if page == 0 then DESC else 0);
  }

  /** The first i packets have page and frame recorded, the others are as they were. */
  ghost predicate PlacedUpTo(was: seq<Packet>, list: seq<Packet>, frames: seq<Option<seq<U8>>>, i: nat)
    requires |was| == |frames| && i <= |frames|
  {
    && |list| == |was|
    && forall k :: 0 <= k < |list| ==> list[k] == if k < i then Placed(was[k], Total(frames, k), frames[k]) else was[k]
  }

  lemma PlacedNext(was: seq<Packet>, before: seq<Packet>, list: seq<Packet>, frames: seq<Option<seq<U8>>>, i: nat)
    requires |was| == |frames| && i < |frames| && PlacedUpTo(was, before, frames, i)
    requires list == before || list == before[i := Placed(before[i], Total(frames, i), frames[i])]
    ensures |list| == |was| && forall k :: 0 <= k < |list| ==> list[k].kind == was[k].kind
    ensures list == before[i := Placed(before[i], Total(frames, i), frames[i])] ==> PlacedUpTo(was, list, frames, i + 1)
  {
    hide Total, Placed;
  }

  /** The buffer holds the first i frames and is zero behind them. */
  ghost predicate BuiltUpTo(buf: seq<U8>, frames: seq<Option<seq<U8>>>, i: nat)
    requires AllSome(frames) && i <= |frames|
  {
    var done := Image(frames, i);
    |done| <= |buf| && forall j :: 0 <= j < |buf| ==> buf[j] == if j < |done| then done[j] else 0
  }

  lemma PaddedFits(frame: seq<U8>, first: bool)
    ensures |frame| <= |Padded(frame, first)|
  {
  }

  lemma BuiltNext(before: seq<U8>, after: seq<U8>, frames: seq<Option<seq<U8>>>, i: nat)
    requires AllSome(frames) && i < |frames| && BuiltUpTo(before, frames, i)
    requires |Image(frames, i + 1)| <= |before| == |after|
    requires Written(before, after, |Image(frames, i)|, frames[i].value)
    ensures BuiltUpTo(after, frames, i + 1)
  {
    var done, frame := Image(frames, i), frames[i].value;
    var padded := Padded(frame, i == 0);
    assert Image(frames, i + 1) == done + padded;
    assert forall j :: 0 <= j < |padded| ==> padded[j] == if j < |frame| then frame[j] else 0;
    hide PagesFor, Start, Image, Padded;
    Overlaid(before, after, done, frame, padded);
  }

  /** Bytes written behind what is done, zeros behind them, make the padded bytes behind what is done. */
  lemma Overlaid(before: seq<U8>, after: seq<U8>, done: seq<U8>, frame: seq<U8>, padded: seq<U8>)
    requires |done| + |padded| <= |before| && |frame| <= |padded|
    requires forall j :: 0 <= j < |before| ==> before[j] == if j < |done| then done[j] else 0
    requires forall j :: 0 <= j < |padded| ==> padded[j] == if j < |frame| then frame[j] else 0
    requires Written(before, after, |done|, frame)
    ensures forall j :: 0 <= j < |after| ==> after[j] == if j < |done| + |padded| then (done + padded)[j] else 0
  {
    forall j | 0 <= j < |after|
      ensures after[j] == if j < |done| + |padded| then (done + padded)[j] else 0
    {
      assert |done| <= j < |done| + |padded| ==> (done + padded)[j] == padded[j - |done|];
    }
  }

  /** The bytes are at the position, and everything else is as it was. */
  ghost predicate Written(before: seq<U8>, after: seq<U8>, at: nat, bytes: seq<U8>) {
    && |after| == |before| && at + |bytes| <= |before|
    && forall j :: 0 <= j < |after| ==> after[j] == if at <= j < at + |bytes| then bytes[j - at] else before[j]
  }

  /** rtw_rsvd_page_list_to_buf. */
  method ListToBuf(page: nat, buf: array<U8>, frame: seq<U8>)
    requires (if page >= 1 then MARGIN + PAGE * (page - 1) else 0) + |frame| <= buf.Length
    modifies buf
    ensures Written(old(buf[..]), buf[..], if page >= 1 then MARGIN + PAGE * (page - 1) else 0, frame)
  {
    var at := if page >= 1 then MARGIN + PAGE * (page - 1) else 0;
    forall j | 0 <= j < |frame| {
      buf[at + j] := frame[j];
    }
  }
}
