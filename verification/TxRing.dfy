/** The PCIe transmit ring (pci.c, pci.h): a producer that writes buffer descriptors and queues
    frames, a device that consumes descriptors up to the doorbell, and the interrupt handler that
    retires frames. Every interleaving is a sequence of events on the state of one ring. */
module TxRing {
  import opened Wrappers

  // ----- Ring arithmetic (pci.h) -----

  /** avail_desc: one element is kept free to tell a full ring from an empty one. */
  function Avail(wp: nat, rp: nat, len: nat): int {
    if rp > wp then rp - wp - 1 else len - wp + rp - 1
  }

  /** The number of steps forward from index a to index b, as the interrupt handler counts it. */
  function Dist(a: nat, b: nat, len: nat): (d: int)
    ensures a < len && b < len ==> 0 <= d < len
  {
    if b >= a then b - a else len - (a - b)
  }

  function Next(i: nat, len: nat): nat {
    if i + 1 >= len then 0 else i + 1
  }

  /** The index k steps after i. */
  function Slot(i: nat, k: nat, len: nat): (slot: int)
    ensures i < len && k < len ==> 0 <= slot < len && Dist(i, slot, len) == k
  {
    if i + k < len then i + k else i + k - len
  }

  // ----- Frames and descriptors -----

  const TX_PKT_DESC_SZ := 48
  const BLOCK := 128

  /** A queued frame: its length before the descriptor is pushed, the address it was mapped at, and
      the mac80211 queue it came from. */
  datatype Frame = Frame(size: nat, dma: nat, mapping: nat)

  /** The two buffer-descriptor entries written for a frame on a non-beacon ring. */
  datatype Desc = Desc(psbLen: nat, size0: nat, dma0: nat, size1: nat, dma1: nat)

  function Describe(f: Frame): Desc {
    var total := f.size + TX_PKT_DESC_SZ;
    Desc((total - 1) / BLOCK + 1, TX_PKT_DESC_SZ, f.dma, f.size, f.dma + TX_PKT_DESC_SZ)
  }

  /** The two segments start at the mapped address and make up the mapped bytes, the transmit
      descriptor and the frame behind it, without gap or overlap; the length is counted in the
      fewest blocks. */
  predicate Covers(d: Desc, f: Frame) {
    && d.dma0 == f.dma && d.size0 == TX_PKT_DESC_SZ
    && d.dma1 == d.dma0 + d.size0 && d.size0 + d.size1 == TX_PKT_DESC_SZ + f.size
    && BLOCK * (d.psbLen - 1) < d.size0 + d.size1 <= BLOCK * d.psbLen
  }

  lemma DescribeCovers(f: Frame)
    ensures Covers(Describe(f), f)
  {
  }

  // ----- The state of one ring and its events -----

  /** `prepared` is the frame whose descriptor is written but which is not queued yet; `queued` is
      the ring's tx_queued bit and `kicks` the number of callers that have cleared it and not yet
      taken the lock. `macStopped` holds the mac80211 queues stopped through this ring.
      `submitted` and `completed` are the history of queued and retired frames. */
  datatype Ring = Ring(
    len: nat, h2c: bool, slots: seq<Desc>, wp: nat, rp: nat, queue: seq<Frame>, prepared: Option<Frame>,
    queued: bool, kicks: nat, stopped: bool, macStopped: set<nat>,
    doorbell: nat, hwRp: nat, submitted: seq<Frame>, completed: seq<Frame>)

  datatype Event =
    | Prepare(frame: Frame)     // the producer checks for room and writes the descriptor
    | Commit                    // under the lock: queue the frame, advance the write index
    | CheckStop                 // under the lock: stop the frame's mac80211 queue when room is low
    | ClearQueued               // test_and_clear_bit of tx_queued
    | KickOff                   // under the lock: write the doorbell
    | Complete(n: nat)          // the device finishes n descriptors
    | Isr                       // under the lock: retire what the device has finished

  function Init(len: nat, h2c: bool, slots: seq<Desc>): Ring {
    Ring(len, h2c, slots, 0, 0, [], None, false, 0, false, {}, 0, 0, [], [])
  }

  /** One writer per ring, and a device that never passes the doorbell. */
  predicate Enabled(r: Ring, e: Event) {
    match e
    case Prepare(_) => r.prepared.None? && r.wp < |r.slots|
    case Commit => r.prepared.Some?
    case CheckStop => !r.h2c && r.submitted != []   // firmware commands are not written this way
    case Complete(n) => n <= Dist(r.hwRp, r.doorbell, r.len)
    case _ => true
  }

  /** The iteration of the interrupt handler's loop that finds more than 4 free descriptors. */
  function WakeIndex(r: Ring): nat {
    var room := Avail(r.wp, r.rp, r.len);
    if room > 4 then 0 else 5 - room
  }

  /** How many frames the handler dequeues; fewer than it counted is the "failed to dequeue" branch. */
  function Retired(r: Ring): (n: nat)
    ensures n <= |r.queue|
  {
    var count := Dist(r.rp, r.hwRp, r.len);
    if 0 <= count <= |r.queue| then count else |r.queue|
  }

  /** The ring after j iterations of the handler's loop. */
  function RetirePrefix(r: Ring, j: nat): Ring
    requires j <= |r.queue|
  {
    var woke := !r.h2c && r.stopped && WakeIndex(r) < j;
    r.(queue := r.queue[j..], completed := r.completed + r.queue[..j], stopped := r.stopped && !woke,
       macStopped := if woke then r.macStopped - {r.queue[WakeIndex(r)].mapping} else r.macStopped)
  }

  function Retire(r: Ring): Ring {
    RetirePrefix(r, Retired(r)).(rp := r.hwRp)
  }

  function Step(r: Ring, e: Event): Ring
    requires Enabled(r, e)
  {
    match e
    case Prepare(f) =>
      if Avail(r.wp, r.rp, r.len) == 0 then r      // -ENOSPC
      else r.(slots := r.slots[r.wp := Describe(f)], prepared := Some(f))
    case Commit =>
      r.(queue := r.queue + [r.prepared.value], submitted := r.submitted + [r.prepared.value],
         prepared := None, queued := true, wp := Next(r.wp, r.len))
    case CheckStop =>
      if Avail(r.wp, r.rp, r.len) < 2 then
        r.(stopped := true, macStopped := r.macStopped + {r.submitted[|r.submitted| - 1].mapping})
      else r
    case ClearQueued => if r.queued then r.(queued := false, kicks := r.kicks + 1) else r
    case KickOff => r.(doorbell := r.wp, kicks := if r.kicks > 0 then r.kicks - 1 else 0)
    case Complete(n) => r.(hwRp := if r.hwRp + n < r.len then r.hwRp + n else r.hwRp + n - r.len)
    case Isr => Retire(r)
  }

  // ----- What every interleaving keeps -----

  predicate Indices(r: Ring) {
    && 1 < r.len == |r.slots|
    && r.wp < r.len && r.rp < r.len && r.hwRp < r.len && r.doorbell < r.len
    && Dist(r.rp, r.hwRp, r.len) <= Dist(r.rp, r.doorbell, r.len) <= Dist(r.rp, r.wp, r.len)
    && |r.queue| == Dist(r.rp, r.wp, r.len)
  }

  /** Slot (rp + k) mod len describes the k-th frame. */
  predicate DescribesFrom(slots: seq<Desc>, rp: nat, frames: seq<Frame>)
    requires rp < |slots| && |frames| <= |slots|
  {
    forall k :: 0 <= k < |frames| ==> slots[Slot(rp, k, |slots|)] == Describe(frames[k])
  }

  /** The slots from rp on describe the queue; the write slot describes a prepared frame. */
  predicate Described(r: Ring)
    requires Indices(r)
  {
    && DescribesFrom(r.slots, r.rp, r.queue)
    && (r.prepared.Some? ==> Avail(r.wp, r.rp, r.len) > 0 && r.slots[r.wp] == Describe(r.prepared.value))
  }

  predicate Inv(r: Ring) {
    && Indices(r)
    && Described(r)
    && r.submitted == r.completed + r.queue
    && (r.wp != r.doorbell ==> r.queued || r.kicks > 0)
    && StopJustified(r)
  }

  /** A stopped ring is nearly full. */
  predicate StopJustified(r: Ring) {
    r.stopped ==> !r.h2c && |r.queue| + 6 >= r.len
  }

  lemma InitInv(len: nat, h2c: bool, slots: seq<Desc>)
    requires 1 < len == |slots|
    ensures Inv(Init(len, h2c, slots))
    ensures !Init(len, h2c, slots).queued && Init(len, h2c, slots).kicks == 0   // no kick is due
  {
  }

  lemma PrepareKeeps(r: Ring, f: Frame)
    requires Inv(r) && Enabled(r, Prepare(f))
    ensures Inv(Step(r, Prepare(f)))
  {
    var r' := Step(r, Prepare(f));
    forall k | 0 <= k < |r.queue|
      ensures r'.slots[Slot(r.rp, k, r.len)] == Describe(r.queue[k])
    {
      assert Slot(r.rp, k, r.len) != r.wp;
    }
  }

  lemma CommitKeeps(r: Ring)
    requires Inv(r) && Enabled(r, Commit)
    ensures Inv(Step(r, Commit))
  {
    var r' := Step(r, Commit);
    assert Slot(r.rp, |r.queue|, r.len) == r.wp;
    forall k | 0 <= k < |r'.queue|
      ensures r'.slots[Slot(r.rp, k, r.len)] == Describe(r'.queue[k])
    {
    }
  }

  /** What the handler counts is what is queued: the "failed to dequeue" branch is never taken. */
  lemma NeverFailsToDequeue(r: Ring)
    requires Inv(r)
    ensures Retired(r) == Dist(r.rp, r.hwRp, r.len)
  {
  }

  lemma SlotAfterRetire(rp: nat, hwRp: nat, k: nat, len: nat)
    requires rp < len && hwRp < len && Dist(rp, hwRp, len) + k < len
    ensures Slot(hwRp, k, len) == Slot(rp, Dist(rp, hwRp, len) + k, len)
  {
  }

  lemma IsrKeepsIndices(r: Ring)
    requires Inv(r)
    ensures Indices(Step(r, Isr)) && StopJustified(Step(r, Isr))
  {
    hide Described;
    var n := Retired(r);
    assert n == Dist(r.rp, r.hwRp, r.len);
    assert Avail(r.wp, r.rp, r.len) == r.len - 1 - |r.queue|;
  }

  lemma IsrKeeps(r: Ring)
    requires Inv(r)
    ensures Inv(Step(r, Isr))
  {
    hide Step, StopJustified, DescribesFrom, Slot, Avail, Enabled, Dist;
    IsrKeepsIndices(r);
    IsrLeaves(r);
    var n := Dist(r.rp, r.hwRp, r.len);
    assert r.queue == r.queue[..n] + r.queue[n..];
    RetireDescribes(r.slots, r.rp, r.hwRp, r.queue);
  }

  /** What the handler leaves alone, and where the retired frames go. */
  lemma IsrLeaves(r: Ring)
    requires Inv(r)
    ensures var t, n := Step(r, Isr), Dist(r.rp, r.hwRp, r.len);
            && 0 <= n <= |r.queue| && t.queue == r.queue[n..] && t.completed == r.completed + r.queue[..n]
            && t.slots == r.slots && t.rp == r.hwRp && t.hwRp == r.hwRp && t.wp == r.wp && t.doorbell == r.doorbell
            && t.len == r.len && t.submitted == r.submitted && t.prepared == r.prepared
            && t.queued == r.queued && t.kicks == r.kicks
    ensures r.prepared.Some? ==> Avail(r.wp, r.hwRp, r.len) > 0
  {
    hide WakeIndex, StopJustified, DescribesFrom, Slot;
    NeverFailsToDequeue(r);
  }

  lemma RetireDescribes(slots: seq<Desc>, rp: nat, hwRp: nat, frames: seq<Frame>)
    requires rp < |slots| && hwRp < |slots| && Dist(rp, hwRp, |slots|) <= |frames| < |slots|
    requires DescribesFrom(slots, rp, frames)
    ensures DescribesFrom(slots, hwRp, frames[Dist(rp, hwRp, |slots|)..])
  {
    var n := Dist(rp, hwRp, |slots|);
    forall k | 0 <= k < |frames| - n
      ensures slots[Slot(hwRp, k, |slots|)] == Describe(frames[n + k])
    {
      SlotAfterRetire(rp, hwRp, k, |slots|);
    }
  }

  lemma StepKeeps(r: Ring, e: Event)
    requires Inv(r) && Enabled(r, e)
    ensures Inv(Step(r, e))
  {
    match e
    case Prepare(f) => PrepareKeeps(r, f);
    case Commit => CommitKeeps(r);
    case Isr => IsrKeeps(r);
    case CheckStop => assert Step(r, e).slots == r.slots;
    case ClearQueued =>
    case KickOff =>
    case Complete(n) =>
  }

  /** A run: events taken one after the other, each of them enabled. */
  predicate Runs(r: Ring, events: seq<Event>)
    decreases |events|
  {
    events == [] || (Enabled(r, events[0]) && Runs(Step(r, events[0]), events[1..]))
  }

  function After(r: Ring, events: seq<Event>): Ring
    requires Runs(r, events)
    decreases |events|
  {
    if events == [] then r else After(Step(r, events[0]), events[1..])
  }

  lemma {:induction false} RunKeeps(r: Ring, events: seq<Event>)
    requires Inv(r) && Runs(r, events)
    ensures Inv(After(r, events))
    decreases |events|
  {
    if events != [] {
      StepKeeps(r, events[0]);
      RunKeeps(Step(r, events[0]), events[1..]);
    }
  }

  // ----- What the invariant means -----

  /** No event rewrites the descriptor of a frame that is still queued. */
  lemma LiveDescriptorsUntouched(r: Ring, e: Event, k: nat)
    requires Inv(r) && Enabled(r, e) && k < |r.queue|
    ensures var at := Slot(r.rp, k, r.len); |Step(r, e).slots| == r.len && Step(r, e).slots[at] == r.slots[at]
  {
    assert Slot(r.rp, k, r.len) != r.wp || Avail(r.wp, r.rp, r.len) == 0;
  }

  /** Whatever the device may consume next, descriptor by descriptor, are the queued frames that
      it has not finished yet, in order. */
  lemma DeviceReadsTheQueue(r: Ring, n: nat, j: nat)
    requires Inv(r) && Enabled(r, Complete(n)) && j < n
    ensures var k := Dist(r.rp, r.hwRp, r.len) + j;
            && k < |r.queue| && r.slots[Slot(r.hwRp, j, r.len)] == Describe(r.queue[k])
            && Covers(r.slots[Slot(r.hwRp, j, r.len)], r.queue[k])
  {
    SlotAfterRetire(r.rp, r.hwRp, j, r.len);
    DescribeCovers(r.queue[Dist(r.rp, r.hwRp, r.len) + j]);
  }

  /** The stop test stops the ring exactly when at most one more frame fits. */
  lemma StopsWhenAlmostFull(r: Ring)
    requires Inv(r) && Enabled(r, CheckStop)
    ensures Step(r, CheckStop).stopped <==> r.stopped || |r.queue| >= r.len - 2
    ensures Step(r, CheckStop).macStopped
         == r.macStopped + if |r.queue| >= r.len - 2 then {r.submitted[|r.submitted| - 1].mapping} else {}
  {
    hide Described;
    assert Avail(r.wp, r.rp, r.len) == r.len - 1 - |r.queue|;
  }

  /** The interrupt handler wakes a stopped ring exactly when it retires a frame and then has at least six
      free descriptors; the queue that it wakes is that of the first frame to be retired with five free. */
  lemma WakesIff(r: Ring)
    requires Inv(r) && r.stopped
    ensures var t := Step(r, Isr);
            && (t.stopped <==> t.queue == r.queue || |t.queue| > r.len - 7)
            && (t.stopped ==> t.macStopped == r.macStopped)
            && (!t.stopped ==>
                  var j := if |r.queue| + 6 > r.len then |r.queue| + 6 - r.len else 0;
                  j < |r.queue| && t.macStopped == r.macStopped - {r.queue[j].mapping})
  {
    NeverFailsToDequeue(r);
    assert Avail(r.wp, r.rp, r.len) == r.len - 1 - |r.queue|;
    hide Described, Slot, Dist;
  }

  /** A caller that clears the queued bit and kicks off leaves the doorbell at everything queued, the bit
      clear, and the kicks that others owe as they were. */
  lemma KickCatchesUp(r: Ring)
    requires Inv(r) && r.queued
    ensures var t := Step(Step(r, ClearQueued), KickOff);
            t.doorbell == t.wp == r.wp && !t.queued && t.kicks == r.kicks && t.queue == r.queue
  {
  }

  predicate AllCovered(r: Ring) {
    && r.rp < |r.slots| && |r.queue| < |r.slots|
    && forall k :: 0 <= k < |r.queue| ==> Covers(r.slots[Slot(r.rp, k, |r.slots|)], r.queue[k])
  }

  lemma SlotsCover(r: Ring)
    requires Inv(r)
    ensures AllCovered(r)
  {
    hide StopJustified, Covers, Describe, Avail;
    forall k | 0 <= k < |r.queue|
      ensures Covers(r.slots[Slot(r.rp, k, |r.slots|)], r.queue[k])
    {
      DescribeCovers(r.queue[k]);
    }
  }

  /** From an empty ring, over any run: the retired frames are the queued ones in order, each of
      them once, and the rest is still queued; the queue fits the indices; a drained ring is not
      stopped; once no kick is due every queued frame has been handed to the device; and slot
      (rp + k) mod len covers the bytes of the k-th queued frame. */
  lemma RingSafety(len: nat, h2c: bool, slots: seq<Desc>, events: seq<Event>)
    requires 1 < len == |slots| && Runs(Init(len, h2c, slots), events)
    ensures var r := After(Init(len, h2c, slots), events);
            && r.len == len && r.submitted == r.completed + r.queue
            && |r.queue| == Dist(r.rp, r.wp, len) <= len - 1
            && (len > 6 && r.queue == [] ==> !r.stopped)
            && (!r.queued && r.kicks == 0 ==> r.doorbell == r.wp)
            && AllCovered(r)
  {
    InitInv(len, h2c, slots);
    RunKeeps(Init(len, h2c, slots), events);
    SlotsCover(After(Init(len, h2c, slots), events));
    RunKeepsLen(Init(len, h2c, slots), events);
  }

  lemma {:induction false} RunKeepsLen(r: Ring, events: seq<Event>)
    requires Runs(r, events)
    ensures After(r, events).len == r.len
    decreases |events|
  {
    if events != [] {
      RunKeepsLen(Step(r, events[0]), events[1..]);
    }
  }

  // ----- Which mac80211 queues stay stopped -----

  predicate Carries(m: nat, frames: seq<Frame>) {
    forall k :: 0 <= k < |frames| ==> frames[k].mapping == m
  }

  /** Every frame on the ring comes from one mac80211 queue, which is stopped exactly when the
      ring's flag says so. */
  predicate InStep(r: Ring, m: nat) {
    && Inv(r)
    && Carries(m, r.submitted) && (r.prepared.Some? ==> r.prepared.value.mapping == m)
    && r.macStopped == if r.stopped then {m} else {}
  }

  predicate FromQueue(m: nat, events: seq<Event>) {
    forall k :: 0 <= k < |events| && events[k].Prepare? ==> events[k].frame.mapping == m
  }

  lemma StepKeepsInStep(r: Ring, e: Event, m: nat)
    requires InStep(r, m) && Enabled(r, e) && (e.Prepare? ==> e.frame.mapping == m)
    ensures InStep(Step(r, e), m)
  {
    StepKeeps(r, e);
    hide Inv, Runs, After;
    if e == Isr && WakeIndex(r) < Retired(r) {
      var j := WakeIndex(r);
      QueueIsSubmitted(r, j);
    }
  }

  lemma QueueIsSubmitted(r: Ring, j: nat)
    requires Inv(r) && j < |r.queue|
    ensures |r.completed| + j < |r.submitted| && r.queue[j] == r.submitted[|r.completed| + j]
  {
  }

  lemma {:induction false} RunKeepsInStep(r: Ring, events: seq<Event>, m: nat)
    requires InStep(r, m) && Runs(r, events) && FromQueue(m, events)
    ensures InStep(After(r, events), m)
    decreases |events|
  {
    if events != [] {
      StepKeepsInStep(r, events[0], m);
      RunKeepsInStep(Step(r, events[0]), events[1..], m);
    }
  }

  function WriteMany(f: Frame, n: nat): seq<Event> {
    if n == 0 then [] else [Prepare(f), Commit] + WriteMany(f, n - 1)
  }

  function Repeat(f: Frame, n: nat): seq<Frame> {
    seq(n, _ => f)
  }

  lemma {:induction false} RunsConcat(r: Ring, a: seq<Event>, b: seq<Event>)
    requires Runs(r, a) && Runs(After(r, a), b)
    ensures Runs(r, a + b) && After(r, a + b) == After(After(r, a), b)
    decreases |a|
  {
    if a == [] {
      assert a + b == b;
    } else {
      assert (a + b)[1..] == a[1..] + b;
      RunsConcat(Step(r, a[0]), a[1..], b);
    }
  }

  /** Writing n frames that fit only extends the queue (and writes slots and bookkeeping). */
  lemma {:induction false} WriteManyRuns(r: Ring, f: Frame, n: nat)
    requires Inv(r) && r.prepared.None? && |r.queue| + n < r.len
    ensures Runs(r, WriteMany(f, n))
    ensures var r' := After(r, WriteMany(f, n));
            && Inv(r') && r'.prepared.None? && r'.len == r.len && r'.h2c == r.h2c
            && r'.queue == r.queue + Repeat(f, n)
            && r'.rp == r.rp && r'.hwRp == r.hwRp && r'.stopped == r.stopped && r'.macStopped == r.macStopped
    decreases n
  {
    if n == 0 {
      assert r.queue + Repeat(f, 0) == r.queue;
    } else {
      WriteOne(r, f);
      var r1 := Step(r, Prepare(f));
      var r2 := Step(r1, Commit);
      WriteManyRuns(r2, f, n - 1);
      RepeatNext(r.queue, f, n);
      RunsCons(r1, Commit, WriteMany(f, n - 1));
      RunsCons(r, Prepare(f), [Commit] + WriteMany(f, n - 1));
      assert WriteMany(f, n) == [Prepare(f)] + ([Commit] + WriteMany(f, n - 1));
    }
    hide Step, Enabled, Inv, Repeat, Runs, After;
  }

  lemma RepeatNext(queue: seq<Frame>, f: Frame, n: nat)
    requires n > 0
    ensures queue + [f] + Repeat(f, n - 1) == queue + Repeat(f, n)
  {
  }

  lemma WriteOne(r: Ring, f: Frame)
    requires Inv(r) && r.prepared.None? && |r.queue| + 1 < r.len
    ensures Enabled(r, Prepare(f)) && Enabled(Step(r, Prepare(f)), Commit)
    ensures var r2 := Step(Step(r, Prepare(f)), Commit);
            && Inv(r2) && r2.prepared.None? && r2.len == r.len && r2.h2c == r.h2c && r2.queue == r.queue + [f]
            && r2.rp == r.rp && r2.hwRp == r.hwRp && r2.stopped == r.stopped && r2.macStopped == r.macStopped
  {
    RoomLeft(r);
    hide Inv, Avail;
    StepKeeps(r, Prepare(f));
    StepKeeps(Step(r, Prepare(f)), Commit);
  }

  /** A drained ring has left no mac80211 queue stopped, whatever the run. */
  ghost predicate NeverStrands(len: nat, slots: seq<Desc>, mappings: set<nat>) {
    forall events: seq<Event> ::
      && Runs(Init(len, false, slots), events) && FromQueues(mappings, events)
      && After(Init(len, false, slots), events).queue == []
      ==> After(Init(len, false, slots), events).macStopped == {}
  }

  predicate FromQueues(mappings: set<nat>, events: seq<Event>) {
    forall k :: 0 <= k < |events| && events[k].Prepare? ==> events[k].frame.mapping in mappings
  }

  lemma RunsCons(r: Ring, e: Event, rest: seq<Event>)
    requires Enabled(r, e) && Runs(Step(r, e), rest)
    ensures Runs(r, [e] + rest) && After(r, [e] + rest) == After(Step(r, e), rest)
  {
    assert ([e] + rest)[1..] == rest;
  }

  /** One more frame into a ring with room for two: both mac80211 queues are stopped. */
  lemma StopTwice(r: Ring, last: Frame) returns (r4: Ring)
    requires Inv(r) && r.prepared.None? && !r.h2c && r.macStopped == {} && r.len > 7
    requires r.rp == r.hwRp && |r.queue| == r.len - 2
    ensures Runs(r, [CheckStop] + ([Prepare(last)] + ([Commit] + ([CheckStop] + []))))
    ensures After(r, [CheckStop] + ([Prepare(last)] + ([Commit] + ([CheckStop] + [])))) == r4
    ensures Inv(r4) && r4.len == r.len && r4.rp == r4.hwRp && !r4.h2c && r4.queue == r.queue + [last]
    ensures r4.stopped && r4.macStopped == {r.queue[r.len - 3].mapping, last.mapping}
  {
    QueueIsSubmitted(r, r.len - 3);
    RoomLeft(r);
    hide Inv, Runs, After, Avail;
    var r1 := Step(r, CheckStop);
    StepKeeps(r, CheckStop);
    var r2 := Step(r1, Prepare(last));
    StepKeeps(r1, Prepare(last));
    var r3 := Step(r2, Commit);
    StepKeeps(r2, Commit);
    RoomLeft(r3);
    r4 := Step(r3, CheckStop);
    StepKeeps(r3, CheckStop);
    RunsFour(r, CheckStop, Prepare(last), Commit, CheckStop);
  }

  lemma RoomLeft(r: Ring)
    requires Inv(r)
    ensures Avail(r.wp, r.rp, r.len) == r.len - 1 - |r.queue| && r.wp < |r.slots|
  {
  }

  lemma RunsFour(r: Ring, a: Event, b: Event, c: Event, d: Event)
    requires Enabled(r, a) && Enabled(Step(r, a), b) && Enabled(Step(Step(r, a), b), c)
    requires Enabled(Step(Step(Step(r, a), b), c), d)
    ensures var events := [a] + ([b] + ([c] + ([d] + [])));
            Runs(r, events) && After(r, events) == Step(Step(Step(Step(r, a), b), c), d)
  {
    hide Enabled, Step;
    RunsCons(Step(Step(Step(r, a), b), c), d, []);
    RunsCons(Step(Step(r, a), b), c, [d] + []);
    RunsCons(Step(r, a), b, [c] + ([d] + []));
    RunsCons(r, a, [b] + ([c] + ([d] + [])));
  }

  /** Handing a full ring to the device and retiring it wakes the queue of its sixth frame only. */
  lemma DrainFull(r: Ring)
    requires Inv(r) && !r.h2c && r.stopped && r.len > 7 && r.rp == r.hwRp && |r.queue| == r.len - 1
    ensures var tail := [KickOff] + ([Complete(r.len - 1)] + ([Isr] + []));
            && Runs(r, tail) && After(r, tail).queue == []
            && After(r, tail).macStopped == r.macStopped - {r.queue[5].mapping}
  {
    var r1 := Step(r, KickOff);
    var r2 := Step(r1, Complete(r.len - 1));
    var r3 := Step(r2, Isr);
    assert Dist(r2.rp, r2.hwRp, r.len) == r.len - 1;
    assert WakeIndex(r2) == 5 && Retired(r2) == r.len - 1;
    RunsCons(r2, Isr, []);
    RunsCons(r1, Complete(r.len - 1), [Isr] + []);
    RunsCons(r, KickOff, [Complete(r.len - 1)] + ([Isr] + []));
  }

  /** The events that fill a ring with frames of one mac80211 queue except for the last frame, and drain it. */
  function FillWith(len: nat, first: Frame, last: Frame): seq<Event>
    requires len > 7
  {
    WriteMany(first, len - 2)
    + (([CheckStop] + ([Prepare(last)] + ([Commit] + ([CheckStop] + []))))
       + ([KickOff] + ([Complete(len - 1)] + ([Isr] + []))))
  }

  lemma FillWithStrands(len: nat, slots: seq<Desc>, first: Frame, last: Frame)
    requires 7 < len == |slots| && first.mapping != last.mapping
    ensures var r := Init(len, false, slots);
            && Runs(r, FillWith(len, first, last)) && After(r, FillWith(len, first, last)).queue == []
            && After(r, FillWith(len, first, last)).macStopped == {last.mapping}
  {
    var r := Init(len, false, slots);
    InitInv(len, false, slots);
    WriteManyRuns(r, first, len - 2);
    var filled := After(r, WriteMany(first, len - 2));
    assert filled.queue == Repeat(first, len - 2);
    var full := StopTwice(filled, last);
    DrainFull(full);
    var stop, drain := [CheckStop] + ([Prepare(last)] + ([Commit] + ([CheckStop] + []))),
        [KickOff] + ([Complete(len - 1)] + ([Isr] + []));
    RunsConcat(filled, stop, drain);
    RunsConcat(r, WriteMany(first, len - 2), stop + drain);
  }

  /** The ring's one flag can account for one mac80211 queue: no run leaves a queue stopped behind a
      drained ring exactly when all its frames come from a single queue. The management and the
      multicast ring take frames of any queue (tx.c), so they do not meet this. */
  lemma NeverStrandsIffOneQueue(len: nat, slots: seq<Desc>, mappings: set<nat>)
    requires 7 < len == |slots|
    ensures NeverStrands(len, slots, mappings) <==> forall a, b :: a in mappings && b in mappings ==> a == b
  {
    var r := Init(len, false, slots);
    InitInv(len, false, slots);
    if a, b :| a in mappings && b in mappings && a != b {
      var first, last := Frame(0, 0, a), Frame(0, 0, b);
      FillWithStrands(len, slots, first, last);
      WriteManyFrom(first, len - 2, mappings);
      assert FromQueues(mappings, FillWith(len, first, last));
      assert !NeverStrands(len, slots, mappings);
    } else {
      forall events | Runs(r, events) && FromQueues(mappings, events) && After(r, events).queue == []
        ensures After(r, events).macStopped == {}
      {
        var m := if mappings == {} then 0 else var m :| m in mappings; m;
        assert FromQueue(m, events);
        RunKeepsInStep(r, events, m);
        RunKeepsLen(r, events);
      }
    }
  }

  lemma {:induction false} WriteManyFrom(f: Frame, n: nat, mappings: set<nat>)
    requires f.mapping in mappings
    ensures FromQueues(mappings, WriteMany(f, n))
  {
    if n > 0 {
      WriteManyFrom(f, n - 1, mappings);
    }
  }

  // ----- Release and reset -----

  /** rtw_pci_dma_release: indices cleared on both sides, queued frames freed; the stop flag, the
      stopped mac80211 queues and the tx_queued bit are not touched. */
  function Reset(r: Ring): Ring {
    r.(wp := 0, rp := 0, queue := [], prepared := None, doorbell := 0, hwRp := 0, submitted := [], completed := [])
  }

  /** A reset starts a good ring again exactly when the ring was not stopped. */
  lemma ResetKeepsIffNotStopped(r: Ring)
    requires Inv(r) && r.len > 6
    ensures Inv(Reset(r)) <==> !r.stopped
  {
  }

  /** A ring filled up, stopped and then released: empty, but its flag and its mac80211 queue stay
      stopped, so that nothing will ever wake it. */
  lemma ResetKeepsStop(len: nat, slots: seq<Desc>, f: Frame)
    requires 6 < len == |slots|
    ensures var fill := WriteMany(f, len - 1) + [CheckStop];
            && Runs(Init(len, false, slots), fill)
            && var r := Reset(After(Init(len, false, slots), fill));
               r.queue == [] && r.stopped && r.macStopped == {f.mapping} && !Inv(r)
  {
    var r := Init(len, false, slots);
    InitInv(len, false, slots);
    WriteManyRuns(r, f, len - 1);
    var full := After(r, WriteMany(f, len - 1));
    assert full.queue == Repeat(f, len - 1);
    assert full.macStopped == {};
    hide Inv, Runs, After, WriteMany, Step;
    StopFull(full, f);
    RunsCons(full, CheckStop, []);
    assert [CheckStop] + [] == [CheckStop];
    RunsConcat(r, WriteMany(f, len - 1), [CheckStop]);
    ResetKeepsIffNotStopped(Step(full, CheckStop));
  }

  lemma StopFull(r: Ring, f: Frame)
    requires Inv(r) && !r.h2c && r.len > 6 && r.queue == Repeat(f, r.len - 1) && r.macStopped == {}
    ensures Enabled(r, CheckStop)
    ensures var t := Step(r, CheckStop);
            Inv(t) && t.len == r.len && t.stopped && t.macStopped == {f.mapping}
            && Runs(t, []) && After(t, []) == t
  {
    QueueIsSubmitted(r, r.len - 2);
    RoomLeft(r);
    hide Inv, Avail;
    assert r.queue[r.len - 2] == f;
    StepKeeps(r, CheckStop);
  }

  // ----- The ring as the driver keeps it, updated in place -----

  class PciTxRing {
    const len: nat
    const h2c: bool
    const desc: array<Desc>
    var wp: nat
    var rp: nat
    var queue: seq<Frame>
    var queueStopped: bool
    var txQueued: bool
    // device side
    var doorbell: nat
    var hwRp: nat
    ghost var prepared: Option<Frame>
    ghost var kicks: nat
    ghost var macStopped: set<nat>
    ghost var submitted: seq<Frame>
    ghost var completed: seq<Frame>

    ghost function State(): Ring
      reads this, desc
    {
      Ring(len, h2c, desc[..], wp, rp, queue, prepared, txQueued, kicks, queueStopped, macStopped,
           doorbell, hwRp, submitted, completed)
    }

    constructor (len: nat, h2c: bool, blank: Desc)
      requires len > 1
      ensures fresh(desc) && Inv(State())
      ensures this.len == len && this.h2c == h2c && State() == Init(len, h2c, desc[..])
    {
      this.len, this.h2c := len, h2c;
      desc := new Desc[len](_ => blank);
      wp, rp, doorbell, hwRp, queue := 0, 0, 0, 0, [];
      queueStopped, txQueued, prepared, kicks := false, false, None, 0;
      macStopped, submitted, completed := {}, [], [];
    }

    /** rtw_pci_tx_write_data up to taking the lock; false is -ENOSPC. */
    method WriteDescriptor(frame: Frame) returns (ok: bool)
      requires Inv(State()) && Enabled(State(), Prepare(frame))
      modifies desc, this`prepared
      ensures State() == Step(old(State()), Prepare(frame)) && Inv(State())
      ensures ok <==> |queue| < len - 1
      ensures ok ==> Covers(desc[wp], frame)
    {
      PrepareKeeps(State(), frame);
      DescribeCovers(frame);
      ok := Avail(wp, rp, len) != 0;
      if ok {
        desc[wp] := Describe(frame);
        prepared := Some(frame);
      }
    }

    /** The locked part of rtw_pci_tx_write_data, on the frame whose descriptor was written. */
    method Enqueue(frame: Frame)
      requires Inv(State()) && prepared == Some(frame)
      modifies this`queue, this`wp, this`txQueued, this`prepared, this`submitted
      ensures State() == Step(old(State()), Commit) && Inv(State())
    {
      CommitKeeps(State());
      queue, submitted, prepared := queue + [frame], submitted + [frame], None;
      txQueued := true;
      wp := wp + 1;
      if wp >= len {
        wp := 0;
      }
    }

    /** The locked part of rtw_pci_tx_write, on the frame queued last. */
    method StopWhenLow(frame: Frame)
      requires Inv(State()) && Enabled(State(), CheckStop) && submitted[|submitted| - 1] == frame
      modifies this`queueStopped, this`macStopped
      ensures State() == Step(old(State()), CheckStop) && Inv(State())
    {
      StepKeeps(State(), CheckStop);
      if Avail(wp, rp, len) < 2 {
        macStopped := macStopped + {frame.mapping};
        queueStopped := true;
      }
    }

    /** rtw_pci_tx_kick_off_queue. */
    method KickOffQueue()
      requires Inv(State())
      modifies this`doorbell, this`kicks
      ensures State() == Step(old(State()), KickOff) && Inv(State())
    {
      StepKeeps(State(), KickOff);
      doorbell := wp;
      kicks := if kicks > 0 then kicks - 1 else 0;
    }

    /** The body of the loop in rtw_pci_tx_isr, on a non-empty queue. */
    method RetireFrame(rpIdx: nat) returns (next: nat)
      requires queue != []
      modifies this`queue, this`queueStopped, this`macStopped, this`completed
      ensures State() == RetireHead(old(State()), rpIdx)
      ensures next == if h2c then rpIdx else Next(rpIdx, len)
    {
      next := rpIdx;
      var frame := queue[0];
      queue, completed := queue[1..], completed + [frame];
      if !h2c {
        if queueStopped && Avail(wp, rpIdx, len) > 4 {
          macStopped := macStopped - {frame.mapping};
          queueStopped := false;
        }
        next := next + 1;
        if next >= len {
          next := 0;
        }
      }
    }

    /** rtw_pci_tx_isr: the loop retires one frame per descriptor that the device has finished. */
    method TxIsr()
      requires Inv(State())
      modifies this`queue, this`rp, this`queueStopped, this`macStopped, this`completed
      ensures State() == Step(old(State()), Isr) && Inv(State())
    {
      hide Inv, Retired, RetirePrefix, Slot, Dist, Step, Avail;
      ghost var r := State();
      IsrKeeps(r);
      CountIsRetired(r);
      var curRp, rpIdx := hwRp, rp;
      var count: nat := if curRp >= rp then curRp - rp else len - (rp - curRp);
      RetireFrames(r, count, rpIdx);
      rp := curRp;
    }

    method RetireFrames(ghost r: Ring, n: nat, first: nat)
      requires Inv(r) && n == Retired(r) && State() == RetirePrefix(r, 0) && first == r.rp
      modifies this`queue, this`queueStopped, this`macStopped, this`completed
      ensures State() == RetirePrefix(r, n)
    {
      var count, rpIdx := n, first;
      ghost var j: nat := 0;
      RetireNone(r);
      RetireSteps(r);
      hide Inv, Retired, WakeIndex, RetirePrefix, RetireHead, Avail, Slot, Dist, Next;
      while count > 0
        invariant j + count == n && State() == RetirePrefix(r, j)
        invariant rpIdx == if h2c then r.rp else Slot(r.rp, j, r.len)
      {
        rpIdx := RetireFrame(rpIdx);
        count, j := count - 1, j + 1;
      }
    }
  }

  /** Taking the first frame off the queue, with the wake-up test at read index i. */
  function RetireHead(r: Ring, i: nat): Ring
    requires r.queue != []
  {
    var wake := !r.h2c && r.stopped && Avail(r.wp, i, r.len) > 4;
    r.(queue := r.queue[1..], completed := r.completed + [r.queue[0]], stopped := r.stopped && !wake,
       macStopped := if wake then r.macStopped - {r.queue[0].mapping} else r.macStopped)
  }

  lemma CountIsRetired(r: Ring)
    requires Inv(r)
    ensures Retired(r) == (if r.hwRp >= r.rp then r.hwRp - r.rp else r.len - (r.rp - r.hwRp))
    ensures Step(r, Isr) == RetirePrefix(r, Retired(r)).(rp := r.hwRp) && RetirePrefix(r, 0) == r
  {
    NeverFailsToDequeue(r);
    RetireNone(r);
  }

  lemma RetireNone(r: Ring)
    requires Inv(r)
    ensures RetirePrefix(r, 0) == r && Slot(r.rp, 0, r.len) == r.rp
  {
  }

  lemma RetireSteps(r: Ring)
    requires Inv(r)
    ensures forall j: nat :: j < Retired(r) ==>
              && RetirePrefix(r, j).queue != []
              && RetirePrefix(r, j + 1) == RetireHead(RetirePrefix(r, j), if r.h2c then r.rp else Slot(r.rp, j, r.len))
              && Slot(r.rp, j + 1, r.len) == Next(Slot(r.rp, j, r.len), r.len)
  {
    forall j: nat | j < Retired(r)
      ensures && RetirePrefix(r, j).queue != []
              && RetirePrefix(r, j + 1) == RetireHead(RetirePrefix(r, j), if r.h2c then r.rp else Slot(r.rp, j, r.len))
              && Slot(r.rp, j + 1, r.len) == Next(Slot(r.rp, j, r.len), r.len)
    {
      RetireOne(r, j);
    }
  }

  /** One iteration of the loop: the wake-up test is met at the wake index and at no earlier one. */
  lemma RetireOne(r: Ring, j: nat)
    requires Inv(r) && j < Retired(r)
    ensures Slot(r.rp, j, r.len) >= 0 && Slot(r.rp, j + 1, r.len) == Next(Slot(r.rp, j, r.len), r.len)
    ensures RetirePrefix(r, j).queue != []
    ensures RetirePrefix(r, j + 1) == RetireHead(RetirePrefix(r, j), if r.h2c then r.rp else Slot(r.rp, j, r.len))
  {
    assert Avail(r.wp, Slot(r.rp, j, r.len), r.len) == Avail(r.wp, r.rp, r.len) + j;
    assert r.queue[..j + 1] == r.queue[..j] + [r.queue[j]];
    assert r.queue[j..][0] == r.queue[j] && r.queue[j..][1..] == r.queue[j + 1..];
  }
}
