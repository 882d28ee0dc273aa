/** The dynamic initial gain controller (phy.c): one tick reads the statistics, may be suppressed by
    damping, and otherwise steps the gain index, clamps it, and records it with its trend. */
module Dig {

  const PERF_MAX := 0x5a
  const PERF_MID := 0x40
  const CVRG_MAX := 0x2a
  const CVRG_MID := 0x26
  const CVRG_MIN := 0x1c
  const DIG_MIN := 0x1c            // chip->dig_min of the 8821C
  const RSSI_GAIN_OFFSET := 15
  const FA_LOW := 250              // DIG_PERF_FA_TH_LOW and _HIGH, used by the damping test
  const FA_HIGH := 500
  const DEPTH := 4

  type U8 = x: int | 0 <= x < 256
  type U16 = x: int | 0 <= x < 0x1_0000

  function ToU8(x: int): U8 {
    x % 256
  }

  function Max(a: int, b: int): int {
    if a > b then a else b
  }

  function Min(a: int, b: int): int {
    if a < b then a else b
  }

  /** clamp_t. */
  function Clamp(x: int, lo: int, hi: int): int {
    if x >= hi then hi else if x <= lo then lo else x
  }

  // ----- Bounds, thresholds and steps -----

  function Limits(minRssi: U8, linked: bool): (dig: (int, int, int, U8)) {
    if linked then (PERF_MAX, PERF_MID, DIG_MIN, Max(minRssi, DIG_MIN) as U8)
    else (CVRG_MAX, CVRG_MID, CVRG_MIN, CVRG_MIN as U8)
  }

  /** rtw_phy_dig_get_boundary; the sum for the maximum is taken in eight bits. */
  function Boundary(minRssi: U8, linked: bool): (bounds: (U8, U8)) {
    var (digMax, digMid, digMin, rssi) := Limits(minRssi, linked);
    var top := Min(digMax, ToU8(rssi + RSSI_GAIN_OFFSET));
    var lower := Clamp(rssi, digMin, digMid);
    (lower, Clamp(lower + RSSI_GAIN_OFFSET, digMin, top))
  }

  /** rtw_phy_dig_get_threshold: thresholds from the highest down, and the step of each. */
  function Thresholds(linked: bool): seq<int> {
    if linked then [750, 500, 250] else [5000, 4000, 2000]
  }

  function Steps(linked: bool, preMinRssi: U8, minRssi: U8): seq<int> {
    if linked && preMinRssi > minRssi then [6, 4, 2] else [4, 3, 2]
  }

  /** The step of the first threshold that the count exceeds, or none. */
  function StepFor(fa: U16, th: seq<int>, step: seq<int>): int
    requires |th| == |step|
  {
    if th == [] then 0 else if fa > th[0] then step[0] else StepFor(fa, th[1..], step[1..])
  }

  // ----- State and one tick -----

  /** `igi[0]` and `faHist[0]` are the latest records; bit 0 of `bitmap` the latest trend. */
  datatype Dm = Dm(
    minRssi: U8, preMinRssi: U8, fa: nat, igi: seq<U8>, faHist: seq<U16>, bitmap: bv8,
    damping: bool, dampingCnt: U8, dampingRssi: U8)

  predicate Shaped(dm: Dm) {
    |dm.igi| == DEPTH && |dm.faHist| == DEPTH
  }

  /** What a tick sees: the disable flag, whether a station is associated, the smallest signal
      strength among the peers, and the 32-bit false-alarm count. */
  datatype Obs = Obs(disabled: bool, linked: bool, minRssi: U8, fa: nat)

  predicate Trend(bitmap: bv8, k: nat)
    requires k < 8
  {
    (bitmap >> k) & 1 == 1
  }

  function AbsDiff(a: U8, b: U8): U8 {
    if a > b then a - b else b - a
  }

  /** The two gain and false-alarm patterns that start damping. */
  predicate Oscillates(dm: Dm)
    requires Shaped(dm)
  {
    var (g, f) := (dm.igi, dm.faHist);
    if dm.bitmap & 0xf == 5 then
      && g[0] > g[1] && g[2] > g[3] && g[0] - g[1] >= 2 && g[2] - g[3] >= 2
      && f[0] > FA_HIGH && f[1] < FA_LOW && f[2] > FA_HIGH && f[3] < FA_LOW
    else if dm.bitmap & 0xf == 9 then
      && g[0] > g[1] && g[3] > g[2] && g[0] - g[1] >= 4 && g[3] - g[2] >= 2
      && f[0] > FA_HIGH && f[1] < FA_LOW && f[2] < FA_LOW && f[3] > FA_HIGH
    else
      false
  }

  /** rtw_phy_dig_check_damping: the new state, and whether this tick is suppressed. */
  function CheckDamping(dm: Dm): (r: (Dm, bool))
    requires Shaped(dm)
    ensures Shaped(r.0)
  {
    if dm.damping then
      if AbsDiff(dm.minRssi, dm.dampingRssi) > 3 then (dm.(damping := false), false)
      else if dm.dampingCnt > 20 then (dm.(dampingCnt := ToU8(dm.dampingCnt + 1), damping := false), false)
      else (dm.(dampingCnt := ToU8(dm.dampingCnt + 1)), true)
    else if Oscillates(dm) then
      (dm.(damping := true, dampingCnt := 0, dampingRssi := dm.minRssi), true)
    else (dm, false)
  }

  function ShiftIn(bitmap: bv8, up: bool): bv8 {
    ((bitmap << 1) & 0xfe) | if up then 1 else 0
  }

  /** rtw_phy_dig_recorder. */
  function Record(dm: Dm, igi: U8, fa: U16): (r: Dm)
    requires Shaped(dm)
    ensures Shaped(r)
  {
    dm.(bitmap := ShiftIn(dm.bitmap, igi > dm.igi[0]),
        igi := [igi] + dm.igi[..3], faHist := [fa] + dm.faHist[..3])
  }

  /** The clamped gain index of a tick, from the previous one. */
  function NewIgi(dm: Dm, linked: bool): U8
    requires Shaped(dm)
  {
    var step := StepFor(dm.fa % 0x1_0000, Thresholds(linked), Steps(linked, dm.preMinRssi, dm.minRssi));
    var (lower, upper) := Boundary(dm.minRssi, linked);
    Clamp(ToU8(ToU8(dm.igi[0] + step) - 2), lower, upper)
  }

  datatype Outcome = Off | Suppressed | Recorded(igi: U8)

  /** Statistics and rtw_phy_dig. */
  function Tick(dm: Dm, o: Obs): (r: (Dm, Outcome))
    requires Shaped(dm)
    ensures Shaped(r.0)
  {
    var seen := dm.(preMinRssi := dm.minRssi, minRssi := o.minRssi, fa := o.fa);
    if o.disabled then (seen, Off)
    else
      var (checked, suppressed) := CheckDamping(seen);
      if suppressed then (checked, Suppressed)
      else
        var igi := NewIgi(checked, o.linked);
        (Record(checked, igi, checked.fa % 0x1_0000), Recorded(igi))
  }

  // ----- Bounds of the recorded index -----

  /** The bounds are in order exactly when the eight-bit sum for the maximum does not wrap. */
  lemma BoundsOrderedIff(minRssi: U8, linked: bool)
    ensures Boundary(minRssi, linked).0 <= Boundary(minRssi, linked).1 <==> !linked || minRssi <= 240
    ensures !linked || minRssi <= 240 ==>
              CVRG_MIN <= Boundary(minRssi, linked).0 && Boundary(minRssi, linked).1 <= PERF_MID + RSSI_GAIN_OFFSET
  {
  }

  /** Linked, the window is the signal strength, kept between 28 and 64, and 15 above it, up to where the
      sum wraps; then its top is below its bottom. Not linked it is fixed. */
  lemma BoundsAre(minRssi: U8, linked: bool)
    ensures !linked ==> Boundary(minRssi, linked) == (28, 42)
    ensures linked && minRssi < 28 ==> Boundary(minRssi, linked) == (28, 43)
    ensures linked && 28 <= minRssi <= 64 ==> Boundary(minRssi, linked) == (minRssi, minRssi + 15)
    ensures linked && 64 < minRssi <= 240 ==> Boundary(minRssi, linked) == (64, 79)
    ensures linked && 240 < minRssi ==> Boundary(minRssi, linked) == (64, minRssi - 241)
  {
  }

  /** The tick takes its index from one that is so much higher than the latest. */
  predicate Moves(dm: Dm, linked: bool, delta: int)
    requires Shaped(dm)
  {
    var (lower, upper) := Boundary(dm.minRssi, linked);
    NewIgi(dm, linked) == Clamp(dm.igi[0] + delta, lower, upper)
  }

  lemma StepOfThree(fa: U16, th: seq<int>, step: seq<int>)
    requires |th| == |step| == 3
    ensures StepFor(fa, th, step)
         == if fa > th[0] then step[0] else if fa > th[1] then step[1] else if fa > th[2] then step[2] else 0
  {
    assert th[2..][1..] == [] && th[1..][1..] == th[2..] && step[1..][1..] == step[2..];
    assert StepFor(fa, th[2..], step[2..]) == if fa > th[2] then step[2] else 0;
    assert StepFor(fa, th[1..], step[1..]) == if fa > th[1] then step[1] else StepFor(fa, th[2..], step[2..]);
  }

  lemma NoWrap(igi: U8, step: int)
    requires CVRG_MIN <= igi <= PERF_MID + RSSI_GAIN_OFFSET && 0 <= step <= 6
    ensures ToU8(ToU8(igi + step) - 2) == igi + step - 2
  {
  }

  /** Few false alarms lower the gain index by 2, some keep it, many raise it by 1 and very many by 2;
      twice that when a linked station's signal has become weaker. */
  lemma GainMoves(dm: Dm, linked: bool)
    requires Shaped(dm) && CVRG_MIN <= dm.igi[0] <= PERF_MID + RSSI_GAIN_OFFSET
    ensures var fa, weaker := dm.fa % 0x1_0000, linked && dm.minRssi < dm.preMinRssi;
            && (fa <= (if linked then 250 else 2000) ==> Moves(dm, linked, -2))
            && ((if linked then 250 else 2000) < fa <= (if linked then 500 else 4000) ==> Moves(dm, linked, 0))
            && ((if linked then 500 else 4000) < fa <= (if linked then 750 else 5000) ==>
                  Moves(dm, linked, if weaker then 2 else 1))
            && ((if linked then 750 else 5000) < fa ==> Moves(dm, linked, if weaker then 4 else 2))
  {
    hide Boundary, Clamp, StepFor, ToU8;
    var fa, th, step := dm.fa % 0x1_0000, Thresholds(linked), Steps(linked, dm.preMinRssi, dm.minRssi);
    StepOfThree(fa, th, step);
    NoWrap(dm.igi[0], StepFor(fa, th, step));
  }

  predicate Plausible(o: Obs) {
    o.linked ==> o.minRssi <= 240
  }

  /** A recording tick clamps into its bounds. */
  lemma RecordedInBounds(dm: Dm, o: Obs)
    requires Shaped(dm) && Plausible(o) && Tick(dm, o).1.Recorded?
    ensures var (lower, upper) := Boundary(o.minRssi, o.linked);
            && lower <= Tick(dm, o).1.igi <= upper
            && Tick(dm, o).0.igi[0] == Tick(dm, o).1.igi
            && CVRG_MIN <= Tick(dm, o).1.igi <= PERF_MID + RSSI_GAIN_OFFSET
  {
    BoundsOrderedIff(o.minRssi, o.linked);
    hide Boundary, Thresholds, Steps, Oscillates, StepFor, ToU8;
  }

  /** From an index inside the overall bounds neither the eight-bit addition nor the subtraction wraps. */
  lemma StepNeverWraps(igi: U8, minRssi: U8, o: Obs)
    requires CVRG_MIN <= igi <= PERF_MID + RSSI_GAIN_OFFSET
    ensures var step := StepFor(o.fa % 0x1_0000, Thresholds(o.linked), Steps(o.linked, minRssi, o.minRssi));
            ToU8(ToU8(igi + step) - 2) == igi + step - 2
  {
    StepIsSmall(o.fa % 0x1_0000, Thresholds(o.linked), Steps(o.linked, minRssi, o.minRssi));
    hide Thresholds, Steps, StepFor;
  }

  lemma {:induction false} StepIsSmall(fa: U16, th: seq<int>, step: seq<int>)
    requires |th| == |step| && forall i :: 0 <= i < |step| ==> 0 <= step[i] <= 6
    ensures 0 <= StepFor(fa, th, step) <= 6
    decreases |th|
  {
    if th != [] {
      StepIsSmall(fa, th[1..], step[1..]);
    }
  }

  // ----- Runs -----

  function Run(dm: Dm, obs: seq<Obs>): (r: Dm)
    requires Shaped(dm)
    ensures Shaped(r)
  {
    if obs == [] then dm else Tick(Run(dm, obs[..|obs| - 1]), obs[|obs| - 1]).0
  }

  /** All indices so far: the initial one, then each recorded one. */
  function History(dm: Dm, obs: seq<Obs>): (past: seq<U8>)
    requires Shaped(dm)
    ensures |past| >= 1
  {
    if obs == [] then [dm.igi[0]]
    else
      var n := |obs| - 1;
      var before := History(dm, obs[..n]);
      match Tick(Run(dm, obs[..n]), obs[n]).1
      case Recorded(igi) => before + [igi]
      case _ => before
  }

  /** The false-alarm counts recorded with them, latest last. */
  function Alarms(dm: Dm, obs: seq<Obs>): (past: seq<U16>)
    requires Shaped(dm)
    ensures |past| + 1 == |History(dm, obs)|
  {
    if obs == [] then []
    else
      var n := |obs| - 1;
      var before := Alarms(dm, obs[..n]);
      if Tick(Run(dm, obs[..n]), obs[n]).1.Recorded? then before + [obs[n].fa % 0x1_0000] else before
  }

  lemma ShiftInTrend(bitmap: bv8, up: bool, k: nat)
    requires k < 8
    ensures Trend(ShiftIn(bitmap, up), k) == if k == 0 then up else Trend(bitmap, k - 1)
  {
    if k == 0 {
    } else if k == 1 {
    } else if k == 2 {
    } else if k == 3 {
    } else if k == 4 {
    } else if k == 5 {
    } else if k == 6 {
    } else {
    }
  }

  /** After n recordings the low min(n, 8) trend bits compare consecutive indices, latest first, and
      the history arrays hold the latest four indices and counts (as many as there are). */
  ghost predicate Tracks(dm: Dm, past: seq<U8>, alarms: seq<U16>)
    requires Shaped(dm) && |past| == |alarms| + 1
  {
    var n := |past| - 1;
    && (forall k :: 0 <= k < n && k < 8 ==> Trend(dm.bitmap, k) == (past[n - k] > past[n - k - 1]))
    && (forall k :: 0 <= k <= n && k < DEPTH ==> dm.igi[k] == past[n - k])
    && (forall k :: 0 <= k < n && k < DEPTH ==> dm.faHist[k] == alarms[n - 1 - k])
  }

  lemma RecordTracks(dm: Dm, past: seq<U8>, alarms: seq<U16>, igi: U8, fa: U16)
    requires Shaped(dm) && |past| == |alarms| + 1 && Tracks(dm, past, alarms)
    ensures Tracks(Record(dm, igi, fa), past + [igi], alarms + [fa])
  {
    var n, dm', past' := |past|, Record(dm, igi, fa), past + [igi];
    forall k | 0 <= k < n && k < 8
      ensures Trend(dm'.bitmap, k) == (past'[n - k] > past'[n - k - 1])
    {
      ShiftInTrend(dm.bitmap, igi > dm.igi[0], k);
    }
  }

  lemma {:induction false} RunTracks(dm: Dm, obs: seq<Obs>)
    requires Shaped(dm)
    ensures Tracks(Run(dm, obs), History(dm, obs), Alarms(dm, obs))
    decreases |obs|
  {
    if obs != [] {
      var n := |obs| - 1;
      RunTracks(dm, obs[..n]);
      var before := Run(dm, obs[..n]);
      var (after, outcome) := Tick(before, obs[n]);
      hide Tracks, NewIgi, Oscillates, Record;
      if outcome.Recorded? {
        TickRecords(before, obs[n]);
        var checked :| Shaped(checked) && checked.bitmap == before.bitmap && checked.igi == before.igi
                       && checked.faHist == before.faHist
                       && after == Record(checked, outcome.igi, obs[n].fa % 0x1_0000);
        SameTracks(before, checked, History(dm, obs[..n]), Alarms(dm, obs[..n]));
        RecordTracks(checked, History(dm, obs[..n]), Alarms(dm, obs[..n]), outcome.igi, obs[n].fa % 0x1_0000);
      } else {
        TickKeepsHistory(before, obs[n]);
        SameTracks(before, after, History(dm, obs[..n]), Alarms(dm, obs[..n]));
      }
    }
  }

  lemma SameTracks(a: Dm, b: Dm, past: seq<U8>, alarms: seq<U16>)
    requires Shaped(a) && Shaped(b) && |past| == |alarms| + 1
    requires a.bitmap == b.bitmap && a.igi == b.igi && a.faHist == b.faHist
    ensures Tracks(a, past, alarms) <==> Tracks(b, past, alarms)
  {
  }

  lemma TickRecords(dm: Dm, o: Obs)
    requires Shaped(dm) && Tick(dm, o).1.Recorded?
    ensures exists checked :: Shaped(checked) && checked.bitmap == dm.bitmap && checked.igi == dm.igi
                           && checked.faHist == dm.faHist
                           && Tick(dm, o).0 == Record(checked, Tick(dm, o).1.igi, o.fa % 0x1_0000)
  {
    hide NewIgi, Oscillates, Record;
    var checked := CheckDamping(dm.(preMinRssi := dm.minRssi, minRssi := o.minRssi, fa := o.fa)).0;
    assert checked.bitmap == dm.bitmap && checked.igi == dm.igi && checked.faHist == dm.faHist && checked.fa == o.fa;
  }

  lemma TickKeepsHistory(dm: Dm, o: Obs)
    requires Shaped(dm) && !Tick(dm, o).1.Recorded?
    ensures Tick(dm, o).0.bitmap == dm.bitmap && Tick(dm, o).0.igi == dm.igi && Tick(dm, o).0.faHist == dm.faHist
  {
    hide NewIgi, Oscillates, Record;
  }

  /** So after three recordings the damping test's own comparisons of consecutive indices repeat
      what the trend bits already say. */
  lemma PatternImpliesTrend(dm: Dm, obs: seq<Obs>)
    requires Shaped(dm) && |History(dm, obs)| > 3
    ensures var d := Run(dm, obs);
            && (d.bitmap & 0xf == 5 ==> d.igi[0] > d.igi[1] && d.igi[1] <= d.igi[2] && d.igi[2] > d.igi[3])
            && (d.bitmap & 0xf == 9 ==> d.igi[0] > d.igi[1] && d.igi[1] <= d.igi[2] <= d.igi[3])
  {
    RunTracks(dm, obs);
    var d, past := Run(dm, obs), History(dm, obs);
    var n := |past| - 1;
    LowNibble(d.bitmap);
    assert Trend(d.bitmap, 0) == (past[n] > past[n - 1]);
    assert Trend(d.bitmap, 1) == (past[n - 1] > past[n - 2]);
    assert Trend(d.bitmap, 2) == (past[n - 2] > past[n - 3]);
    assert d.igi[0] == past[n] && d.igi[1] == past[n - 1] && d.igi[2] == past[n - 2] && d.igi[3] == past[n - 3];
  }

  predicate Rose(from: int, to: int, least: int) {
    to - from >= least
  }

  /** The latest indices swung up, not up, up and not up, or up, not up twice and down, widely enough; the
      readings that ended high came with many false alarms, the others with few. */
  predicate Swings(past: seq<U8>, alarms: seq<U16>)
    requires |past| == |alarms| + 1 > 4
  {
    var n := |alarms|;
    && Rose(past[n - 1], past[n], 2) && past[n - 1] <= past[n - 2]
    && alarms[n - 1] > 500 && alarms[n - 2] < 250
    && (|| (Rose(past[n - 3], past[n - 2], 2) && past[n - 3] <= past[n - 4]
            && alarms[n - 3] > 500 && alarms[n - 4] < 250)
        || (Rose(past[n - 1], past[n], 4) && Rose(past[n - 2], past[n - 3], 2) && past[n - 3] > past[n - 4]
            && alarms[n - 3] < 250 && alarms[n - 4] > 500))
  }

  lemma TrackedOscillatesIff(d: Dm, past: seq<U8>, alarms: seq<U16>)
    requires Shaped(d) && |past| == |alarms| + 1 > 4 && Tracks(d, past, alarms)
    ensures Oscillates(d) <==> Swings(past, alarms)
  {
    var n := |alarms|;
    LowNibble(d.bitmap);
    assert Trend(d.bitmap, 0) == (past[n] > past[n - 1]);
    assert Trend(d.bitmap, 1) == (past[n - 1] > past[n - 2]);
    assert Trend(d.bitmap, 2) == (past[n - 2] > past[n - 3]);
    assert Trend(d.bitmap, 3) == (past[n - 3] > past[n - 4]);
    assert d.igi[0] == past[n] && d.igi[1] == past[n - 1] && d.igi[2] == past[n - 2] && d.igi[3] == past[n - 3];
    hide Trend;
  }

  /** After four recordings damping is due exactly when what was recorded swings, said without the bitmap. */
  lemma OscillatesIff(dm: Dm, obs: seq<Obs>)
    requires Shaped(dm) && |Alarms(dm, obs)| > 3
    ensures Oscillates(Run(dm, obs)) <==> Swings(History(dm, obs), Alarms(dm, obs))
  {
    hide Oscillates, Swings, Run, History, Alarms, Tracks;
    RunTracks(dm, obs);
    TrackedOscillatesIff(Run(dm, obs), History(dm, obs), Alarms(dm, obs));
  }

  lemma LowNibble(b: bv8)
    ensures b & 0xf == 5 <==> Trend(b, 0) && !Trend(b, 1) && Trend(b, 2) && !Trend(b, 3)
    ensures b & 0xf == 9 <==> Trend(b, 0) && !Trend(b, 1) && !Trend(b, 2) && Trend(b, 3)
  {
  }

  // ----- Damping is bounded -----

  /** The length of the current streak of suppressed ticks, ticks while switched off set aside. */
  function Streak(dm: Dm, obs: seq<Obs>): nat
    requires Shaped(dm)
  {
    if obs == [] then 0
    else
      var n := |obs| - 1;
      match Tick(Run(dm, obs[..n]), obs[n]).1
      case Suppressed => Streak(dm, obs[..n]) + 1
      case Recorded(_) => 0
      case Off => Streak(dm, obs[..n])
  }

  /** Damping suppresses at most 22 ticks in a row, the one that detects it included. */
  lemma {:induction false} DampingIsBounded(dm: Dm, obs: seq<Obs>)
    requires Shaped(dm) && !dm.damping
    ensures var d := Run(dm, obs);
            if d.damping then d.dampingCnt <= 21 && Streak(dm, obs) == d.dampingCnt + 1 else Streak(dm, obs) == 0
    ensures Streak(dm, obs) <= 22
    decreases |obs|
  {
    hide NewIgi, Oscillates, ShiftIn;
    if obs != [] {
      DampingIsBounded(dm, obs[..|obs| - 1]);
    }
  }

  /** The bound is met: while the signal strength stays within 3 of where damping began, 22 ticks
      pass before one records. */
  lemma {:induction false} DampingLasts(dm: Dm, o: Obs, n: nat)
    requires Shaped(dm) && dm.damping && !o.disabled && AbsDiff(o.minRssi, dm.dampingRssi) <= 3
    requires dm.dampingCnt + n <= 21
    ensures var d := Run(dm, seq(n, _ => o));
            d.damping && d.dampingCnt == dm.dampingCnt + n && d.dampingRssi == dm.dampingRssi
    ensures dm.dampingCnt + n < 21 ==> Tick(Run(dm, seq(n, _ => o)), o).1 == Suppressed
    ensures dm.dampingCnt + n == 21 ==> Tick(Run(dm, seq(n, _ => o)), o).1.Recorded?
  {
    var obs := seq(n, _ => o);
    if n > 0 {
      DampingLasts(dm, o, n - 1);
      assert obs[..n - 1] == seq(n - 1, _ => o);
    }
    hide NewIgi, Oscillates;
  }

  /** A damped tick is suppressed exactly while the signal stays within 3 of where damping began and fewer
      than 22 ticks have been suppressed; otherwise damping ends with it. */
  lemma DampedTickIff(dm: Dm, o: Obs)
    requires Shaped(dm) && dm.damping && !o.disabled
    ensures var drift: int := o.minRssi - dm.dampingRssi;
            && (Tick(dm, o).1.Suppressed? <==> -3 <= drift <= 3 && dm.dampingCnt < 21)
            && (Tick(dm, o).0.damping <==> Tick(dm, o).1.Suppressed?)
  {
    hide NewIgi;
  }

  /** From any start, with plausible readings: once one tick has recorded, the index stays inside
      the overall bounds. */
  lemma {:induction false} NeverWrapsAfterFirst(dm: Dm, obs: seq<Obs>)
    requires Shaped(dm) && forall i :: 0 <= i < |obs| ==> Plausible(obs[i])
    ensures |History(dm, obs)| > 1 ==> CVRG_MIN <= Run(dm, obs).igi[0] <= PERF_MID + RSSI_GAIN_OFFSET
    decreases |obs|
  {
    if obs != [] {
      var n := |obs| - 1;
      NeverWrapsAfterFirst(dm, obs[..n]);
      var before := Run(dm, obs[..n]);
      if Tick(before, obs[n]).1.Recorded? {
        RecordedInBounds(before, obs[n]);
      } else {
        TickKeepsHistory(before, obs[n]);
      }
      hide Tick;
    }
  }

  /** So the arithmetic of the next tick is exact, whatever that tick reads. */
  lemma NeverWraps(dm: Dm, obs: seq<Obs>, o: Obs)
    requires Shaped(dm) && |History(dm, obs)| > 1 && forall i :: 0 <= i < |obs| ==> Plausible(obs[i])
    ensures var d := Run(dm, obs);
            var step := StepFor(o.fa % 0x1_0000, Thresholds(o.linked), Steps(o.linked, d.minRssi, o.minRssi));
            ToU8(ToU8(d.igi[0] + step) - 2) == d.igi[0] + step - 2
  {
    hide Run, History, StepFor, Thresholds, Steps, ToU8;
    NeverWrapsAfterFirst(dm, obs);
    StepNeverWraps(Run(dm, obs).igi[0], Run(dm, obs).minRssi, o);
  }

  method Push<T>(history: array<T>, latest: T)
    requires history.Length == DEPTH
    modifies history
    ensures history[..] == [latest] + old(history[..3])
  {
    history[3] := history[2];
    history[2] := history[1];
    history[1] := history[0];
    history[0] := latest;
  }

  // ----- The controller as the driver runs it, on the state it updates in place -----

  class DmInfo {
    var minRssi: U8
    var preMinRssi: U8
    var totalFaCnt: nat
    const igiHistory: array<U8>
    const faHistory: array<U16>
    var igiBitmap: bv8
    var damping: bool
    var dampingCnt: U8
    var dampingRssi: U8

    ghost predicate Valid() {
      igiHistory.Length == DEPTH && faHistory.Length == DEPTH
    }

    ghost function State(): Dm
      reads this, igiHistory, faHistory
    {
      Dm(minRssi, preMinRssi, totalFaCnt, igiHistory[..], faHistory[..], igiBitmap, damping, dampingCnt, dampingRssi)
    }

    /** rtw_phy_init: all records zero except the latest index, which the hardware supplies. */
    constructor (igi: U8)
      ensures Valid() && fresh(igiHistory) && fresh(faHistory)
      ensures State() == Dm(0, 0, 0, [igi, 0, 0, 0], [0, 0, 0, 0], 0, false, 0, 0)
    {
      igiHistory, faHistory := new U8[DEPTH](_ => 0), new U16[DEPTH](_ => 0);
      minRssi, preMinRssi, totalFaCnt, igiBitmap := 0, 0, 0, 0;
      damping, dampingCnt, dampingRssi := false, 0, 0;
      new;
      igiHistory[0] := igi;
    }

    /** What rtw_phy_init resets: histories and trend; igi is the index that the register holds. */
    method PhyInit(igi: U8)
      requires Valid()
      modifies this`igiBitmap, igiHistory, faHistory
      ensures State() == old(State()).(bitmap := 0, igi := [igi, 0, 0, 0], faHist := [0, 0, 0, 0])
    {
      faHistory[3], faHistory[2], faHistory[1], faHistory[0] := 0, 0, 0, 0;
      igiBitmap := 0;
      igiHistory[3], igiHistory[2], igiHistory[1], igiHistory[0] := 0, 0, 0, igi;
    }

    method CheckForDamping() returns (suppressed: bool)
      requires Valid()
      modifies this`damping, this`dampingCnt, this`dampingRssi
      ensures (State(), suppressed) == CheckDamping(old(State()))
    {
      if damping {
        if AbsDiff(minRssi, dampingRssi) > 3 {
          damping := false;
          return false;
        }
        var cnt := dampingCnt;
        dampingCnt := ToU8(dampingCnt + 1);
        if cnt > 20 {
          damping := false;
          return false;
        }
        return true;
      }
      ghost var dm := State();
      var g, f := igiHistory, faHistory;
      var pattern := igiBitmap & 0xf;
      suppressed := false;
      if pattern == 5 {
        suppressed := g[0] > g[1] && g[2] > g[3] && g[0] - g[1] >= 2 && g[2] - g[3] >= 2
                      && f[0] > FA_HIGH && f[1] < FA_LOW && f[2] > FA_HIGH && f[3] < FA_LOW;
      } else if pattern == 9 {
        suppressed := g[0] > g[1] && g[3] > g[2] && g[0] - g[1] >= 4 && g[3] - g[2] >= 2
                      && f[0] > FA_HIGH && f[1] < FA_LOW && f[2] < FA_LOW && f[3] > FA_HIGH;
      }
      assert suppressed == Oscillates(dm);
      if suppressed {
        damping, dampingCnt, dampingRssi := true, 0, minRssi;
      }
    }

    method Recorder(igi: U8, fa: U16)
      requires Valid()
      modifies this`igiBitmap, igiHistory, faHistory
      ensures State() == Record(old(State()), igi, fa)
    {
      igiBitmap := ShiftIn(igiBitmap, igi > igiHistory[0]);
      hide ShiftIn;
      Push(igiHistory, igi);
      Push(faHistory, fa);
    }

    /** The loop over the thresholds, with the step size compensated by 2 afterwards. */
    method StepIgi(linked: bool) returns (igi: U8)
      requires Valid()
      ensures var step := StepFor(totalFaCnt % 0x1_0000, Thresholds(linked), Steps(linked, preMinRssi, minRssi));
              igi == ToU8(ToU8(igiHistory[0] + step) - 2)
    {
      var fa, th, step := totalFaCnt % 0x1_0000, Thresholds(linked), Steps(linked, preMinRssi, minRssi);
      igi := igiHistory[0];
      ghost var chosen := StepFor(fa, th, step);
      var level := 0;
      while level < 3
        invariant 0 <= level <= 3 && igi == igiHistory[0] && StepFor(fa, th[level..], step[level..]) == chosen
      {
        if fa > th[level] {
          igi := ToU8(igi + step[level]);
          break;
        }
        assert th[level..][1..] == th[level + 1..] && step[level..][1..] == step[level + 1..];
        level := level + 1;
      }
      igi := ToU8(igi - 2);
    }

    /** rtw_phy_dig on a tick whose statistics have just been taken. */
    method DigTick(o: Obs) returns (outcome: Outcome)
      requires Valid()
      modifies this, igiHistory, faHistory
      ensures (State(), outcome) == Tick(old(State()), o)
    {
      hide CheckDamping, StepFor, Thresholds, Steps, Boundary, Record, ToU8;
      preMinRssi := minRssi;
      minRssi, totalFaCnt := o.minRssi, o.fa;
      if o.disabled {
        return Off;
      }
      var suppressed := CheckForDamping();
      if suppressed {
        return Suppressed;
      }
      var igi := StepIgi(o.linked);
      var (lower, upper) := Boundary(minRssi, o.linked);
      igi := Clamp(igi, lower, upper);
      Recorder(igi, totalFaCnt % 0x1_0000);
      return Recorded(igi);
    }
  }
}
