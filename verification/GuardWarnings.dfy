/** agent/guard.go: the guard engine's warnings - the 16-pin voltage against a learned idle reference, the temperatures and the
    card's own throttling - each reported once per episode. The fields are those of guardEngine that Guard leaves out. */
module GuardWarnings {
  import opened Common
  import opened Guard

  // ---- the idle reference ----

  const MAX_SAMPLES := 1440
  const SAMPLE_EVERY := 60.0

  function Inserted(x: real, c: seq<real>): seq<real>
    decreases |c|
  {
    if c == [] || x <= c[0] then [x] + c else [c[0]] + Inserted(x, c[1..])
  }

  /** sort.Float64s. */
  function Sorted(vs: seq<real>): (c: seq<real>)
    ensures |c| == |vs|
    decreases |vs|
  {
    if vs == [] then [] else InsertedSize(vs[0], Sorted(vs[1..])); Inserted(vs[0], Sorted(vs[1..]))
  }

  lemma {:induction false} InsertedSize(x: real, c: seq<real>)
    ensures |Inserted(x, c)| == |c| + 1
    decreases |c|
  {
    if c != [] && x > c[0] {
      InsertedSize(x, c[1..]);
    }
  }

  /** The middle of the samples, in millivolts. */
  function Median(vs: seq<real>): Option<real> {
    if |vs| < 5 then None else Some(Round(Sorted(vs)[|vs| / 2] * 1000.0) / 1000.0)
  }

  // ---- one episode of warnings ----

  datatype Episode = Episode(since: Option<real>, warned: bool)

  const CALM: Episode := Episode(None, false)

  /** The state after a sample, whether it is in the status as a warning, and whether it is reported as an event. */
  datatype Watched = Watched(e: Episode, warning: bool, event: bool)

  function After(e: Episode, bad: bool, hold: real, now: real): Watched {
    if !bad then Watched(CALM, false, false)
    else
      var since := if e.since.Some? then e.since.value else now;
      if now - since < hold then Watched(Episode(Some(since), e.warned), false, false)
      else Watched(Episode(Some(since), true), true, !e.warned)
  }

  // ---- the engine's fields ----

  datatype Params = Params(loadW: real, warnV: real, dropV: real, holdS: real, memC: real, hotC: real)

  datatype Sample = Sample(now: real, volts: Option<real>, watts: Option<real>, mem: Option<real>, hot: Option<real>, throttle: set<string>)

  datatype Reference = Reference(vref: seq<real>, last: Option<real>)

  function Learned(r: Reference, v: real, w: real, now: real): Reference {
    if w < 60.0 && v > 6.0 && (r.last.None? || now - r.last.value >= SAMPLE_EVERY)
    then Reference(if |r.vref| + 1 > MAX_SAMPLES then (r.vref + [v])[1..] else r.vref + [v], Some(now))
    else r
  }

  predicate Low(p: Params, r: Reference, v: real, w: real) {
    w >= p.loadW && (v < p.warnV || (Median(r.vref).Some? && Median(r.vref).value - v > p.dropV))
  }

  predicate Hot(p: Params, s: Sample) {
    (s.mem.Some? && s.mem.value >= p.memC) || (s.hot.Some? && s.hot.value >= p.hotC)
  }

  predicate Braking(s: Sample) { "hw_slowdown" in s.throttle || "hw_thermal" in s.throttle || "hw_power_brake" in s.throttle }

  /** The voltage is fine without load, or while it reaches the warning level and is not further below the reference than allowed;
      with fewer than five probes there is no reference. */
  lemma LowIff(p: Params, r: Reference, v: real, w: real)
    ensures !Low(p, r, v, w) <==> w < p.loadW || (v >= p.warnV && (|r.vref| < 5 || v + p.dropV >= Median(r.vref).value))
  {
    hide Sorted, Round;
  }

  class GuardWatch {
    const p: Params
    var voltLowSince: Option<real>
    var voltWarned: bool
    var tempWarned: bool
    var hwWarned: bool
    var vref: seq<real>
    var vrefLast: Option<real>

    ghost function Voltage(): Episode
      reads this
    {
      Episode(voltLowSince, voltWarned)
    }

    ghost function Idle(): Reference
      reads this
    {
      Reference(vref, vrefLast)
    }

    constructor (p: Params)
      ensures this.p == p && Voltage() == CALM && !tempWarned && !hwWarned && Idle() == Reference([], None)
    {
      this.p := p;
      voltLowSince, voltWarned, tempWarned, hwWarned, vref, vrefLast := None, false, false, false, [], None;
    }

    /** A sample without both readings changes nothing and warns of nothing. */
    method WatchVoltage(s: Sample) returns (warning: bool, event: bool)
      modifies this`voltLowSince, this`voltWarned, this`vref, this`vrefLast
      ensures s.volts.None? || s.watts.None? ==>
        Idle() == old(Idle()) && Voltage() == old(Voltage()) && !warning && !event
      ensures s.volts.Some? && s.watts.Some? ==>
        && Idle() == Learned(old(Idle()), s.volts.value, s.watts.value, s.now)
        && Watched(Voltage(), warning, event)
           == After(old(Voltage()), Low(p, Idle(), s.volts.value, s.watts.value), p.holdS, s.now)
    {
      hide Median;
      warning, event := false, false;
      if s.volts.None? || s.watts.None? {
        return;
      }
      var v, w := s.volts.value, s.watts.value;
      if w < 60.0 && v > 6.0 && (vrefLast.None? || s.now - vrefLast.value >= SAMPLE_EVERY) {
        vref := vref + [v];
        if |vref| > MAX_SAMPLES {
          vref := vref[1..];
        }
        vrefLast := Some(s.now);
      }
      var ref := Median(vref);
      var low := w >= p.loadW && (v < p.warnV || (ref.Some? && ref.value - v > p.dropV));
      if !low {
        voltLowSince, voltWarned := None, false;
        return;
      }
      if voltLowSince.None? {
        voltLowSince := Some(s.now);
      }
      if s.now - voltLowSince.value < p.holdS {
        return;
      }
      warning := true;
      if !voltWarned {
        event := true;
        voltWarned := true;
      }
    }

    /** No waiting: a warning with the first hot sample. */
    method WatchTemperature(s: Sample) returns (warning: bool, event: bool)
      modifies this`tempWarned
      ensures warning <==> (s.mem.Some? && s.mem.value >= p.memC) || (s.hot.Some? && s.hot.value >= p.hotC)
      ensures event == (warning && !old(tempWarned)) && tempWarned == warning
    {
      warning, event := Hot(p, s), false;
      if !warning {
        tempWarned := false;
        return;
      }
      if !tempWarned {
        event := true;
        tempWarned := true;
      }
    }

    method WatchHardware(s: Sample) returns (warning: bool, event: bool)
      modifies this`hwWarned
      ensures warning <==> exists r :: r in s.throttle && r in {"hw_slowdown", "hw_thermal", "hw_power_brake"}
      ensures event == (warning && !old(hwWarned)) && hwWarned == warning
    {
      warning, event := Braking(s), false;
      if !warning {
        hwWarned := false;
        return;
      }
      if !hwWarned {
        event := true;
        hwWarned := true;
      }
    }
  }

  // ---- once per episode ----

  /** A readable sample: is it bad, and when. */
  datatype Seen = Seen(bad: bool, now: real)

  predicate Monotone(ss: seq<Seen>) { forall i, k :: 0 <= i <= k < |ss| ==> ss[i].now <= ss[k].now }

  function RunOf(ss: seq<Seen>, hold: real): Watched
    decreases |ss|
  {
    if ss == [] then Watched(CALM, false, false)
    else After(RunOf(ss[..|ss| - 1], hold).e, ss[|ss| - 1].bad, hold, ss[|ss| - 1].now)
  }

  /** The first sample of the bad episode that goes on at sample k. */
  function StartOf(ss: seq<Seen>, k: nat): (start: nat)
    requires k < |ss| && ss[k].bad
    ensures start <= k && (start == 0 || !ss[start - 1].bad) && forall i :: start <= i <= k ==> ss[i].bad
  {
    if k == 0 || !ss[k - 1].bad then k else StartOf(ss, k - 1)
  }

  /** The episode has lasted long enough. */
  predicate Ripe(ss: seq<Seen>, k: nat, hold: real)
    requires k < |ss| && ss[k].bad
  {
    ss[k].now - ss[StartOf(ss, k)].now >= hold
  }

  lemma {:induction false} RunAt(ss: seq<Seen>, hold: real, k: nat)
    requires Monotone(ss) && k < |ss|
    ensures var w := RunOf(ss[..k + 1], hold);
      if ss[k].bad
      then w.e == Episode(Some(ss[StartOf(ss, k)].now), Ripe(ss, k, hold)) && w.warning == Ripe(ss, k, hold)
           && w.event == (Ripe(ss, k, hold) && !(k > 0 && ss[k - 1].bad && Ripe(ss, k - 1, hold)))
      else w == Watched(CALM, false, false)
  {
    assert ss[..k + 1][..k] == ss[..k];
    if k > 0 {
      RunAt(ss, hold, k - 1);
      if ss[k].bad && ss[k - 1].bad {
        assert ss[k - 1].now <= ss[k].now;
      }
    }
  }

  /** A warning stands exactly while a bad episode has lasted its hold time; the event comes exactly with the first sample of the
      episode for which that is so. */
  lemma EventIff(ss: seq<Seen>, hold: real, k: nat)
    requires Monotone(ss) && k < |ss|
    ensures var w := RunOf(ss[..k + 1], hold);
      && (w.warning <==> ss[k].bad && Ripe(ss, k, hold))
      && (w.event <==> ss[k].bad && Ripe(ss, k, hold) && forall i :: StartOf(ss, k) <= i < k ==> ss[i].now - ss[StartOf(ss, k)].now < hold)
  {
    RunAt(ss, hold, k);
    if ss[k].bad && k > 0 && ss[k - 1].bad {
      assert forall i :: StartOf(ss, k) <= i < k ==> ss[i].now <= ss[k - 1].now;
    }
  }

  /** Between two events there was a sample that was not bad. */
  lemma OncePerEpisode(ss: seq<Seen>, hold: real, i: nat, k: nat)
    requires Monotone(ss) && i < k < |ss|
    requires RunOf(ss[..i + 1], hold).event && RunOf(ss[..k + 1], hold).event
    ensures exists j :: i < j < k && !ss[j].bad
  {
    EventIff(ss, hold, i);
    EventIff(ss, hold, k);
    if forall j :: i < j < k ==> ss[j].bad {
      SameStart(ss, i, k);
    }
  }

  lemma {:induction false} SameStart(ss: seq<Seen>, i: nat, k: nat)
    requires i <= k < |ss| && forall j :: i <= j <= k ==> ss[j].bad
    ensures StartOf(ss, i) == StartOf(ss, k)
    decreases k
  {
  }

  // ---- the reference ----

  /** Idle probes in the order they were learned. */
  datatype Probe = Probe(v: real, w: real, now: real)

  predicate Idle(ps: seq<Probe>, k: nat, last: Option<real>)
    requires k < |ps|
  {
    ps[k].w < 60.0 && ps[k].v > 6.0 && (last.None? || ps[k].now - last.value >= 60.0)
  }

  function ReferenceOf(ps: seq<Probe>): Reference
    decreases |ps|
  {
    if ps == [] then Reference([], None)
    else Learned(ReferenceOf(ps[..|ps| - 1]), ps[|ps| - 1].v, ps[|ps| - 1].w, ps[|ps| - 1].now)
  }

  /** The probes that were learned, however long ago. */
  function Taken(ps: seq<Probe>): seq<Probe>
    decreases |ps|
  {
    if ps == [] then []
    else
      var n := |ps| - 1;
      Taken(ps[..n]) + (if Idle(ps, n, ReferenceOf(ps[..n]).last) then [ps[n]] else [])
  }

  function Volts(ps: seq<Probe>): (vs: seq<real>)
    ensures |vs| == |ps| && forall i :: 0 <= i < |vs| ==> vs[i] == ps[i].v
  {
    seq(|ps|, i requires 0 <= i < |ps| => ps[i].v)
  }

  /** Idle, and at least a minute apart. */
  predicate Spaced(taken: seq<Probe>) {
    && (forall i :: 0 <= i < |taken| ==> taken[i].w < 60.0 && taken[i].v > 6.0)
    && (forall i :: 0 <= i < |taken| - 1 ==> taken[i + 1].now - taken[i].now >= 60.0)
  }

  /** The last 1440 of the probes taken, or all of them. */
  predicate Rests(r: Reference, taken: seq<Probe>) {
    && |r.vref| == (if |taken| < 1440 then |taken| else 1440)
    && r.vref == Volts(taken[|taken| - |r.vref|..])
    && r.last == if taken == [] then None else Some(taken[|taken| - 1].now)
  }

  /** The reference rests on the last 1440 idle probes, taken at least a minute apart. */
  lemma {:induction false} ReferenceIsRecent(ps: seq<Probe>)
    ensures Spaced(Taken(ps)) && Rests(ReferenceOf(ps), Taken(ps))
    decreases |ps|
  {
    if ps != [] {
      var n := |ps| - 1;
      var was, r := Taken(ps[..n]), ReferenceOf(ps[..n]);
      ReferenceIsRecent(ps[..n]);
      if Idle(ps, n, r.last) {
        assert Taken(ps) == was + [ps[n]] && ReferenceOf(ps) == Learned(r, ps[n].v, ps[n].w, ps[n].now);
        hide Taken, ReferenceOf, Volts;
        TakenSpaced(was, r, ps[n]);
        TakenRests(was, r, ps[n]);
      } else {
        assert Taken(ps) == was;
      }
    }
  }

  lemma TakenSpaced(was: seq<Probe>, r: Reference, p: Probe)
    requires Spaced(was) && Rests(r, was)
    requires p.w < 60.0 && p.v > 6.0 && (r.last.None? || p.now - r.last.value >= SAMPLE_EVERY)
    ensures Spaced(was + [p])
  {
  }

  lemma TakenRests(was: seq<Probe>, r: Reference, p: Probe)
    requires Rests(r, was) && p.w < 60.0 && p.v > 6.0 && (r.last.None? || p.now - r.last.value >= SAMPLE_EVERY)
    ensures Rests(Learned(r, p.v, p.w, p.now), was + [p])
  {
    var vref, all := r.vref, was + [p];
    var next := if |vref| + 1 > MAX_SAMPLES then (vref + [p.v])[1..] else vref + [p.v];
    assert Learned(r, p.v, p.w, p.now) == Reference(next, Some(p.now));
    TakenGrows(was, vref, p);
    hide Volts, Learned;
    assert all[|all| - 1] == p;
    if |was| < MAX_SAMPLES {
      assert next == vref + [p.v];
    } else {
      assert next == (vref + [p.v])[1..];
    }
  }

  lemma TakenGrows(was: seq<Probe>, vref: seq<real>, p: Probe)
    requires |vref| <= |was| && vref == Volts(was[|was| - |vref|..])
    ensures var all := was + [p]; vref + [p.v] == Volts(all[|all| - |vref| - 1..])
    ensures var all := was + [p]; vref != [] ==> (vref + [p.v])[1..] == Volts(all[|all| - |vref|..])
  {
  }

  // ---- the median ----

  predicate Ascending(c: seq<real>) { forall i, k :: 0 <= i <= k < |c| ==> c[i] <= c[k] }

  lemma {:induction false} InsertedAtLeast(x: real, c: seq<real>, low: real)
    requires low <= x && forall i :: 0 <= i < |c| ==> low <= c[i]
    ensures forall i :: 0 <= i < |Inserted(x, c)| ==> low <= Inserted(x, c)[i]
    decreases |c|
  {
    if c != [] && x > c[0] {
      InsertedAtLeast(x, c[1..], low);
    }
  }

  lemma AscendingCons(x: real, c: seq<real>)
    requires Ascending(c) && forall i :: 0 <= i < |c| ==> x <= c[i]
    ensures Ascending([x] + c)
  {
  }

  lemma {:induction false} InsertedSorts(x: real, c: seq<real>)
    requires Ascending(c)
    ensures Ascending(Inserted(x, c))
    decreases |c|
  {
    if c != [] && x > c[0] {
      var rest := c[1..];
      assert Ascending(rest) && forall i :: 0 <= i < |rest| ==> c[0] <= rest[i];
      hide Ascending;
      InsertedSorts(x, rest);
      InsertedAtLeast(x, rest, c[0]);
      AscendingCons(c[0], Inserted(x, rest));
    } else {
      AscendingCons(x, c);
    }
  }

  lemma {:induction false} SortedSorts(vs: seq<real>)
    ensures Ascending(Sorted(vs))
    decreases |vs|
  {
    if vs != [] {
      SortedSorts(vs[1..]);
      InsertedSorts(vs[0], Sorted(vs[1..]));
    }
  }

  /** How many samples are below a value. */
  function Below(vs: seq<real>, x: real): nat
    decreases |vs|
  {
    if vs == [] then 0 else (if vs[0] < x then 1 else 0) + Below(vs[1..], x)
  }

  function Above(vs: seq<real>, x: real): nat
    decreases |vs|
  {
    if vs == [] then 0 else (if vs[0] > x then 1 else 0) + Above(vs[1..], x)
  }

  lemma {:induction false} CountsSurvive(vs: seq<real>, x: real)
    ensures Below(Sorted(vs), x) == Below(vs, x) && Above(Sorted(vs), x) == Above(vs, x)
    decreases |vs|
  {
    if vs != [] {
      CountsSurvive(vs[1..], x);
      InsertedCounts(vs[0], Sorted(vs[1..]), x);
    }
  }

  lemma {:induction false} InsertedCounts(y: real, c: seq<real>, x: real)
    ensures Below(Inserted(y, c), x) == Below(c, x) + if y < x then 1 else 0
    ensures Above(Inserted(y, c), x) == Above(c, x) + if y > x then 1 else 0
    decreases |c|
  {
    if c != [] && y > c[0] {
      InsertedCounts(y, c[1..], x);
    }
  }

  lemma {:induction false} SortedCounts(c: seq<real>, k: nat, x: real)
    requires Ascending(c) && k < |c|
    ensures c[k] < x ==> Below(c, x) >= k + 1
    ensures c[k] > x ==> Above(c, x) >= |c| - k
    decreases |c|
  {
    assert c[0] <= c[k];
    if k > 0 {
      SortedCounts(c[1..], k - 1, x);
    } else if |c| > 1 {
      assert c[0] <= c[1];
      SortedCounts(c[1..], 0, x);
    }
  }

  /** Wrong probes cannot move the reference as long as they are fewer than half: if at most half of the samples are below a
      value, and fewer than half above another, the middle lies between the two. */
  lemma MedianIsRobust(vs: seq<real>, low: real, high: real)
    requires vs != [] && Below(vs, low) <= |vs| / 2 && Above(vs, high) < |vs| - |vs| / 2
    ensures low <= Sorted(vs)[|vs| / 2] <= high
  {
    var c, k := Sorted(vs), |vs| / 2;
    SortedSorts(vs);
    CountsSurvive(vs, low);
    CountsSurvive(vs, high);
    SortedCounts(c, k, low);
    SortedCounts(c, k, high);
  }

  /** The reported reference is the middle sample to the millivolt. */
  lemma MedianIsRounded(vs: seq<real>)
    ensures Median(vs).Some? <==> |vs| >= 5
    ensures |vs| >= 5 ==> var m := Sorted(vs)[|vs| / 2]; m - 0.0005 <= Median(vs).value <= m + 0.0005
  {
  }
}
