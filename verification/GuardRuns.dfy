/** Whole runs of the guard engine: what its timer guarantees, and what it asks of the card. */
module GuardRuns {
  import opened Common
  import opened Guard

  // ---- the timer over a run ----

  datatype Sample = Sample(now: real, raw: bool)

  ghost predicate TimerRun(p: Params, ts: seq<Timer>, xs: seq<Sample>) {
    && |ts| == |xs| + 1 && ts[0] == FRESH_TIMER
    && (forall k | 0 <= k < |xs| :: ts[k + 1] == Timed(p, ts[k], xs[k].now, xs[k].raw))
    && (forall i, j | 0 <= i <= j < |xs| :: xs[i].now <= xs[j].now)
  }

  predicate Watching(t: Timer) { t.state.Normal? || t.state.HighLoad? }

  predicate HighAt(p: Params, ts: seq<Timer>, xs: seq<Sample>, k: nat)
    requires k < |ts| && k < |xs|
  {
    High(p, ts[k], xs[k].now, xs[k].raw)
  }

  /** Sample k takes the engine into stage 2. */
  predicate EntersAt(ts: seq<Timer>, k: nat) {
    k + 1 < |ts| && !ts[k].state.Throttled? && ts[k + 1].state.Throttled?
  }

  /** Sample k ends stage 2. */
  predicate LeavesAt(ts: seq<Timer>, k: nat) {
    k + 1 < |ts| && ts[k].state.Throttled? && !ts[k + 1].state.Throttled?
  }

  /** The counter of ts[i] runs since sample j: high there, and at every sample since that met normal or high load; no
      stage 2 ended meanwhile. */
  ghost predicate CountsFrom(p: Params, ts: seq<Timer>, xs: seq<Sample>, j: nat, i: nat) {
    && j < i < |ts| && i <= |xs|
    && ts[i].highSince == Some(xs[j].now) && HighAt(p, ts, xs, j)
    && (forall k | j <= k < i :: Watching(ts[k]) ==> HighAt(p, ts, xs, k))
    && (forall k | j <= k < i :: !LeavesAt(ts, k))
  }

  lemma {:induction false} CounterStarts(p: Params, ts: seq<Timer>, xs: seq<Sample>, i: nat) returns (j: nat)
    requires TimerRun(p, ts, xs) && i < |ts| && ts[i].highSince.Some?
    ensures CountsFrom(p, ts, xs, j, i)
    decreases i
  {
    var last := i - 1;
    assert ts[i] == Timed(p, ts[last], xs[last].now, xs[last].raw);
    if ts[last].highSince.Some? {
      j := CounterStarts(p, ts, xs, last);
    } else {
      j := last;
    }
  }

  /** Stage 2 starts only from normal or high load, and only after a counter of at least highS seconds that began with
      high load and met high load (under the gap rule) at every normal or high-load sample. */
  lemma EntryNeedsFullCounter(p: Params, ts: seq<Timer>, xs: seq<Sample>, i: nat) returns (j: nat)
    requires TimerRun(p, ts, xs) && EntersAt(ts, i)
    ensures Watching(ts[i]) && HighAt(p, ts, xs, i)
    ensures CountsFrom(p, ts, xs, j, i + 1) && xs[i].now - xs[j].now >= p.highS
  {
    assert ts[i + 1] == Timed(p, ts[i], xs[i].now, xs[i].raw);
    j := CounterStarts(p, ts, xs, i + 1);
  }

  /** And it must start then: normal and high-load samples that are all high cannot outlast highS; from half of it on they are reported as
      high load. */
  lemma {:induction false} FullCounterForcesEntry(p: Params, ts: seq<Timer>, xs: seq<Sample>, a: nat, i: nat)
    requires TimerRun(p, ts, xs) && a <= i < |xs|
    requires forall k | a <= k <= i :: Watching(ts[k]) && HighAt(p, ts, xs, k)
    ensures ts[i + 1].highSince == Some(Since(ts[a].highSince, xs[a].now))
    ensures var d := xs[i].now - Since(ts[a].highSince, xs[a].now);
      && (ts[i + 1].state.Throttled? <==> d >= p.highS)
      && (ts[i + 1].state.HighLoad? <==> p.highS / 2.0 <= d < p.highS)
    decreases i
  {
    assert ts[i + 1] == Timed(p, ts[i], xs[i].now, xs[i].raw);
    assert Watching(ts[i]) && HighAt(p, ts, xs, i);
    if a < i {
      FullCounterForcesEntry(p, ts, xs, a, i - 1);
    }
  }

  /** Stage 2 that started at sample i lasts exactly to the first sample at least recoveryS later, whatever the load. */
  lemma {:induction false} Stage2LastsExactly(p: Params, ts: seq<Timer>, xs: seq<Sample>, i: nat, k: nat)
    requires TimerRun(p, ts, xs) && EntersAt(ts, i) && i < k < |xs|
    requires forall m | i < m < k :: xs[m].now - xs[i].now < p.recoveryS
    ensures ts[k].state.Throttled? && ts[k].stage2Since == xs[i].now
    ensures if xs[k].now - xs[i].now >= p.recoveryS then ts[k + 1].state.Recovery? && ts[k + 1].highSince.None?
            else ts[k + 1].state.Throttled?
    decreases k
  {
    assert ts[i + 1] == Timed(p, ts[i], xs[i].now, xs[i].raw);
    if i + 1 < k {
      Stage2LastsExactly(p, ts, xs, i, k - 1);
      assert xs[k - 1].now - xs[i].now < p.recoveryS;
    }
    assert ts[k + 1] == Timed(p, ts[k], xs[k].now, xs[k].raw);
  }

  /** Recovery that began at sample e goes on until a minute has passed. */
  lemma {:induction false} RecoveryGoesOn(p: Params, ts: seq<Timer>, xs: seq<Sample>, e: nat, k: nat)
    requires TimerRun(p, ts, xs) && LeavesAt(ts, e) && e < k < |ts|
    ensures (ts[k].state.Recovery? && ts[k].recoverySince == xs[e].now) || xs[k - 1].now - xs[e].now >= RECOVERY_REPORT_S
    decreases k
  {
    assert ts[k] == Timed(p, ts[k - 1], xs[k - 1].now, xs[k - 1].raw);
    if e + 1 < k {
      RecoveryGoesOn(p, ts, xs, e, k - 1);
      assert xs[k - 2].now <= xs[k - 1].now;
    }
  }

  /** Between the end of one stage 2 and the start of the next lie a whole counter and a whole recovery: at least highS
      seconds, and at least 60. */
  lemma PhasesAreApart(p: Params, ts: seq<Timer>, xs: seq<Sample>, e: nat, i: nat)
    requires TimerRun(p, ts, xs) && LeavesAt(ts, e) && EntersAt(ts, i) && e < i
    ensures xs[i].now - xs[e].now >= MaxR(p.highS, 60.0)
  {
    var j := EntryNeedsFullCounter(p, ts, xs, i);
    assert LeavesAt(ts, e) && j > e;
    RecoveryGoesOn(p, ts, xs, e, i);
    assert xs[i - 1].now <= xs[i].now;
  }

  // ---- gaps ----

  /** The load is low from sample a to sample b, with the counter running before. */
  predicate Gap(ts: seq<Timer>, xs: seq<Sample>, a: nat, b: nat) {
    && a <= b < |xs| && b + 1 < |ts| && ts[a].highSince.Some? && ts[a].lowSince.None?
    && forall k | a <= k <= b :: !xs[k].raw
  }

  /** During a gap the counter runs on unchanged, or is lost for the rest of it; while it runs, recovery has been there from the
      start or is not there, and without it there is no stage 2. */
  lemma {:induction false} GapState(p: Params, ts: seq<Timer>, xs: seq<Sample>, a: nat, b: nat, k: nat)
    requires TimerRun(p, ts, xs) && Gap(ts, xs, a, b) && a < k <= b + 1
    ensures ts[k].highSince.Some? ==> ts[k].highSince == ts[a].highSince && ts[k].lowSince == Some(xs[a].now)
    ensures ts[k].highSince.None? ==> !ts[k].state.Throttled?
    ensures ts[k].highSince.Some? && ts[k].state.Recovery? ==> forall m | a <= m <= k :: ts[m].state.Recovery?
    ensures (forall m | a <= m < k :: ts[m].state.Recovery?) ==> ts[k].highSince.Some?
    decreases k
  {
    assert ts[k] == Timed(p, ts[k - 1], xs[k - 1].now, xs[k - 1].raw);
    assert !xs[k - 1].raw;
    if a + 1 < k {
      GapState(p, ts, xs, a, b, k - 1);
    }
  }

  /** A sample is at full load if the power drawn is at least the configured share of the limit that is active. */
  lemma FullLoadIff(p: Params, i: Input)
    ensures RawHigh(p, i) <==> i.power.Some? && i.limits.cur > 0.0 && 100.0 * i.power.value >= p.highPct * i.limits.cur
  {
  }

  /** As long as the counter runs, a low sample counts as high exactly if the load went down less than highGapS before; without a
      counter none does. */
  lemma GapIsBridgedIff(p: Params, ts: seq<Timer>, xs: seq<Sample>, a: nat, b: nat)
    requires TimerRun(p, ts, xs) && Gap(ts, xs, a, b)
    ensures HighAt(p, ts, xs, b) <==> ts[b].highSince.Some? && xs[b].now - xs[a].now < p.highGapS
  {
    if a < b {
      GapState(p, ts, xs, a, b, b);
    }
    assert !xs[b].raw;
  }

  /** Exactly when the counter survives a gap of highGapS or more: the engine was in recovery all the time - or is in stage 2,
      whose end resets the counter. */
  lemma LongGapIsCountedIff(p: Params, ts: seq<Timer>, xs: seq<Sample>, a: nat, b: nat)
    requires TimerRun(p, ts, xs) && Gap(ts, xs, a, b) && xs[b].now - xs[a].now >= p.highGapS
    ensures ts[b + 1].highSince.Some? <==> (forall k | a <= k <= b :: ts[k].state.Recovery?) || ts[b + 1].state.Throttled?
    ensures ts[b + 1].highSince.Some? ==> ts[b + 1].highSince == ts[a].highSince
  {
    assert ts[b + 1] == Timed(p, ts[b], xs[b].now, xs[b].raw);
    assert !xs[b].raw;
    GapState(p, ts, xs, a, b, b + 1);
    if a < b {
      GapState(p, ts, xs, a, b, b);
    }
  }

  /** So the high-load counter's "high for highS" does not mean "without a gap of highGapS": for all parameters a run from the
      fresh engine has a gap of highGapS during recovery that counts towards the next stage 2. */
  lemma RecoveryGapIsCounted(p: Params) returns (ts: seq<Timer>, xs: seq<Sample>)
    requires p.highS > 0.0
    ensures TimerRun(p, ts, xs) && |xs| == 8
    ensures Gap(ts, xs, 4, 5) && xs[5].now - xs[4].now >= p.highGapS && xs[5].now - xs[4].now >= 0.0
    ensures ts[6].highSince == Some(xs[3].now) && xs[3].now < xs[4].now && LeavesAt(ts, 2)
    ensures EntersAt(ts, 6) || EntersAt(ts, 7)
  {
    var gap, end := MaxR(0.0, p.highGapS), p.highS + MaxR(0.0, p.recoveryS);
    var again := end + 2.0 + gap + RECOVERY_REPORT_S;
    xs := [Sample(0.0, true), Sample(p.highS, true), Sample(end, true), Sample(end + 1.0, true), Sample(end + 2.0, false),
           Sample(end + 2.0 + gap, false), Sample(again, true), Sample(again + p.highS, true)];
    var t1 := Timer(Normal, Some(0.0), None, 0.0, 0.0);
    var t2 := Timer(Throttled, Some(0.0), None, p.highS, 0.0);
    var t3 := Timer(Recovery, None, None, p.highS, end);
    var t4 := Timer(Recovery, Some(end + 1.0), None, p.highS, end);
    var t5 := t4.(lowSince := Some(end + 2.0));
    var t6 := Timed(p, t5, end + 2.0 + gap, false);
    var t7 := Timed(p, t6, again, true);
    var t8 := Timed(p, t7, again + p.highS, true);
    assert t1 == Timed(p, FRESH_TIMER, 0.0, true) && t2 == Timed(p, t1, p.highS, true) && t3 == Timed(p, t2, end, true);
    assert t4 == Timed(p, t3, end + 1.0, true) && t5 == Timed(p, t4, end + 2.0, false);
    assert t6.highSince == Some(end + 1.0) && (t6.state.Recovery? ==> t6.recoverySince == end);
    assert t7.highSince == Some(end + 1.0) && !t7.state.Recovery?;
    assert t7.state.Throttled? || t8.state.Throttled?;
    hide Timed;
    ts := [FRESH_TIMER, t1, t2, t3, t4, t5, t6, t7, t8];
  }

  // ---- the engine over a run ----

  ghost predicate EngineRun(p: Params, gs: seq<Engine>, ins: seq<Input>, os: seq<Outcome>) {
    && |gs| == |ins| + 1 && |os| == |ins| && gs[0] == FRESH
    && (forall k | 0 <= k < |ins| :: gs[k + 1] == Stepped(p, gs[k], ins[k], os[k]))
    && (forall i, j | 0 <= i <= j < |ins| :: ins[i].now <= ins[j].now)
  }

  function TimersOf(gs: seq<Engine>): seq<Timer> {
    seq(|gs|, k requires 0 <= k < |gs| => gs[k].timer)
  }

  function SamplesOf(p: Params, ins: seq<Input>): seq<Sample> {
    seq(|ins|, k requires 0 <= k < |ins| => Sample(ins[k].now, RawHigh(p, ins[k])))
  }

  lemma TimerRunOf(p: Params, gs: seq<Engine>, ins: seq<Input>, os: seq<Outcome>)
    requires EngineRun(p, gs, ins, os)
    ensures TimerRun(p, TimersOf(gs), SamplesOf(p, ins))
  {
  }

  predicate SetsAt(p: Params, gs: seq<Engine>, ins: seq<Input>, k: nat) {
    k < |gs| && k < |ins| && Sets(p, gs[k], ins[k])
  }

  function WantedAt(p: Params, gs: seq<Engine>, ins: seq<Input>, k: nat): real
    requires k < |gs| && k < |ins|
  {
    WantAt(p, gs[k], ins[k])
  }

  /** Whatever is set lies between the card's lowest admissible limit and its default. */
  lemma CallsStayInRange(p: Params, gs: seq<Engine>, ins: seq<Input>, os: seq<Outcome>, k: nat)
    requires EngineRun(p, gs, ins, os) && SetsAt(p, gs, ins, k) && Lowest(ins[k].limits) <= ins[k].limits.def
    ensures Lowest(ins[k].limits) <= WantedAt(p, gs, ins, k) <= ins[k].limits.def
  {
  }

  /** A positive lastSetW is a value the card accepted from the guard before. */
  lemma {:induction false} LastSetWasAccepted(p: Params, gs: seq<Engine>, ins: seq<Input>, os: seq<Outcome>, k: nat)
    requires EngineRun(p, gs, ins, os) && k < |gs| && gs[k].lever.lastSetW > 0.0
    ensures exists m :: 0 <= m < k && SetsAt(p, gs, ins, m) && os[m].Accepted? && WantedAt(p, gs, ins, m) == gs[k].lever.lastSetW
  {
    hide Timed, TargetsOf, NeedSet, Due;
    var last := k - 1;
    assert gs[k] == Stepped(p, gs[last], ins[last], os[last]);
    if SetsAt(p, gs, ins, last) && os[last].Accepted? {
    } else {
      LastSetWasAccepted(p, gs, ins, os, last);
    }
  }

  /** The guard raises a limit only when the card shows one of the guard's own values: a target, or a value it accepted
      from the guard before. */
  lemma RaisesOnlyOwnValues(p: Params, gs: seq<Engine>, ins: seq<Input>, os: seq<Outcome>, k: nat)
    requires EngineRun(p, gs, ins, os) && SetsAt(p, gs, ins, k) && ins[k].limits.cur < WantedAt(p, gs, ins, k)
    ensures var cur, t := ins[k].limits.cur, TargetsOf(p, ins[k].limits);
      || AbsR(cur - t.stage2) < 0.5 || AbsR(cur - t.sustained) < 0.5
      || exists m :: 0 <= m < k && SetsAt(p, gs, ins, m) && os[m].Accepted? && AbsR(cur - WantedAt(p, gs, ins, m)) < 0.5
  {
    var l := gs[k].lever;
    if l.lastSetW > 0.0 {
      LastSetWasAccepted(p, gs, ins, os, k);
    }
  }

  /** Where the card shows the wanted limit, nothing is set. */
  lemma SettledMeansQuiet(p: Params, gs: seq<Engine>, ins: seq<Input>, os: seq<Outcome>, k: nat)
    requires EngineRun(p, gs, ins, os) && k < |ins| && AbsR(ins[k].limits.cur - WantedAt(p, gs, ins, k)) <= 0.5
    ensures !SetsAt(p, gs, ins, k)
  {
  }

  /** Without an attempt in between the lever remembers the last one. */
  lemma {:induction false} LeverRemembers(p: Params, gs: seq<Engine>, ins: seq<Input>, os: seq<Outcome>, i: nat, j: nat)
    requires EngineRun(p, gs, ins, os) && SetsAt(p, gs, ins, i) && i < j < |gs|
    requires forall k | i < k < j :: !SetsAt(p, gs, ins, k)
    ensures gs[j].lever.lastApply == Some(ins[i].now) && gs[j].lever.lastWant == WantedAt(p, gs, ins, i)
    decreases j
  {
    hide Timed, TargetsOf, NeedSet, Due;
    assert gs[j] == Stepped(p, gs[j - 1], ins[j - 1], os[j - 1]);
    if i + 1 < j {
      LeverRemembers(p, gs, ins, os, i, j - 1);
      assert !SetsAt(p, gs, ins, j - 1);
    }
  }

  /** If the card accepts a limit and keeps it while the target stands, nothing more is set, and the lever remembers the limit. */
  lemma {:induction false} KeptMeansQuiet(p: Params, gs: seq<Engine>, ins: seq<Input>, os: seq<Outcome>, i: nat, j: nat)
    requires EngineRun(p, gs, ins, os) && SetsAt(p, gs, ins, i) && os[i].Accepted? && i < j <= |ins|
    requires forall k | i < k < j :: AbsR(ins[k].limits.cur - WantedAt(p, gs, ins, i)) <= 0.5
    requires forall k | i < k < j :: WantedAt(p, gs, ins, k) == WantedAt(p, gs, ins, i)
    ensures forall k | i < k < j :: !SetsAt(p, gs, ins, k)
    ensures var l := gs[j].lever;
      l.lastSetW == WantedAt(p, gs, ins, i) && l.lastApply == Some(ins[i].now) && l.denied == ""
    decreases j
  {
    hide Timed, TargetsOf, NeedSet, Due, AbsR;
    StepsFollow(p, gs, ins, os, j - 1);
    if i + 1 < j {
      KeptMeansQuiet(p, gs, ins, os, i, j - 1);
      SettledMeansQuiet(p, gs, ins, os, j - 1);
      hide EngineRun;
      QuietStep(p, gs[j - 1], ins[j - 1], os[j - 1]);
    } else {
      hide EngineRun;
      AcceptedStep(p, gs[i], ins[i], os[i]);
    }
  }

  lemma StepsFollow(p: Params, gs: seq<Engine>, ins: seq<Input>, os: seq<Outcome>, k: nat)
    requires EngineRun(p, gs, ins, os) && k < |ins|
    ensures k + 1 < |gs| && k < |os| && gs[k + 1] == Stepped(p, gs[k], ins[k], os[k])
  {
  }

  lemma QuietStep(p: Params, g: Engine, i: Input, o: Outcome)
    requires !Sets(p, g, i)
    ensures var l := Stepped(p, g, i, o).lever;
      l.lastSetW == g.lever.lastSetW && l.lastApply == g.lever.lastApply && (g.lever.denied == "" ==> l.denied == "")
  {
    hide Timed, TargetsOf, NeedSet, Due;
  }

  lemma AcceptedStep(p: Params, g: Engine, i: Input, o: Outcome)
    requires Sets(p, g, i) && o.Accepted?
    ensures var l := Stepped(p, g, i, o).lever; l.lastSetW == WantAt(p, g, i) && l.lastApply == Some(i.now) && l.denied == ""
  {
    hide Timed, TargetsOf, NeedSet, Due;
  }

  /** Two attempts in a row for one target are at least reapplyS apart. */
  lemma AttemptsInARow(p: Params, gs: seq<Engine>, ins: seq<Input>, os: seq<Outcome>, i: nat, j: nat)
    requires EngineRun(p, gs, ins, os) && SetsAt(p, gs, ins, i) && SetsAt(p, gs, ins, j) && i < j
    requires forall k | i < k < j :: !SetsAt(p, gs, ins, k)
    requires WantedAt(p, gs, ins, i) == WantedAt(p, gs, ins, j)
    ensures ins[j].now - ins[i].now >= p.reapplyS
  {
    LeverRemembers(p, gs, ins, os, i, j);
    hide Timed, TargetsOf;
  }

  // ---- a missing power reading ----

  /** After this run a measurement without a power reading crashes the agent. */
  ghost predicate CrashesAfter(p: Params, limits: Limits, ts: seq<Timer>, xs: seq<Sample>, now: real) {
    && TimerRun(p, ts, xs) && (forall k | 0 <= k < |xs| :: xs[k].now <= now)
    && ReadsMissingPower(p, ts[|xs|], Input(now, limits, None))
  }

  lemma {:induction false} LowSinceIsPast(p: Params, ts: seq<Timer>, xs: seq<Sample>, k: nat)
    requires TimerRun(p, ts, xs) && 0 < k <= |xs|
    ensures ts[k].lowSince.Some? ==> ts[k].lowSince.value <= xs[k - 1].now
    decreases k
  {
    assert ts[k] == Timed(p, ts[k - 1], xs[k - 1].now, xs[k - 1].raw);
    if 1 < k {
      LowSinceIsPast(p, ts, xs, k - 1);
      assert xs[k - 2].now <= xs[k - 1].now;
    }
  }

  /** A run that ends in this crash exists exactly if the gap rule and the counter are switched on at all: with positive times, a
      full-load sample followed, half of highS later, by one without a reading is enough. */
  lemma MissingPowerIff(p: Params, limits: Limits)
    ensures (exists ts, xs, now :: CrashesAfter(p, limits, ts, xs, now)) <==> p.highS > 0.0 && p.highGapS > 0.0
  {
    forall ts: seq<Timer>, xs: seq<Sample>, now: real | CrashesAfter(p, limits, ts, xs, now) ensures p.highS > 0.0 && p.highGapS > 0.0 {
      if xs != [] {
        LowSinceIsPast(p, ts, xs, |xs|);
        assert xs[|xs| - 1].now <= now;
      }
    }
    if p.highS > 0.0 && p.highGapS > 0.0 {
      assert CrashesAfter(p, limits, [FRESH_TIMER, Timed(p, FRESH_TIMER, 0.0, true)], [Sample(0.0, true)], p.highS / 2.0);
    }
  }
}
