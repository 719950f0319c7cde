/** How far apart the guard's attempts for one target are, over all runs with fixed limits. */
module GuardSpacing {
  import opened Common
  import opened Guard
  import opened GuardRuns

  /** The first attempt after i, up to a known one at j. */
  lemma NextAttempt(p: Params, gs: seq<Engine>, ins: seq<Input>, i: nat, j: nat) returns (k: nat)
    requires i < j && SetsAt(p, gs, ins, j)
    ensures i < k <= j && SetsAt(p, gs, ins, k) && forall m | i < m < k :: !SetsAt(p, gs, ins, m)
  {
    k := i + 1;
    while !SetsAt(p, gs, ins, k)
      invariant i < k <= j && forall m | i < m < k :: !SetsAt(p, gs, ins, m)
      decreases j - k
    {
      k := k + 1;
    }
  }

  predicate InStage2(ts: seq<Timer>, k: nat) { k < |ts| && ts[k].state.Throttled? }

  /** Somewhere between two samples with and without stage 2 it starts or ends. */
  lemma Switch(ts: seq<Timer>, i: nat, j: nat) returns (k: nat)
    requires i < j < |ts| && InStage2(ts, i) != InStage2(ts, j)
    ensures i <= k < j && (forall m | i <= m <= k :: InStage2(ts, m) == InStage2(ts, i))
    ensures if InStage2(ts, i) then LeavesAt(ts, k) else EntersAt(ts, k)
  {
    k := i;
    while InStage2(ts, k + 1) == InStage2(ts, i)
      invariant i <= k < j && forall m | i <= m <= k :: InStage2(ts, m) == InStage2(ts, i)
      decreases j - k
    {
      k := k + 1;
    }
    assert InStage2(ts, k) == InStage2(ts, i);
  }

  /** A stage 2 that started and ended between two samples took recoveryS of the time between them. */
  lemma Stage2TakesTime(p: Params, ts: seq<Timer>, xs: seq<Sample>, i: nat, k: nat, j: nat)
    requires TimerRun(p, ts, xs) && i < k < j < |ts|
    requires !InStage2(ts, i) && InStage2(ts, k) && !InStage2(ts, j)
    ensures xs[j - 1].now - xs[i].now >= p.recoveryS
  {
    var b := Switch(ts, i, k);
    var e := Switch(ts, b + 1, j);
    if forall m | b < m < e :: xs[m].now - xs[b].now < p.recoveryS {
      Stage2LastsExactly(p, ts, xs, b, e);
    } else {
      var m :| b < m < e && xs[m].now - xs[b].now >= p.recoveryS;
    }
  }

  /** A run in which the card's default and minimal limit stay what they are. */
  ghost predicate FixedRun(p: Params, l: Limits, gs: seq<Engine>, ins: seq<Input>, os: seq<Outcome>) {
    EngineRun(p, gs, ins, os) && forall k | 0 <= k < |ins| :: ins[k].limits.def == l.def && ins[k].limits.min == l.min
  }

  /** The attempts at samples i and j of this run are for one target. */
  ghost predicate Repeats(p: Params, l: Limits, gs: seq<Engine>, ins: seq<Input>, os: seq<Outcome>, i: nat, j: nat) {
    && FixedRun(p, l, gs, ins, os) && i < j && SetsAt(p, gs, ins, i) && SetsAt(p, gs, ins, j)
    && WantedAt(p, gs, ins, i) == WantedAt(p, gs, ins, j)
  }

  /** With fixed limits any two attempts for the same target - whatever was tried in between - are apart by reapplyS, by a whole
      stage 2, or by a whole counter and recovery. */
  lemma {:induction false} SameTargetSpacing(p: Params, gs: seq<Engine>, ins: seq<Input>, os: seq<Outcome>, l: Limits,
                                             i: nat, j: nat, least: real)
    requires Repeats(p, l, gs, ins, os, i, j)
    requires least <= p.reapplyS && least <= MaxR(0.0, p.recoveryS) && least <= MaxR(p.highS, RECOVERY_REPORT_S)
    ensures ins[j].now - ins[i].now >= least
  {
    var k := NextAttempt(p, gs, ins, i, j);
    if WantedAt(p, gs, ins, k) == WantedAt(p, gs, ins, i) {
      AttemptsInARow(p, gs, ins, os, i, k);
    } else {
      var ts, xs := TimersOf(gs), SamplesOf(p, ins);
      TimerRunOf(p, gs, ins, os);
      WantShowsStage(p, gs, ins, os, i, k);
      WantShowsStage(p, gs, ins, os, k, j);
      if InStage2(ts, k + 1) {
        Stage2TakesTime(p, ts, xs, i + 1, k + 1, j + 1);
      } else {
        var e := Switch(ts, i + 1, k + 1);
        var b := Switch(ts, k + 1, j + 1);
        PhasesAreApart(p, ts, xs, e, b);
      }
    }
  }

  /** With the same limits different targets mean different stages. */
  lemma WantShowsStage(p: Params, gs: seq<Engine>, ins: seq<Input>, os: seq<Outcome>, i: nat, k: nat)
    requires EngineRun(p, gs, ins, os) && i < |ins| && k < |ins|
    requires ins[i].limits.def == ins[k].limits.def && ins[i].limits.min == ins[k].limits.min
    requires WantedAt(p, gs, ins, i) != WantedAt(p, gs, ins, k)
    ensures InStage2(TimersOf(gs), i + 1) != InStage2(TimersOf(gs), k + 1)
  {
  }

  // ---- runs that come as close as that ----

  /** A measurement of a card with these limits: the load is exactly at the threshold, or 1 W below it. */
  function Measured(p: Params, l: Limits, now: real, raw: bool, cur: real): Input {
    Input(now, Limits(cur, l.def, l.min), Some(cur * p.highPct / 100.0 - if raw then 0.0 else 1.0))
  }

  predicate TwoTargets(p: Params, l: Limits) { l.def > 0.0 && TargetsOf(p, l).stage2 != TargetsOf(p, l).sustained }

  lemma TargetsAreOrdered(p: Params, l: Limits)
    requires TwoTargets(p, l)
    ensures 0.0 < TargetsOf(p, l).stage2 < TargetsOf(p, l).sustained
  {
  }

  /** A card at the wanted limit is left alone; one above both targets gets an attempt when the target is new. */
  lemma MeasuredStep(p: Params, l: Limits, g: Engine, now: real, raw: bool, cur: real, next: Timer)
    requires TwoTargets(p, l) && cur > 0.0 && next == Timed(p, g.timer, now, raw)
    ensures var i := Measured(p, l, now, raw, cur); i.now == now && i.limits == Limits(cur, l.def, l.min)
    ensures var i, t := Measured(p, l, now, raw, cur), TargetsOf(p, l);
      var want, g1 := Want(next.state, t), Stepped(p, g, i, NO);
      && g1.timer == next && WantAt(p, g, i) == want
      && (cur == want ==> !Sets(p, g, i) && g1.lever.lastApply == g.lever.lastApply && g1.lever.lastWant == g.lever.lastWant)
      && (cur == t.sustained + 1.0 && (g.lever.lastApply.None? || g.lever.lastWant != want) ==>
          Sets(p, g, i) && g1.lever.lastApply == Some(now) && g1.lever.lastWant == want)
  {
    TargetsAreOrdered(p, l);
    assert RawHigh(p, Measured(p, l, now, raw, cur)) == raw;
    hide Timed;
  }

  const NO: Outcome := Refused("no")

  /** What the timer of a fresh engine does at the four samples of EarlySustained. */
  lemma EarlySustainedTimes(p: Params) returns (counts: bool, d: real, enter: real, leave: real, ts: seq<Timer>)
    requires p.reapplyS > MaxR(0.0, p.recoveryS)
    ensures 0.0 < d <= enter <= leave && leave - (enter - d) < p.reapplyS && |ts| == 4
    ensures ts[0] == Timed(p, FRESH_TIMER, 0.0, counts) && ts[1] == Timed(p, ts[0], enter - d, counts)
    ensures ts[2] == Timed(p, ts[1], enter, true) && ts[3] == Timed(p, ts[2], leave, true)
    ensures !ts[0].state.Throttled? && !ts[1].state.Throttled? && ts[2].state.Throttled? && !ts[3].state.Throttled?
  {
    var rest := MaxR(0.0, p.recoveryS);
    counts := p.highS > 0.0;
    d := (if counts then MinR(p.highS, p.reapplyS - rest) else p.reapplyS - rest) / 3.0;
    enter := if counts then p.highS else d;
    leave := enter + rest + d;
    var t1 := Timed(p, FRESH_TIMER, 0.0, counts);
    var t2 := Timed(p, t1, enter - d, counts);
    assert !t2.state.Throttled? && t2.highSince == if counts then Some(0.0) else None;
    var t3 := Timed(p, t2, enter, true);
    assert t3.state.Throttled? && t3.stage2Since == enter;
    ts := [t1, t2, t3, Timed(p, t3, leave, true)];
  }

  /** Attempts for the sustained limit just before a stage 2 and at its end, where reapplyS is longer than that. */
  lemma EarlySustained(p: Params, l: Limits) returns (gs: seq<Engine>, ins: seq<Input>, os: seq<Outcome>)
    requires TwoTargets(p, l) && p.reapplyS > MaxR(0.0, p.recoveryS)
    ensures Repeats(p, l, gs, ins, os, 1, 3) && ins[3].now - ins[1].now < p.reapplyS
  {
    var t := TargetsOf(p, l);
    var counts, d, enter, leave, ts := EarlySustainedTimes(p);
    TargetsAreOrdered(p, l);
    var above := t.sustained + 1.0;
    var x0, x1 := Measured(p, l, 0.0, counts, t.sustained), Measured(p, l, enter - d, counts, above);
    var x2, x3 := Measured(p, l, enter, true, above), Measured(p, l, leave, true, above);
    hide Timed, Stepped, TargetsOf, WantAt, Sets, MaxR, TwoTargets, Measured;
    MeasuredStep(p, l, FRESH, 0.0, counts, t.sustained, ts[0]);
    var g1 := Stepped(p, FRESH, x0, NO);
    MeasuredStep(p, l, g1, enter - d, counts, above, ts[1]);
    var g2 := Stepped(p, g1, x1, NO);
    MeasuredStep(p, l, g2, enter, true, above, ts[2]);
    var g3 := Stepped(p, g2, x2, NO);
    MeasuredStep(p, l, g3, leave, true, above, ts[3]);
    ins, os, gs := [x0, x1, x2, x3], [NO, NO, NO, NO], [FRESH, g1, g2, g3, Stepped(p, g3, x3, NO)];
  }

  /** What the timer does at the seven samples of EarlyStage2. */
  lemma EarlyStage2Times(p: Params) returns (counts: bool, d: real, enter: real, leave: real, again: real, ts: seq<Timer>)
    requires p.recoveryS >= p.reapplyS > MaxR(p.highS, RECOVERY_REPORT_S)
    ensures 0.0 < d <= 1.0 && 0.0 <= enter <= leave - d && leave + RECOVERY_REPORT_S <= again && |ts| == 7
    ensures again - (leave - d) < p.reapplyS
    ensures ts[0] == Timed(p, FRESH_TIMER, 0.0, counts) && ts[1] == Timed(p, ts[0], enter, true)
    ensures ts[2] == Timed(p, ts[1], leave - d, true) && ts[3] == Timed(p, ts[2], leave, true)
    ensures ts[4] == Timed(p, ts[3], leave + d, true) && ts[5] == Timed(p, ts[4], leave + RECOVERY_REPORT_S, true)
    ensures ts[6] == Timed(p, ts[5], again, true)
    ensures forall k | 0 <= k < 7 :: ts[k].state.Throttled? <==> k in {1, 2, 6}
  {
    counts := p.highS > 0.0;
    var apart := MaxR(p.highS, RECOVERY_REPORT_S);
    d := MinR((p.reapplyS - apart) / 3.0, 1.0);
    enter := MaxR(0.0, p.highS);
    leave := enter + p.recoveryS;
    again := leave + d + apart;
    var t1 := Timer(Normal, if counts then Some(0.0) else None, None, 0.0, 0.0);
    var t2 := Timer(Throttled, Some(if counts then 0.0 else enter), None, enter, 0.0);
    var t4 := Timer(Recovery, None, None, enter, leave);
    var t5 := Timer(Recovery, Some(leave + d), None, enter, leave);
    var t6 := t5.(state := Normal);
    var t7 := Timed(p, t6, again, true);
    assert t1 == Timed(p, FRESH_TIMER, 0.0, counts);
    assert t2 == Timed(p, t1, enter, true);
    assert t2 == Timed(p, t2, leave - d, true);
    assert t4 == Timed(p, t2, leave, true);
    assert t5 == Timed(p, t4, leave + d, true);
    assert t6 == Timed(p, t5, leave + RECOVERY_REPORT_S, true);
    assert t7.state.Throttled?;
    hide Timed;
    ts := [t1, t2, t2, t4, t5, t6, t7];
  }

  /** Attempts for stage 2 at the end of one and the beginning of the next, where reapplyS is longer than what lies between. */
  lemma EarlyStage2(p: Params, l: Limits) returns (gs: seq<Engine>, ins: seq<Input>, os: seq<Outcome>)
    requires TwoTargets(p, l) && p.recoveryS >= p.reapplyS > MaxR(p.highS, RECOVERY_REPORT_S)
    ensures Repeats(p, l, gs, ins, os, 2, 6) && ins[6].now - ins[2].now < p.reapplyS
  {
    var t := TargetsOf(p, l);
    var counts, d, enter, leave, again, ts := EarlyStage2Times(p);
    TargetsAreOrdered(p, l);
    var above := t.sustained + 1.0;
    var x0, x1 := Measured(p, l, 0.0, counts, t.sustained), Measured(p, l, enter, true, t.stage2);
    var x2, x3 := Measured(p, l, leave - d, true, above), Measured(p, l, leave, true, above);
    var x4, x5 := Measured(p, l, leave + d, true, t.sustained), Measured(p, l, leave + RECOVERY_REPORT_S, true, t.sustained);
    var x6 := Measured(p, l, again, true, above);
    hide Timed, Stepped, TargetsOf, WantAt, Sets, MaxR, TwoTargets, Measured;
    MeasuredStep(p, l, FRESH, 0.0, counts, t.sustained, ts[0]);
    var g1 := Stepped(p, FRESH, x0, NO);
    MeasuredStep(p, l, g1, enter, true, t.stage2, ts[1]);
    var g2 := Stepped(p, g1, x1, NO);
    MeasuredStep(p, l, g2, leave - d, true, above, ts[2]);
    var g3 := Stepped(p, g2, x2, NO);
    MeasuredStep(p, l, g3, leave, true, above, ts[3]);
    var g4 := Stepped(p, g3, x3, NO);
    MeasuredStep(p, l, g4, leave + d, true, t.sustained, ts[4]);
    var g5 := Stepped(p, g4, x4, NO);
    MeasuredStep(p, l, g5, leave + RECOVERY_REPORT_S, true, t.sustained, ts[5]);
    var g6 := Stepped(p, g5, x5, NO);
    MeasuredStep(p, l, g6, again, true, above, ts[6]);
    ins, os := [x0, x1, x2, x3, x4, x5, x6], [NO, NO, NO, NO, NO, NO, NO];
    gs := [FRESH, g1, g2, g3, g4, g5, g6, Stepped(p, g6, x6, NO)];
  }

  // ---- exactly which parameters keep reapplyS ----

  /** In every run any two attempts for one target are at least reapplyS apart. */
  ghost predicate KeepsReapply(p: Params, l: Limits) {
    forall gs: seq<Engine>, ins: seq<Input>, os: seq<Outcome>, i: nat, j: nat | Repeats(p, l, gs, ins, os, i, j) ::
      ins[j].now - ins[i].now >= p.reapplyS
  }

  /** Two attempts for one target are always reapplyS apart exactly if neither a stage 2, nor a counter with its recovery, is
      shorter than reapplyS. */
  lemma SpacingIff(p: Params, l: Limits)
    requires TwoTargets(p, l)
    ensures KeepsReapply(p, l) <==> p.reapplyS <= MaxR(0.0, p.recoveryS) && p.reapplyS <= MaxR(p.highS, 60.0)
  {
    if p.reapplyS <= MaxR(0.0, p.recoveryS) && p.reapplyS <= MaxR(p.highS, RECOVERY_REPORT_S) {
      forall gs: seq<Engine>, ins: seq<Input>, os: seq<Outcome>, i: nat, j: nat | Repeats(p, l, gs, ins, os, i, j)
        ensures ins[j].now - ins[i].now >= p.reapplyS
      {
        SameTargetSpacing(p, gs, ins, os, l, i, j, p.reapplyS);
      }
    } else if p.reapplyS > MaxR(0.0, p.recoveryS) {
      var gs, ins, os := EarlySustained(p, l);
    } else {
      var gs, ins, os := EarlyStage2(p, l);
    }
  }
}
