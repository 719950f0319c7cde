/** What the guard asks of the card, in terms of the operator's configuration and of the measurements before. */
module GuardTargets {
  import opened Common
  import opened Guard
  import opened GuardRuns

  // ---- which limit ----

  /** n is `wish` to the watt, halves away from zero. */
  predicate WattOf(n: int, wish: real) {
    if wish >= 0.0 then n as real - 0.5 <= wish < n as real + 0.5 else n as real - 0.5 < wish <= n as real + 0.5
  }

  /** x is v, or the bound that v lies beyond. */
  predicate Within(x: real, v: real, lo: real, hi: real) {
    (v <= lo ==> x == lo) && (lo <= v <= hi ==> x == v) && (v >= hi ==> x == hi)
  }

  lemma RoundIsWatt(wish: real) returns (n: int)
    ensures WattOf(n, wish) && Round(wish) == n as real
  {
    n := if wish >= 0.0 then (wish + 0.5).Floor else -(0.5 - wish).Floor;
  }

  lemma ClampIsWithin(v: real, lo: real, hi: real)
    requires lo <= hi
    ensures Within(Clamp(v, lo, hi), v, lo, hi) && lo <= Clamp(v, lo, hi) <= hi
  {
  }

  /** The lowest limit is the card's minimum, or half its default where the card names none. */
  lemma LowestIs(l: Limits)
    ensures l.min > 0.0 ==> Lowest(l) == l.min
    ensures l.min <= 0.0 ==> 2.0 * Lowest(l) == l.def
  {
  }

  /** The limit the operator wants for a card with this default: in watts, or as a share of the default. */
  predicate Asks(p: Params, def: real, wish: real) {
    if p.limitW > 0.0 then wish == p.limitW else 100.0 * wish == p.limitPct * def
  }

  predicate AsksInStage2(p: Params, def: real, wish: real) { 100.0 * wish == p.stage2Pct * def }

  /** x is the wish to the watt, or the bound that lies beyond. */
  ghost predicate Met(x: real, wish: real, lo: real, hi: real) {
    exists n: int :: WattOf(n, wish) && Within(x, n as real, lo, hi)
  }

  lemma ClampedRoundMeets(wish: real, lo: real, hi: real)
    requires lo <= hi
    ensures Met(Clamp(Round(wish), lo, hi), wish, lo, hi) && lo <= Clamp(Round(wish), lo, hi) <= hi
  {
    hide Round, Clamp, Within, WattOf;
    var n := RoundIsWatt(wish);
    ClampIsWithin(n as real, lo, hi);
  }

  lemma ShareIs(def: real, pct: real)
    ensures 100.0 * Share(def, pct) == pct * def
  {
  }

  /** The sustained limit is what the operator asks for, stage 2 its share of the default - each to the watt and within what is
      admissible, stage 2 not above the sustained limit. */
  lemma TargetsAreAsked(p: Params, l: Limits) returns (wish: real, wish2: real)
    requires Lowest(l) <= l.def
    ensures Asks(p, l.def, wish) && Met(TargetsOf(p, l).sustained, wish, Lowest(l), l.def)
    ensures AsksInStage2(p, l.def, wish2) && Met(TargetsOf(p, l).stage2, wish2, Lowest(l), TargetsOf(p, l).sustained)
  {
    ShareIs(l.def, p.limitPct);
    ShareIs(l.def, p.stage2Pct);
    hide Share, Round, Clamp, Met, Lowest;
    wish, wish2 := if p.limitW > 0.0 then p.limitW else Share(l.def, p.limitPct), Share(l.def, p.stage2Pct);
    ClampedRoundMeets(wish, Lowest(l), l.def);
    ClampedRoundMeets(wish2, Lowest(l), TargetsOf(p, l).sustained);
  }

  /** An admissible wish is met to half a watt. */
  lemma AdmissibleIsNear(x: real, wish: real, lo: real, hi: real)
    requires Met(x, wish, lo, hi) && lo <= wish <= hi
    ensures wish - 0.5 <= x <= wish + 0.5
  {
    var n :| WattOf(n, wish) && Within(x, n as real, lo, hi);
  }

  /** What setLimit is called with, for any wish: in stage 2 the share of the default, otherwise the sustained limit - to the watt,
      within bounds, and to half a watt if it is admissible. */
  lemma CallIsAsked(p: Params, gs: seq<Engine>, ins: seq<Input>, os: seq<Outcome>, k: nat, wish: real)
    requires EngineRun(p, gs, ins, os) && k < |ins| && Lowest(ins[k].limits) <= ins[k].limits.def
    requires if gs[k + 1].timer.state.Throttled? then AsksInStage2(p, ins[k].limits.def, wish) else Asks(p, ins[k].limits.def, wish)
    ensures var l, want := ins[k].limits, WantedAt(p, gs, ins, k);
      var top := if gs[k + 1].timer.state.Throttled? then TargetsOf(p, l).sustained else l.def;
      Met(want, wish, Lowest(l), top) && (Lowest(l) <= wish <= top ==> wish - 0.5 <= want <= wish + 0.5)
  {
    hide Timed, TargetsOf, Met, Lowest, Levered;
    var l := ins[k].limits;
    var w, w2 := TargetsAreAsked(p, l);
    StepsFollow(p, gs, ins, os, k);
    var top := if gs[k + 1].timer.state.Throttled? then TargetsOf(p, l).sustained else l.def;
    if Lowest(l) <= wish <= top {
      AdmissibleIsNear(WantedAt(p, gs, ins, k), wish, Lowest(l), top);
    }
  }

  // ---- when ----

  /** Sample i is the last attempt before sample k. */
  predicate LastAttempt(p: Params, gs: seq<Engine>, ins: seq<Input>, i: nat, k: nat) {
    i < k && SetsAt(p, gs, ins, i) && forall m | i < m < k :: !SetsAt(p, gs, ins, m)
  }

  predicate Untried(p: Params, gs: seq<Engine>, ins: seq<Input>, k: nat) { forall m | 0 <= m < k :: !SetsAt(p, gs, ins, m) }

  /** The card accepted a limit at sample i, and none after that before sample k. */
  predicate LastAccepted(p: Params, gs: seq<Engine>, ins: seq<Input>, os: seq<Outcome>, i: nat, k: nat) {
    i < k <= |os| && SetsAt(p, gs, ins, i) && os[i].Accepted? && forall m | i < m < k :: !(SetsAt(p, gs, ins, m) && os[m].Accepted?)
  }

  predicate NoneAccepted(p: Params, gs: seq<Engine>, ins: seq<Input>, os: seq<Outcome>, k: nat) {
    k <= |os| && forall m | 0 <= m < k :: !(SetsAt(p, gs, ins, m) && os[m].Accepted?)
  }

  lemma LeverStep(p: Params, g: Engine, i: Input, o: Outcome)
    ensures var l := Stepped(p, g, i, o).lever;
      if Sets(p, g, i) then l.lastApply == Some(i.now) && l.lastWant == WantAt(p, g, i)
                            && l.lastSetW == (if o.Accepted? then WantAt(p, g, i) else g.lever.lastSetW)
      else l.lastApply == g.lever.lastApply && l.lastWant == g.lever.lastWant && l.lastSetW == g.lever.lastSetW
  {
    hide Timed, TargetsOf, NeedSet, Due;
  }

  lemma {:induction false} LeverIs(p: Params, gs: seq<Engine>, ins: seq<Input>, os: seq<Outcome>, k: nat)
    requires EngineRun(p, gs, ins, os) && k <= |ins|
    ensures Untried(p, gs, ins, k) ==> gs[k].lever.lastApply.None?
    ensures NoneAccepted(p, gs, ins, os, k) ==> gs[k].lever.lastSetW == 0.0
    decreases k
  {
    if k > 0 {
      hide Timed, TargetsOf, Sets, Levered;
      StepsFollow(p, gs, ins, os, k - 1);
      LeverStep(p, gs[k - 1], ins[k - 1], os[k - 1]);
      LeverIs(p, gs, ins, os, k - 1);
      assert SetsAt(p, gs, ins, k - 1) <==> Sets(p, gs[k - 1], ins[k - 1]);
    }
  }

  lemma {:induction false} AcceptedIs(p: Params, gs: seq<Engine>, ins: seq<Input>, os: seq<Outcome>, i: nat, k: nat)
    requires EngineRun(p, gs, ins, os) && k <= |ins| && LastAccepted(p, gs, ins, os, i, k)
    ensures gs[k].lever.lastSetW == WantedAt(p, gs, ins, i)
    decreases k
  {
    hide Timed, TargetsOf, Sets, Levered, WantAt;
    StepsFollow(p, gs, ins, os, k - 1);
    LeverStep(p, gs[k - 1], ins[k - 1], os[k - 1]);
    if i + 1 < k {
      AcceptedIs(p, gs, ins, os, i, k - 1);
    }
  }

  /** Above the wanted limit, or below it at a value that is the guard's own: one of the two targets, or the limit the card accepted
      last. */
  predicate Astray(cur: real, want: real, t: Targets, accepted: Option<real>) {
    || cur - want > 0.5
    || (want - cur > 0.5
        && (-0.5 < cur - t.stage2 < 0.5 || -0.5 < cur - t.sustained < 0.5
            || (accepted.Some? && accepted.value > 0.0 && -0.5 < cur - accepted.value < 0.5)))
  }

  /** An attempt is made exactly if the card's limit is astray and no attempt for this target was made within reapplyS: there was
      none at all, or the last one is that old or was for another target. */
  lemma AttemptIff(p: Params, gs: seq<Engine>, ins: seq<Input>, os: seq<Outcome>, k: nat, accepted: Option<nat>)
    requires EngineRun(p, gs, ins, os) && k < |ins|
    requires if accepted.Some? then LastAccepted(p, gs, ins, os, accepted.value, k) else NoneAccepted(p, gs, ins, os, k)
    ensures var want, t := WantedAt(p, gs, ins, k), TargetsOf(p, ins[k].limits);
      var own := if accepted.Some? then Some(WantedAt(p, gs, ins, accepted.value)) else None;
      var astray := Astray(ins[k].limits.cur, want, t, own);
      && (Untried(p, gs, ins, k) ==> (SetsAt(p, gs, ins, k) <==> astray))
      && (forall i: nat :: LastAttempt(p, gs, ins, i, k) ==>
           (SetsAt(p, gs, ins, k) <==> astray && (ins[k].now - ins[i].now >= p.reapplyS || WantedAt(p, gs, ins, i) != want)))
  {
    hide Timed, TargetsOf;
    LeverIs(p, gs, ins, os, k);
    if accepted.Some? {
      AcceptedIs(p, gs, ins, os, accepted.value, k);
    }
    forall i: nat | LastAttempt(p, gs, ins, i, k)
      ensures gs[k].lever.lastApply == Some(ins[i].now) && gs[k].lever.lastWant == WantedAt(p, gs, ins, i)
    {
      LeverRemembers(p, gs, ins, os, i, k);
    }
    SetsIff(p, gs[k], ins[k]);
    hide Sets, WantAt, EngineRun;
  }

  lemma SetsIff(p: Params, g: Engine, i: Input)
    ensures var want, t, l := WantAt(p, g, i), TargetsOf(p, i.limits), g.lever;
      Sets(p, g, i) <==>
        Astray(i.limits.cur, want, t, Some(l.lastSetW)) && (l.lastApply.None? || i.now - l.lastApply.value >= p.reapplyS || l.lastWant != want)
  {
    hide Timed, TargetsOf, WantAt;
  }

  // ---- refusals ----

  /** A limit counts as not settable from an attempt that was refused, or had no way to be made, until one is accepted, or until the
      card's limit is right and the refusal reapplyS old. */
  lemma RefusalLasts(p: Params, g: Engine, i: Input, o: Outcome)
    ensures var l := Stepped(p, g, i, o).lever;
      var right := !Astray(i.limits.cur, WantAt(p, g, i), TargetsOf(p, i.limits), Some(g.lever.lastSetW));
      && (Sets(p, g, i) && o.Accepted? ==> l.denied == "")
      && (Sets(p, g, i) && o.Refused? ==> l.denied == o.error && l.deniedAt == i.now)
      && (Sets(p, g, i) && o.NoLever? ==> l.denied != "" && l.deniedAt == i.now)
      && (!Sets(p, g, i) ==> l.denied == (if right && i.now - g.lever.deniedAt >= p.reapplyS then "" else g.lever.denied))
  {
    hide Timed, TargetsOf, WantAt;
  }

  // ---- interference from outside ----

  /** The card accepted at sample k, once more, the value it had accepted last, after showing more than that. */
  predicate Raised(p: Params, gs: seq<Engine>, ins: seq<Input>, os: seq<Outcome>, k: nat) {
    && k < |os| && SetsAt(p, gs, ins, k) && os[k].Accepted?
    && gs[k].lever.lastSetW == WantedAt(p, gs, ins, k) && ins[k].limits.cur - WantedAt(p, gs, ins, k) > 0.5
  }

  /** The card's limit needs to be set, whether or not an attempt is due. */
  predicate AstrayAt(p: Params, gs: seq<Engine>, ins: seq<Input>, k: nat)
    requires k < |gs| && k < |ins|
  {
    Astray(ins[k].limits.cur, WantedAt(p, gs, ins, k), TargetsOf(p, ins[k].limits), Some(gs[k].lever.lastSetW))
  }

  /** These samples, in order, are raises, and the card's limit has been astray ever since the first. */
  ghost predicate RaisesTo(p: Params, gs: seq<Engine>, ins: seq<Input>, os: seq<Outcome>, rs: seq<nat>, k: nat) {
    && k <= |ins| && |gs| > k && (forall r | r in rs :: r < k && Raised(p, gs, ins, os, r))
    && (forall i, j | 0 <= i < j < |rs| :: rs[i] < rs[j])
    && (rs != [] ==> forall m | rs[0] <= m < k :: AstrayAt(p, gs, ins, m))
  }

  lemma NoRaises(p: Params, gs: seq<Engine>, ins: seq<Input>, os: seq<Outcome>, k: nat)
    requires k <= |ins| && k < |gs|
    ensures RaisesTo(p, gs, ins, os, [], k)
  {
  }

  lemma RaisesGrow(p: Params, gs: seq<Engine>, ins: seq<Input>, os: seq<Outcome>, was: seq<nat>, k: nat)
    requires RaisesTo(p, gs, ins, os, was, k) && k < |ins| && k + 1 < |gs|
    ensures was == [] || AstrayAt(p, gs, ins, k) ==> RaisesTo(p, gs, ins, os, was, k + 1)
    ensures Raised(p, gs, ins, os, k) && AstrayAt(p, gs, ins, k) ==> RaisesTo(p, gs, ins, os, was + [k], k + 1)
  {
    hide Raised, AstrayAt;
    var rs := was + [k];
    forall i | 0 <= i < |was| ensures was[i] < k {
      var r := was[i];
      assert r in was;
    }
    assert rs[0] == if was == [] then k else was[0];
  }

  lemma ConflictStep(p: Params, g: Engine, i: Input, o: Outcome)
    ensures var l, want := Stepped(p, g, i, o).lever, WantAt(p, g, i);
      var astray := Astray(i.limits.cur, want, TargetsOf(p, i.limits), Some(g.lever.lastSetW));
      var raised := Sets(p, g, i) && o.Accepted? && g.lever.lastSetW == want && i.limits.cur - want > 0.5;
      && l.conflicts == (if !astray then 0
                         else if raised then g.lever.conflicts + 1
                         else if Sets(p, g, i) && o.Accepted? then 0
                         else g.lever.conflicts)
      && l.externalWarned == (astray && (g.lever.externalWarned || (raised && g.lever.conflicts + 1 >= 3)))
  {
    hide Timed, TargetsOf, WantAt;
  }

  /** The warning of outside interference is on from the third raise without a settled sample in between until the limit is settled
      again: the conflicts counted are raises, three of them warn, and a settled sample ends it. */
  lemma {:induction false} ConflictsAreRaises(p: Params, gs: seq<Engine>, ins: seq<Input>, os: seq<Outcome>, k: nat) returns (rs: seq<nat>)
    requires EngineRun(p, gs, ins, os) && k <= |ins|
    ensures |rs| == gs[k].lever.conflicts && RaisesTo(p, gs, ins, os, rs, k)
    ensures |rs| >= 3 ==> gs[k].lever.externalWarned
    ensures k > 0 && |rs| > gs[k - 1].lever.conflicts ==> rs[|rs| - 1] == k - 1
    ensures k > 0 && !AstrayAt(p, gs, ins, k - 1) ==> rs == [] && !gs[k].lever.externalWarned
    decreases k
  {
    hide Timed, TargetsOf, Sets, Levered, Astray, WantAt, RaisesTo;
    rs := [];
    if k == 0 {
      NoRaises(p, gs, ins, os, 0);
    } else {
      StepsFollow(p, gs, ins, os, k - 1);
      ConflictStep(p, gs[k - 1], ins[k - 1], os[k - 1]);
      var was := ConflictsAreRaises(p, gs, ins, os, k - 1);
      NoRaises(p, gs, ins, os, k);
      RaisesGrow(p, gs, ins, os, was, k - 1);
      if Raised(p, gs, ins, os, k - 1) && AstrayAt(p, gs, ins, k - 1) {
        rs := was + [k - 1];
      } else if gs[k].lever.conflicts == gs[k - 1].lever.conflicts {
        rs := was;
      }
    }
  }

  /** The event is reported with the third raise, once. */
  lemma ThirdRaiseWarns(p: Params, gs: seq<Engine>, ins: seq<Input>, os: seq<Outcome>, k: nat) returns (rs: seq<nat>)
    requires EngineRun(p, gs, ins, os) && k < |ins|
    requires gs[k + 1].lever.externalWarned && !gs[k].lever.externalWarned
    ensures |rs| == 3 && rs[2] == k && RaisesTo(p, gs, ins, os, rs, k + 1)
  {
    var was := ConflictsAreRaises(p, gs, ins, os, k);
    rs := ConflictsAreRaises(p, gs, ins, os, k + 1);
    hide Timed, TargetsOf, Sets, Levered, Astray, WantAt, RaisesTo;
    StepsFollow(p, gs, ins, os, k);
    ConflictStep(p, gs[k], ins[k], os[k]);
  }
}
