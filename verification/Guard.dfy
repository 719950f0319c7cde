/** agent/guard.go: the engine that limits a graphics card's power. Watts, percent and seconds are reals.

    `Timer` is the part that decides between sustained limit and stage 2, `Lever` the part that sets a limit; `Stepped`
    is one measurement with readable limits, proved to be what the method `Step` does in place. */
module Guard {
  import opened Common

  datatype State = Normal | HighLoad | Throttled | Recovery

  const RECOVERY_REPORT_S: real := 60.0

  datatype Params = Params(limitPct: real, limitW: real, reapplyS: real, highPct: real, highS: real, highGapS: real,
                           stage2Pct: real, recoveryS: real)

  /** What the card reports: current, default and minimal limit. */
  datatype Limits = Limits(cur: real, def: real, min: real)

  datatype Input = Input(now: real, limits: Limits, power: Option<real>)

  // ---- targets ----

  function MinR(a: real, b: real): real { if a < b then a else b }
  function MaxR(a: real, b: real): real { if a < b then b else a }

  function Clamp(v: real, lo: real, hi: real): real { MaxR(lo, MinR(hi, v)) }

  /** math.Round: halves go away from zero. */
  function Round(x: real): real {
    if x >= 0.0 then (x + 0.5).Floor as real else -((0.5 - x).Floor as real)
  }

  function Lowest(l: Limits): real {
    if l.min <= 0.0 then l.def * 0.5 else l.min
  }

  datatype Targets = Targets(sustained: real, stage2: real)

  function Share(def: real, pct: real): real { def * pct / 100.0 }

  function TargetsFor(p: Params, def: real, lowest: real): Targets {
    var wish := if p.limitW > 0.0 then p.limitW else Share(def, p.limitPct);
    var sustained := Clamp(Round(wish), lowest, def);
    Targets(sustained, Clamp(Round(Share(def, p.stage2Pct)), lowest, sustained))
  }

  function TargetsOf(p: Params, l: Limits): Targets {
    TargetsFor(p, l.def, Lowest(l))
  }

  /** Both targets lie between the lowest admissible limit and the default, stage 2 below the sustained one - exactly
      when the card's minimum does not exceed its default. */
  lemma TargetsInRangeIff(p: Params, l: Limits)
    ensures var t := TargetsOf(p, l);
      (Lowest(l) <= t.stage2 <= t.sustained && t.sustained <= l.def) <==> Lowest(l) <= l.def
  {
  }

  // ---- the timer ----

  datatype Timer = Timer(state: State, highSince: Option<real>, lowSince: Option<real>,
                         stage2Since: real, recoverySince: real)

  const FRESH_TIMER: Timer := Timer(Normal, None, None, 0.0, 0.0)

  predicate RawHigh(p: Params, i: Input) {
    i.power.Some? && i.limits.cur > 0.0 && i.power.value >= i.limits.cur * p.highPct / 100.0
  }

  function LowSinceAt(t: Timer, now: real, raw: bool): Option<real> {
    if raw then None
    else if t.highSince.Some? && t.lowSince.None? then Some(now)
    else t.lowSince
  }

  /** High under the gap rule: a gap shorter than highGapS does not interrupt a counter that runs. */
  predicate High(p: Params, t: Timer, now: real, raw: bool) {
    raw || (t.highSince.Some? && now - LowSinceAt(t, now, raw).value < p.highGapS)
  }

  function Since(high: Option<real>, now: real): real {
    if high.Some? then high.value else now
  }

  function Timed(p: Params, t: Timer, now: real, raw: bool): Timer {
    var high, low := High(p, t, now, raw), LowSinceAt(t, now, raw);
    match t.state
    case Throttled =>
      if now - t.stage2Since >= p.recoveryS then Timer(Recovery, None, low, t.stage2Since, now)
      else t.(lowSince := low)
    case Recovery =>
      t.(state := if now - t.recoverySince >= RECOVERY_REPORT_S then Normal else Recovery,
         highSince := if high then Some(Since(t.highSince, now)) else t.highSince, lowSince := low)
    case _ =>
      if !high then t.(state := Normal, highSince := None, lowSince := None)
      else
        var since := Since(t.highSince, now);
        if now - since >= p.highS then Timer(Throttled, Some(since), low, now, t.recoverySince)
        else t.(state := if now - since >= p.highS / 2.0 then HighLoad else Normal, highSince := Some(since), lowSince := low)
  }

  // ---- the lever ----

  datatype Lever = Lever(lastApply: Option<real>, lastWant: real, lastSetW: real, conflicts: nat,
                         denied: string, deniedAt: real, externalWarned: bool)

  const FRESH_LEVER: Lever := Lever(None, 0.0, 0.0, 0, "", 0.0, false)

  /** What setLimit answers; NoLever is a nil setLimit. */
  datatype Outcome = NoLever | Refused(error: string) | Accepted

  function AbsR(x: real): real { if x < 0.0 then -x else x }

  predicate OwnValue(l: Lever, cur: real, t: Targets) {
    || (l.lastSetW > 0.0 && AbsR(cur - l.lastSetW) < 0.5)
    || AbsR(cur - t.stage2) < 0.5
    || AbsR(cur - t.sustained) < 0.5
  }

  function Want(state: State, t: Targets): real {
    if state.Throttled? then t.stage2 else t.sustained
  }

  predicate NeedSet(l: Lever, cur: real, want: real, t: Targets) {
    cur > want + 0.5 || (cur < want - 0.5 && OwnValue(l, cur, t))
  }

  predicate Due(p: Params, l: Lever, now: real, want: real) {
    l.lastApply.None? || now - l.lastApply.value >= p.reapplyS || l.lastWant != want
  }

  predicate Attempts(p: Params, l: Lever, now: real, cur: real, want: real, t: Targets) {
    NeedSet(l, cur, want, t) && Due(p, l, now, want)
  }

  const NO_LEVER: string := "kein Setz-Weg (NVML/nvidia-smi)"

  function Tried(l: Lever, now: real, cur: real, want: real, o: Outcome): Lever {
    var l1 := l.(lastApply := Some(now), lastWant := want);
    match o
    case NoLever => l1.(denied := NO_LEVER, deniedAt := now)
    case Refused(error) => l1.(denied := error, deniedAt := now)
    case Accepted =>
      var raised := l.lastSetW == want && cur > want + 0.5;
      l1.(conflicts := if raised then l.conflicts + 1 else 0,
          externalWarned := l.externalWarned || (raised && l.conflicts + 1 >= 3),
          denied := "", lastSetW := want)
  }

  function Levered(p: Params, l: Lever, now: real, cur: real, want: real, t: Targets, o: Outcome): Lever {
    if Attempts(p, l, now, cur, want, t) then Tried(l, now, cur, want, o)
    else if !NeedSet(l, cur, want, t) then
      l.(conflicts := 0, externalWarned := false,
         denied := if now - l.deniedAt >= p.reapplyS then "" else l.denied)
    else l
  }

  // ---- one measurement ----

  datatype Engine = Engine(timer: Timer, lever: Lever)

  const FRESH: Engine := Engine(FRESH_TIMER, FRESH_LEVER)

  function WantAt(p: Params, g: Engine, i: Input): real {
    Want(Timed(p, g.timer, i.now, RawHigh(p, i)).state, TargetsOf(p, i.limits))
  }

  /** The step calls setLimit. */
  predicate Sets(p: Params, g: Engine, i: Input) {
    Attempts(p, g.lever, i.now, i.limits.cur, WantAt(p, g, i), TargetsOf(p, i.limits))
  }

  function Stepped(p: Params, g: Engine, i: Input, o: Outcome): Engine {
    Engine(Timed(p, g.timer, i.now, RawHigh(p, i)),
           Levered(p, g.lever, i.now, i.limits.cur, WantAt(p, g, i), TargetsOf(p, i.limits), o))
  }

  /** The step reports the start of a high load with the power it has no reading of: the agent dereferences a nil pointer and
      crashes (agent/guard.go:272). */
  predicate ReadsMissingPower(p: Params, t: Timer, i: Input) {
    && i.power.None? && (t.state.Normal? || t.state.HighLoad?) && High(p, t, i.now, RawHigh(p, i))
    && var d := i.now - Since(t.highSince, i.now);
    d < p.highS && d >= p.highS / 2.0 && !t.state.HighLoad?
  }

  datatype Event = EvHighLoad | EvThrottled | EvRecovery | EvLimitSet(w: real) | EvRefused | EvExternal

  class GuardEngine {
    const p: Params
    var state: State
    var highSince: Option<real>
    var lowSince: Option<real>
    var stage2Since: real
    var recoverySince: real
    var lastApply: Option<real>
    var lastWant: real
    var lastSetW: real
    var conflicts: nat
    var denied: string
    var deniedAt: real
    var externalWarned: bool

    ghost function TimerView(): Timer
      reads this
    {
      Timer(state, highSince, lowSince, stage2Since, recoverySince)
    }

    ghost function LeverView(): Lever
      reads this
    {
      Lever(lastApply, lastWant, lastSetW, conflicts, denied, deniedAt, externalWarned)
    }

    ghost function View(): Engine
      reads this
    {
      Engine(TimerView(), LeverView())
    }

    constructor (p: Params)
      ensures View() == FRESH && this.p == p
    {
      this.p := p;
      state, highSince, lowSince, stage2Since, recoverySince := Normal, None, None, 0.0, 0.0;
      lastApply, lastWant, lastSetW, conflicts := None, 0.0, 0.0, 0;
      denied, deniedAt, externalWarned := "", 0.0, false;
    }

    method StepTimer(i: Input) returns (events: seq<Event>)
      requires !ReadsMissingPower(p, TimerView(), i)
      modifies `state, `highSince, `lowSince, `stage2Since, `recoverySince
      ensures TimerView() == Timed(p, old(TimerView()), i.now, RawHigh(p, i))
      ensures EvThrottled in events <==> state.Throttled? && !old(state).Throttled?
      ensures EvRecovery in events <==> state.Recovery? && old(state).Throttled?
      ensures EvHighLoad in events <==> state.HighLoad? && !old(state).HighLoad?
    {
      events := [];
      var high := i.power.Some? && i.limits.cur > 0.0 && i.power.value >= i.limits.cur * p.highPct / 100.0;
      if high {
        lowSince := None;
      } else if highSince.Some? {
        if lowSince.None? {
          lowSince := Some(i.now);
        }
        if i.now - lowSince.value < p.highGapS {
          high := true;
        }
      }
      match state
      case Throttled =>
        if i.now - stage2Since >= p.recoveryS {
          state, recoverySince, highSince := Recovery, i.now, None;
          events := [EvRecovery];
        }
      case Recovery =>
        if i.now - recoverySince >= RECOVERY_REPORT_S {
          state := Normal;
        }
        if high && highSince.None? {
          highSince := Some(i.now);
        }
      case _ =>
        if high {
          if highSince.None? {
            highSince := Some(i.now);
          }
          var d := i.now - highSince.value;
          if d >= p.highS {
            state, stage2Since := Throttled, i.now;
            events := [EvThrottled];
          } else if d >= p.highS / 2.0 {
            if state != HighLoad {
              assert i.power.Some?;
              events := [EvHighLoad];
            }
            state := HighLoad;
          } else {
            state := Normal;
          }
        } else {
          highSince, lowSince := None, None;
          state := Normal;
        }
    }

    /** The attempt to set `want`; `o` is what setLimit answers, `call` what it is called with. */
    method TryLimit(now: real, cur: real, want: real, o: Outcome) returns (call: Option<real>, events: seq<Event>)
      modifies `lastApply, `lastWant, `lastSetW, `conflicts, `denied, `deniedAt, `externalWarned
      ensures LeverView() == Tried(old(LeverView()), now, cur, want, o)
      ensures call == if o.NoLever? then None else Some(want)
      ensures EvExternal in events <==> externalWarned && !old(externalWarned)
      ensures EvRefused in events <==> o.Refused? && old(denied) == ""
      ensures EvLimitSet(want) in events <==> o.Accepted?
    {
      call, events := if o.NoLever? then None else Some(want), [];
      lastApply, lastWant := Some(now), want;
      match o
      case NoLever =>
        denied, deniedAt := NO_LEVER, now;
      case Refused(error) =>
        if denied == "" {
          events := [EvRefused];
        }
        denied, deniedAt := error, now;
      case Accepted =>
        if lastSetW == want && cur > want + 0.5 {
          conflicts := conflicts + 1;
          if conflicts >= 3 && !externalWarned {
            events := [EvExternal];
            externalWarned := true;
          }
        } else {
          conflicts := 0;
        }
        denied, lastSetW := "", want;
        events := events + [EvLimitSet(want)];
    }

    method StepLever(i: Input, t: Targets, o: Outcome) returns (call: Option<real>, events: seq<Event>)
      modifies `lastApply, `lastWant, `lastSetW, `conflicts, `denied, `deniedAt, `externalWarned
      ensures LeverView() == Levered(p, old(LeverView()), i.now, i.limits.cur, Want(state, t), t, o)
      ensures call == if Attempts(p, old(LeverView()), i.now, i.limits.cur, Want(state, t), t) && !o.NoLever?
                      then Some(Want(state, t)) else None
      ensures EvExternal in events <==> externalWarned && !old(externalWarned)
    {
      hide Tried;
      call, events := None, [];
      var want := t.sustained;
      if state == Throttled {
        want := t.stage2;
      }
      var cur := i.limits.cur;
      var ownValue := (lastSetW > 0.0 && AbsR(cur - lastSetW) < 0.5) || AbsR(cur - t.stage2) < 0.5 || AbsR(cur - t.sustained) < 0.5;
      var needSet := cur > want + 0.5 || (cur < want - 0.5 && ownValue);
      var due := lastApply.None? || i.now - lastApply.value >= p.reapplyS || lastWant != want;
      if needSet && due {
        call, events := TryLimit(i.now, cur, want, o);
      } else if !needSet {
        conflicts, externalWarned := 0, false;
        if denied != "" && i.now - deniedAt >= p.reapplyS {
          denied := "";
        }
      }
    }

    /** step with an enabled guard and readable limits. */
    method Step(i: Input, o: Outcome) returns (call: Option<real>, events: seq<Event>)
      requires i.limits.def > 0.0 && !ReadsMissingPower(p, View().timer, i)
      modifies this
      ensures View() == Stepped(p, old(View()), i, o)
      ensures call == if Sets(p, old(View()), i) && !o.NoLever? then Some(WantAt(p, old(View()), i)) else None
    {
      var t := TargetsOf(p, i.limits);
      hide Timed, Levered;
      var evs := StepTimer(i);
      call, events := StepLever(i, t, o);
      events := evs + events;
    }
  }
}
