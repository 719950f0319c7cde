/** The GPU hand-over of agent/upstream_hold.go, agent/supervisor.go and agent/ollamawatch.go as a step
    protocol: a large upstream server and a standby Ollama share one card, the router orders hold and release,
    and the supervisor loop, the pollers and tunnel requests interleave with every sub-step of `apply`.

    A child that passed the supervisor's held check but does not show as running yet is `Starting`:
    Supervisor.Hold reads `Running` only, so it takes such a child for stopped. */
module HandOver {
  import opened Common
  import opened OllamaWatch
  import opened WatchRuns

  datatype Phase = Stopped | Starting | Running
  datatype Child = Child(held: bool, phase: Phase)

  predicate Active(c: Child) { !c.phase.Stopped? }

  /** upstreamSwitch, with one flag per standby handle handed out: whether its end was reported. */
  datatype Switch = Switch(on: bool, inflight: int, finished: seq<bool>)

  function Unfinished(finished: seq<bool>): (n: nat)
    ensures n <= |finished|
  {
    if finished == [] then 0 else Unfinished(finished[..|finished| - 1]) + if finished[|finished| - 1] then 0 else 1
  }

  datatype Config = Config(standby: bool, base: string)

  /** Where `apply` is; the lock u.mu is held in every state but Idle. */
  datatype At =
    | Idle
    | HoldReported(now: int) | UpstreamStopping(now: int)
    | StandbyReleasing(now: int) | SwitchingOn(now: int) | FallbackSetting(now: int)
    | ReleaseAccepted(now: int)
    | Draining | SwitchingOff | StandbyMarking | StandbyStopping | GraceRenewing
    | UpstreamReleasing

  /** upstreamHold: its flags and the place in apply. */
  datatype Order = Order(held: bool, fbRunning: bool, blocked: Option<Blocked>, at: At)

  /** The two children of the supervisor. The history flags say that the last Hold of the child returned, and the
      protocol went on, while its process was active. */
  datatype Children = Children(up: Child, fb: Child, upMissed: bool, fbMissed: bool)

  datatype Sys = Sys(cfg: Config, kids: Children, sw: Switch, w: Watch, o: Order)

  datatype Who = Upstream | StandbyOllama

  datatype Event =
    // supervisor loop
    | PassCheck(who: Who) | Spawn(who: Who) | SpawnFails(who: Who) | Exit(who: Who)
    // apply(hold)
    | OrderHold(now: int) | MarkUpstream | UpstreamStopped | UpstreamTimeout
    | ReleaseStandby | SwitchOn | StartFallback
    // apply(release), with what ramBlock said
    | OrderRelease(now: int, verdict: Option<Blocked>) | ReportRelease | DrainEnds(drained: bool) | SwitchOff
    | MarkStandby | StandbyStopped | StandbyTimeout | RenewGrace(now: int) | ReleaseUpstream
    // sampler, pollers, tunnel
    | Sample(verdict: Option<Blocked>)
    | PollUpstream(now: int, needTags: bool, answer: Answer)
    | PollStandby(base: string, now: int, answer: Answer)
    | Acquire | Finish(handle: nat)

  function ChildOf(k: Children, who: Who): Child {
    if who.Upstream? then k.up else k.fb
  }

  predicate Enabled(s: Sys, e: Event) {
    match e
    case PassCheck(who) => ChildOf(s.kids, who).phase.Stopped? && !ChildOf(s.kids, who).held
    case Spawn(who) => ChildOf(s.kids, who).phase.Starting?
    case SpawnFails(who) => ChildOf(s.kids, who).phase.Starting?
    case Exit(who) => ChildOf(s.kids, who).phase.Running?
    case OrderHold(_) => s.o.at.Idle?
    case MarkUpstream => s.o.at.HoldReported?
    case UpstreamStopped => s.o.at.UpstreamStopping? && !s.kids.up.phase.Running?
    case UpstreamTimeout => s.o.at.UpstreamStopping?
    case ReleaseStandby => s.o.at.StandbyReleasing?
    case SwitchOn => s.o.at.SwitchingOn?
    case StartFallback => s.o.at.FallbackSetting?
    case OrderRelease(_, _) => s.o.at.Idle?
    case ReportRelease => s.o.at.ReleaseAccepted?
    case DrainEnds(drained) => s.o.at.Draining? && (drained ==> s.sw.inflight == 0)
    case SwitchOff => s.o.at.SwitchingOff?
    case MarkStandby => s.o.at.StandbyMarking?
    case StandbyStopped => s.o.at.StandbyStopping? && !s.kids.fb.phase.Running?
    case StandbyTimeout => s.o.at.StandbyStopping?
    case RenewGrace(_) => s.o.at.GraceRenewing?
    case ReleaseUpstream => s.o.at.UpstreamReleasing?
    case Sample(_) => s.o.at.Idle?
    case _ => true
  }

  /** What a step does to upstreamHold itself. */
  function OrderStep(cfg: Config, o: Order, e: Event): Order {
    match e
    case OrderHold(now) => if o.held then o else o.(at := HoldReported(now))
    case MarkUpstream => o.(at := UpstreamStopping(TimeOf(o.at)))
    case UpstreamStopped => o.(held := true, at := if cfg.standby then StandbyReleasing(TimeOf(o.at)) else Idle)
    case UpstreamTimeout => o.(held := true, at := Idle)
    case ReleaseStandby => o.(at := SwitchingOn(TimeOf(o.at)))
    case SwitchOn => o.(at := FallbackSetting(TimeOf(o.at)))
    case StartFallback => o.(fbRunning := true, at := Idle)
    case OrderRelease(now, verdict) =>
      if !o.held then o
      else if verdict.Some? then o.(blocked := verdict)
      else o.(blocked := None, at := ReleaseAccepted(now))
    case ReportRelease => o.(at := if o.fbRunning then Draining else UpstreamReleasing)
    case DrainEnds(_) => o.(at := SwitchingOff)
    case SwitchOff => o.(at := StandbyMarking)
    case MarkStandby => o.(at := StandbyStopping)
    case StandbyStopped => o.(fbRunning := false, at := GraceRenewing)
    case StandbyTimeout => o.(fbRunning := false, at := GraceRenewing)
    case RenewGrace(_) => o.(at := UpstreamReleasing)
    case ReleaseUpstream => o.(held := false, at := Idle)
    case Sample(verdict) => if o.held && verdict.None? then o.(blocked := None) else o
    case _ => o
  }

  function TimeOf(at: At): int {
    match at
    case HoldReported(now) => now
    case UpstreamStopping(now) => now
    case StandbyReleasing(now) => now
    case SwitchingOn(now) => now
    case FallbackSetting(now) => now
    case ReleaseAccepted(now) => now
    case _ => 0
  }

  /** A child that stopped is no longer missed. */
  function WithPhase(k: Children, who: Who, p: Phase): Children {
    if who.Upstream? then k.(up := k.up.(phase := p), upMissed := k.upMissed && p != Stopped)
    else k.(fb := k.fb.(phase := p), fbMissed := k.fbMissed && p != Stopped)
  }

  /** What a step does to the children. */
  function ChildrenStep(cfg: Config, k: Children, e: Event): Children {
    match e
    case PassCheck(who) => WithPhase(k, who, Phase.Starting)
    case Spawn(who) => WithPhase(k, who, Running)
    case SpawnFails(who) => WithPhase(k, who, Stopped)
    case Exit(who) => WithPhase(k, who, Stopped)
    case MarkUpstream => k.(up := k.up.(held := true))
    case UpstreamStopped => k.(upMissed := cfg.standby && Active(k.up))
    case ReleaseStandby => k.(fb := k.fb.(held := false), fbMissed := false)
    case MarkStandby => k.(fb := k.fb.(held := true))
    case StandbyStopped => k.(fbMissed := Active(k.fb))
    case StandbyTimeout => k.(fbMissed := Active(k.fb))
    case ReleaseUpstream => k.(up := k.up.(held := false), upMissed := false)
    case _ => k
  }

  function AfterAcquire(sw: Switch): Switch {
    if sw.on then sw.(inflight := sw.inflight + 1, finished := sw.finished + [false]) else sw
  }

  function AfterFinish(sw: Switch, handle: nat): Switch {
    if handle < |sw.finished| && !sw.finished[handle] then
      sw.(inflight := sw.inflight - 1, finished := sw.finished[handle := true])
    else sw
  }

  /** What a step does to the switch. */
  function SwitchStep(sw: Switch, e: Event): Switch {
    match e
    case SwitchOn => sw.(on := true)
    case SwitchOff => sw.(on := false)
    case Acquire => AfterAcquire(sw)
    case Finish(handle) => AfterFinish(sw, handle)
    case _ => sw
  }

  /** The call of the watcher a step makes. */
  function WatchCall(cfg: Config, o: Order, e: Event): Option<Call> {
    match e
    case OrderHold(now) => if o.held then None else Some(SetHeld(true, now))
    case StartFallback => Some(SetFallback(cfg.base, TimeOf(o.at)))
    case OrderRelease(_, verdict) => if o.held && (verdict.Some? || o.blocked.Some?) then Some(SetBlocked(verdict)) else None
    case ReportRelease => Some(SetHeld(false, TimeOf(o.at)))
    case RenewGrace(now) => Some(SetHeld(false, now))
    case Sample(verdict) => if o.held && o.blocked.Some? && verdict.None? then Some(SetBlocked(None)) else None
    case PollUpstream(now, needTags, a) => Some(Poll(now, needTags, a))
    case PollStandby(base, now, a) => Some(StandbyPoll(base, now, a))
    case _ => None
  }

  function WatchStep(w: Watch, c: Option<Call>): Watch {
    if c.Some? then After(w, c.value) else w
  }

  function Step(s: Sys, e: Event): Sys
    requires Enabled(s, e)
  {
    Sys(s.cfg, ChildrenStep(s.cfg, s.kids, e), SwitchStep(s.sw, e), WatchStep(s.w, WatchCall(s.cfg, s.o, e)),
        OrderStep(s.cfg, s.o, e))
  }

  // ---- starts ----

  /** The agent starts; the standby is parked (agent/app.go:74). */
  function Start(cfg: Config, openAI: bool, now: int): Sys {
    Sys(cfg, Children(Child(false, Stopped), Child(true, Stopped), false, false), Switch(false, 0, []),
        FreshWatch(openAI, now), Order(false, false, None, Idle))
  }

  /** startHeld with remembered models, before the supervisor runs. */
  function StartUpstreamHeld(cfg: Config, openAI: bool, now: int, tags: seq<Entry>): Sys {
    Sys(cfg, Children(Child(true, Stopped), Child(false, Stopped), false, false), Switch(true, 0, []),
        AfterSetFallback(AfterStartHeld(FreshWatch(openAI, now), tags), cfg.base, now),
        Order(true, true, None, Idle))
  }

  ghost predicate IsStart(s: Sys) {
    || (exists openAI, now :: s == Start(s.cfg, openAI, now))
    || (s.cfg.standby && exists openAI, now, tags :: s == StartUpstreamHeld(s.cfg, openAI, now, tags))
  }

  // ---- the invariant ----

  predicate Holding(at: At) { at.HoldReported? || at.UpstreamStopping? }
  predicate StandbyUnheld(at: At) { at.SwitchingOn? || at.FallbackSetting? }
  predicate StartingStandby(at: At) { at.StandbyReleasing? || StandbyUnheld(at) }
  predicate StoppingStandby(at: At) {
    at.Draining? || at.SwitchingOff? || at.StandbyMarking? || at.StandbyStopping?
  }
  predicate ReleaseReported(at: At) { StoppingStandby(at) || at.GraceRenewing? || at.UpstreamReleasing? }

  /** The flags of upstreamHold against the place in apply. */
  predicate OrderInv(cfg: Config, o: Order) {
    && (Holding(o.at) ==> !o.held)
    && (StartingStandby(o.at) || o.at.ReleaseAccepted? || ReleaseReported(o.at) ==> o.held)
    && (StartingStandby(o.at) ==> cfg.standby && !o.fbRunning)
    && (StoppingStandby(o.at) ==> o.fbRunning)
    && (o.at.GraceRenewing? || o.at.UpstreamReleasing? || !o.held ==> !o.fbRunning)
    && (o.fbRunning ==> cfg.standby)
    && (o.blocked.Some? ==> o.held && !ReleaseReported(o.at) && !o.at.ReleaseAccepted?)
  }

  /** Who may run. */
  predicate ChildrenInv(k: Children, o: Order) {
    && (k.up.held <==> o.at.UpstreamStopping? || o.held)
    && (!k.fb.held <==> StandbyUnheld(o.at) || (o.fbRunning && !o.at.StandbyStopping?))
    && ((o.fbRunning || StartingStandby(o.at)) && Active(k.up) ==> k.upMissed)
    && (!o.fbRunning && !StandbyUnheld(o.at) && Active(k.fb) ==> k.fbMissed)
    && (k.upMissed ==> Active(k.up) && k.up.held)
    && (k.fbMissed ==> Active(k.fb) && k.fb.held)
  }

  /** Where requests go. */
  predicate SwitchInv(sw: Switch, o: Order) {
    && (sw.on <==> o.at.FallbackSetting? || (o.fbRunning && !o.at.StandbyMarking? && !o.at.StandbyStopping?))
    && sw.inflight == Unfinished(sw.finished)
  }

  /** What is reported. */
  ghost predicate ReportInv(w: Watch, o: Order) {
    && (w.held <==> Holding(o.at) || (o.held && !ReleaseReported(o.at)))
    && (w.standby.on <==> o.fbRunning && !ReleaseReported(o.at))
    && w.st.blocked == o.blocked
    && WatchRuns.Inv(w)
  }

  ghost predicate SysInv(s: Sys) {
    OrderInv(s.cfg, s.o) && ChildrenInv(s.kids, s.o) && SwitchInv(s.sw, s.o) && ReportInv(s.w, s.o)
  }

  lemma StartInv(s: Sys)
    requires IsStart(s)
    ensures SysInv(s)
  {
  }

  lemma StepKeepsOrder(s: Sys, e: Event)
    requires OrderInv(s.cfg, s.o) && Enabled(s, e)
    ensures OrderInv(s.cfg, OrderStep(s.cfg, s.o, e))
  {
  }

  lemma StepKeepsChildren(s: Sys, e: Event)
    requires OrderInv(s.cfg, s.o) && ChildrenInv(s.kids, s.o) && Enabled(s, e)
    ensures ChildrenInv(ChildrenStep(s.cfg, s.kids, e), OrderStep(s.cfg, s.o, e))
  {
  }

  lemma UnfinishedAfter(finished: seq<bool>, handle: nat)
    requires handle < |finished| && !finished[handle]
    ensures Unfinished(finished[handle := true]) == Unfinished(finished) - 1
  {
    var last := |finished| - 1;
    if handle < last {
      assert finished[handle := true][..last] == finished[..last][handle := true];
      UnfinishedAfter(finished[..last], handle);
    } else {
      assert finished[handle := true][..last] == finished[..last];
    }
  }

  lemma StepKeepsSwitch(s: Sys, e: Event)
    requires OrderInv(s.cfg, s.o) && SwitchInv(s.sw, s.o) && Enabled(s, e)
    ensures SwitchInv(SwitchStep(s.sw, e), OrderStep(s.cfg, s.o, e))
  {
    match e
    case Acquire =>
      assert (s.sw.finished + [false])[..|s.sw.finished|] == s.sw.finished;
    case Finish(handle) =>
      if handle < |s.sw.finished| && !s.sw.finished[handle] {
        UnfinishedAfter(s.sw.finished, handle);
      }
    case _ =>
  }

  /** How a call moves what the protocol relies on. */
  lemma CallEffect(w: Watch, c: Call)
    requires WatchRuns.Inv(w) && Allowed(w, c) && !c.StartHeld?
    ensures WatchRuns.Inv(After(w, c))
    ensures After(w, c).held == if c.SetHeld? then c.hold else w.held
    ensures After(w, c).standby.on == if c.SetHeld? && !c.hold then false else c.SetFallback? || w.standby.on
    ensures After(w, c).st.blocked == if c.SetBlocked? then c.b else w.st.blocked
  {
    WatchRuns.StepKeepsInv(w, c);
  }

  lemma StepKeepsReport(s: Sys, e: Event)
    requires OrderInv(s.cfg, s.o) && ReportInv(s.w, s.o) && Enabled(s, e)
    ensures ReportInv(WatchStep(s.w, WatchCall(s.cfg, s.o, e)), OrderStep(s.cfg, s.o, e))
  {
    var c := WatchCall(s.cfg, s.o, e);
    if c.Some? {
      CallEffect(s.w, c.value);
    }
  }

  lemma StepKeepsInv(s: Sys, e: Event)
    requires SysInv(s) && Enabled(s, e)
    ensures SysInv(Step(s, e))
  {
    StepKeepsOrder(s, e);
    StepKeepsChildren(s, e);
    StepKeepsSwitch(s, e);
    StepKeepsReport(s, e);
  }
}
