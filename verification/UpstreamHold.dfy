/** The objects of the hand-over: the supervisor's child entries, upstreamSwitch and upstreamHold. `Apply` is proved
    against the protocol steps of HandOver for every behaviour of the other goroutines in between. */
module UpstreamHolds {
  import opened Common
  import opened OllamaWatch
  import opened WatchRuns
  import opened HandOver
  import opened RamCheck

  // ---- what the others do between two sections of apply ----

  predicate ByOthers(e: Event) {
    || e.PassCheck? || e.Spawn? || e.SpawnFails? || e.Exit?
    || e.PollUpstream? || e.PollStandby? || e.Acquire? || e.Finish?
  }

  /** A step that cannot be taken is not taken. */
  function Then(s: Sys, e: Event): Sys {
    if Enabled(s, e) then Step(s, e) else s
  }

  function Others(s: Sys, es: seq<Event>): Sys
    decreases |es|
  {
    if es == [] then s
    else Others(if ByOthers(es[0]) then Then(s, es[0]) else s, es[1..])
  }

  /** What the others do in each gap of one order. */
  type Gaps = nat -> seq<Event>

  /** One section of apply and what the others do after it. */
  function Section(s: Sys, e: Event, gap: seq<Event>): Sys { Others(Then(s, e), gap) }

  function StartedFallback(s: Sys, gaps: Gaps): Sys {
    var s1 := Section(s, ReleaseStandby, gaps(3));
    var s2 := Section(s1, SwitchOn, gaps(4));
    Then(s2, StartFallback)
  }

  function AppliedHold(s: Sys, now: int, gaps: Gaps): Sys {
    if s.o.held then s
    else
      var s1 := Section(s, OrderHold(now), gaps(0));
      var s2 := Section(s1, MarkUpstream, gaps(1));
      if s2.kids.up.phase.Running? then Then(s2, UpstreamTimeout)
      else
        var s3 := Section(s2, UpstreamStopped, gaps(2));
        if s.cfg.standby then StartedFallback(s3, gaps) else s3
  }

  /** After marking the upstream and waiting for it, a hold order sees it not running. */
  predicate SeesStopped(s: Sys, now: int, gaps: Gaps) {
    !Section(Section(s, OrderHold(now), gaps(0)), MarkUpstream, gaps(1)).kids.up.phase.Running?
  }

  function StoppedFallback(s: Sys, renewed: int, gaps: Gaps): Sys {
    var s1 := Section(s, DrainEnds(s.sw.inflight == 0), gaps(2));
    var s2 := Section(s1, SwitchOff, gaps(3));
    var s3 := Section(s2, MarkStandby, gaps(4));
    var s4 := Section(s3, if s3.kids.fb.phase.Running? then StandbyTimeout else StandbyStopped, gaps(5));
    Section(s4, RenewGrace(renewed), gaps(6))
  }

  function AppliedRelease(s: Sys, now: int, renewed: int, verdict: Option<Blocked>, gaps: Gaps): Sys {
    if !s.o.held || verdict.Some? then Then(s, OrderRelease(now, verdict))
    else
      var s1 := Section(s, OrderRelease(now, verdict), gaps(0));
      var s2 := Section(s1, ReportRelease, gaps(1));
      var s3 := if s.o.fbRunning then StoppedFallback(s2, renewed, gaps) else s2;
      Then(s3, ReleaseUpstream)
  }

  /** The others leave upstreamHold, the held marks, the switch position and the configuration alone. */
  lemma {:induction false} OthersRespect(s: Sys, es: seq<Event>)
    ensures var s' := Others(s, es);
      && s'.cfg == s.cfg && s'.o == s.o && s'.sw.on == s.sw.on
      && s'.kids.up.held == s.kids.up.held && s'.kids.fb.held == s.kids.fb.held
    decreases |es|
  {
    if es != [] {
      OthersRespect(if ByOthers(es[0]) then Then(s, es[0]) else s, es[1..]);
    }
  }

  lemma {:induction false} OthersKeepInv(s: Sys, es: seq<Event>)
    requires SysInv(s)
    ensures SysInv(Others(s, es))
    decreases |es|
  {
    if es != [] {
      var s1 := if ByOthers(es[0]) then Then(s, es[0]) else s;
      ThenKeepsInv(s, es[0]);
      OthersKeepInv(s1, es[1..]);
    }
  }

  lemma ThenKeepsInv(s: Sys, e: Event)
    requires SysInv(s)
    ensures SysInv(Then(s, e))
  {
    if Enabled(s, e) {
      HandOver.StepKeepsInv(s, e);
    }
  }

  /** A section moves the order along and nothing the others do can move it elsewhere. */
  lemma SectionMoves(s: Sys, e: Event, gap: seq<Event>)
    requires SysInv(s) && Enabled(s, e)
    ensures var s' := Section(s, e, gap);
      && SysInv(s') && s'.cfg == s.cfg && s'.o == OrderStep(s.cfg, s.o, e)
  {
    ThenKeepsInv(s, e);
    OthersKeepInv(Then(s, e), gap);
    OthersRespect(Then(s, e), gap);
  }

  /** Whatever the others do meanwhile, a hold order ends with the upstream held and the invariant kept; the standby
      was released, started and switched to exactly if there is one and the upstream was seen stopped. A repeated order
      changes nothing. */
  lemma HoldOrderEnds(s: Sys, now: int, gaps: Gaps)
    requires SysInv(s) && s.o.at.Idle?
    ensures var s' := AppliedHold(s, now, gaps);
      && SysInv(s') && s'.cfg == s.cfg && s'.o.at.Idle? && s'.o.held
      && s'.o.fbRunning == s'.sw.on == !s'.kids.fb.held
      && (if s.o.held then s' == s else (s'.o.fbRunning <==> s.cfg.standby && SeesStopped(s, now, gaps)))
  {
    if !s.o.held {
      SectionMoves(s, OrderHold(now), gaps(0));
      var s1 := Section(s, OrderHold(now), gaps(0));
      SectionMoves(s1, MarkUpstream, gaps(1));
      var s2 := Section(s1, MarkUpstream, gaps(1));
      hide Others;
      if s2.kids.up.phase.Running? {
        ThenKeepsInv(s2, UpstreamTimeout);
      } else {
        SectionMoves(s2, UpstreamStopped, gaps(2));
        if s.cfg.standby {
          StandbyStartEnds(Section(s2, UpstreamStopped, gaps(2)), gaps);
        }
      }
    }
  }

  lemma StandbyStartEnds(s: Sys, gaps: Gaps)
    requires SysInv(s) && s.o.at.StandbyReleasing?
    ensures var s' := StartedFallback(s, gaps);
      SysInv(s') && s'.cfg == s.cfg && s'.o.at.Idle? && s'.o.held && s'.o.fbRunning
  {
    SectionMoves(s, ReleaseStandby, gaps(3));
    var s1 := Section(s, ReleaseStandby, gaps(3));
    SectionMoves(s1, SwitchOn, gaps(4));
    var s2 := Section(s1, SwitchOn, gaps(4));
    ThenKeepsInv(s2, HandOver.StartFallback);
  }

  lemma StandbyStopEnds(s: Sys, renewed: int, gaps: Gaps)
    requires SysInv(s) && s.o.at.Draining?
    ensures var s' := StoppedFallback(s, renewed, gaps);
      SysInv(s') && s'.cfg == s.cfg && s'.o.at.UpstreamReleasing?
  {
    hide Section, HandOver.SysInv;
    var drain := DrainEnds(s.sw.inflight == 0);
    SectionMoves(s, drain, gaps(2));
    var s1 := Section(s, drain, gaps(2));
    SectionMoves(s1, SwitchOff, gaps(3));
    var s2 := Section(s1, SwitchOff, gaps(3));
    SectionMoves(s2, MarkStandby, gaps(4));
    var s3 := Section(s2, MarkStandby, gaps(4));
    var e := if s3.kids.fb.phase.Running? then StandbyTimeout else StandbyStopped;
    SectionMoves(s3, e, gaps(5));
    var s4 := Section(s3, e, gaps(5));
    SectionMoves(s4, RenewGrace(renewed), gaps(6));
  }

  /** A release order ends with the upstream released, the standby held again and no request going to it - or, when
      the RAM check speaks against it, with nothing changed but the reported reason. */
  lemma ReleaseOrderEnds(s: Sys, now: int, renewed: int, verdict: Option<Blocked>, gaps: Gaps)
    requires SysInv(s) && s.o.at.Idle?
    ensures var s' := AppliedRelease(s, now, renewed, verdict, gaps);
      && SysInv(s') && s'.o.at.Idle?
      && (s'.o.held <==> s.o.held && verdict.Some?)
      && (!s'.o.held ==> !s'.kids.up.held && s'.kids.fb.held && !s'.sw.on && s'.o.blocked.None?)
      && (s'.o.held ==> s'.kids == s.kids && s'.sw == s.sw && s'.o == s.o.(blocked := verdict))
  {
    if !s.o.held || verdict.Some? {
      ReleaseRefused(s, now, verdict);
    } else {
      hide SysInv, Section, StoppedFallback, Then;
      var e := OrderRelease(now, verdict);
      IdleAccepts(s, now, verdict);
      SectionMoves(s, e, gaps(0));
      var s1 := Section(s, e, gaps(0));
      SectionMoves(s1, ReportRelease, gaps(1));
      var s2 := Section(s1, ReportRelease, gaps(1));
      if s.o.fbRunning {
        StandbyStopEnds(s2, renewed, gaps);
      }
      UpstreamReleased(if s.o.fbRunning then StoppedFallback(s2, renewed, gaps) else s2);
    }
  }

  /** A release succeeds exactly if there is nothing to check or enough RAM would stay free; a refused one records what was found. */
  lemma ReleaseNeedsRoom(s: Sys, now: int, renewed: int, maxPercent: int, needBytes: nat, mem: Option<Memory>, gaps: Gaps)
    requires SysInv(s) && s.o.at.Idle? && s.o.held
    ensures var s' := AppliedRelease(s, now, renewed, RamBlock(maxPercent, needBytes, mem), gaps);
      && (s'.o.held <==> Checkable(maxPercent, needBytes, mem) && !LeavesFree(maxPercent, needBytes, mem.value))
      && (s'.o.held ==> s'.o.blocked.Some? && Tells(s'.o.blocked.value, maxPercent, needBytes, mem.value))
  {
    hide AppliedRelease, RamBlock, SysInv, LeavesFree, Tells;
    RefusedIff(maxPercent, needBytes, mem);
    ReleaseOrderEnds(s, now, renewed, RamBlock(maxPercent, needBytes, mem), gaps);
  }

  lemma IdleAccepts(s: Sys, now: int, verdict: Option<Blocked>)
    requires s.o.at.Idle?
    ensures Enabled(s, OrderRelease(now, verdict))
  {
  }

  lemma ReleaseRefused(s: Sys, now: int, verdict: Option<Blocked>)
    requires SysInv(s) && s.o.at.Idle? && (!s.o.held || verdict.Some?)
    ensures var s' := Then(s, OrderRelease(now, verdict));
      && SysInv(s') && s'.o.at.Idle?
      && (s'.o.held <==> s.o.held)
      && (!s'.o.held ==> !s'.kids.up.held && s'.kids.fb.held && !s'.sw.on && s'.o.blocked.None?)
      && (s'.o.held ==> s'.kids == s.kids && s'.sw == s.sw && s'.o == s.o.(blocked := verdict))
  {
    ThenKeepsInv(s, OrderRelease(now, verdict));
    hide ReportInv;
  }

  lemma UpstreamReleased(s: Sys)
    requires SysInv(s) && s.o.at.UpstreamReleasing?
    ensures var s' := Then(s, ReleaseUpstream);
      && SysInv(s') && s'.o.at.Idle? && !s'.o.held
      && !s'.kids.up.held && s'.kids.fb.held && !s'.sw.on && s'.o.blocked.None?
  {
    ThenKeepsInv(s, ReleaseUpstream);
    hide ReportInv;
  }

  // ---- the objects ----

  class Supervisor {
    var up: Child
    var fb: Child
    ghost var upMissed: bool
    ghost var fbMissed: bool

    ghost function View(): Children
      reads this
    {
      Children(up, fb, upMissed, fbMissed)
    }

    constructor (upParked: bool)
      ensures View() == Children(Child(upParked, Stopped), Child(true, Stopped), false, false)
    {
      up, fb := Child(upParked, Stopped), Child(true, Stopped);
      upMissed, fbMissed := false, false;
    }

    /** The loop moves a child to another phase. */
    method SetPhase(who: Who, p: Phase)
      modifies this
      ensures View() == WithPhase(old(View()), who, p)
    {
      if who.Upstream? {
        up := up.(phase := p);
        upMissed := upMissed && p != Stopped;
      } else {
        fb := fb.(phase := p);
        fbMissed := fbMissed && p != Stopped;
      }
    }

    /** waitWhileHeld lets the loop pass. */
    method MayStart(who: Who) returns (yes: bool)
      ensures yes <==> ChildOf(View(), who) == Child(false, Stopped)
    {
      var c := if who.Upstream? then up else fb;
      return !c.held && c.phase == Stopped;
    }

    method Phase(who: Who) returns (p: Phase)
      ensures p == ChildOf(View(), who).phase
    {
      return if who.Upstream? then up.phase else fb.phase;
    }

    method SetHeldMark(who: Who, held: bool)
      modifies this`up, this`fb
      ensures up == if who.Upstream? then old(up).(held := held) else old(up)
      ensures fb == if who.Upstream? then old(fb) else old(fb).(held := held)
    {
      if who.Upstream? {
        up := up.(held := held);
      } else {
        fb := fb.(held := held);
      }
    }
  }

  class UpstreamSwitch {
    var on: bool
    var inflight: int
    var finished: seq<bool>   // the sync.Once of each handle

    ghost function View(): Switch
      reads this
    {
      Switch(on, inflight, finished)
    }

    constructor ()
      ensures View() == Switch(false, 0, [])
    {
      on, inflight, finished := false, 0, [];
    }

    /** None: the request goes to the upstream and needs no end. */
    method Acquire() returns (handle: Option<nat>)
      modifies this
      ensures View() == AfterAcquire(old(View()))
      ensures handle == if old(on) then Some(|old(finished)|) else None
    {
      if !on {
        return None;
      }
      inflight := inflight + 1;
      finished := finished + [false];
      return Some(|finished| - 1);
    }

    /** The function Acquire handed out, called any number of times. */
    method Finish(handle: nat)
      modifies this
      ensures View() == AfterFinish(old(View()), handle)
    {
      if handle < |finished| && !finished[handle] {
        finished := finished[handle := true];
        inflight := inflight - 1;
      }
    }

    method Set(yes: bool)
      modifies this`on
      ensures on == yes
    {
      on := yes;
    }
  }

  class UpstreamHold {
    const cfg: Config
    const maxPercent: int
    const sup: Supervisor
    const sw: UpstreamSwitch
    const watch: OllamaWatcher
    var needBytes: nat
    var held: bool
    var fbRunning: bool
    var blocked: Option<Blocked>
    ghost var at: At

    ghost function View(): Sys
      reads this, sup, sw, watch
    {
      Sys(cfg, sup.View(), sw.View(), watch.View(), Order(held, fbRunning, blocked, at))
    }

    constructor (cfg: Config, maxPercent: int, needBytes: nat, sup: Supervisor, sw: UpstreamSwitch, watch: OllamaWatcher)
      ensures View() == Sys(cfg, sup.View(), sw.View(), watch.View(), Order(false, false, None, Idle))
      ensures this.sup == sup && this.sw == sw && this.watch == watch && this.maxPercent == maxPercent
    {
      this.cfg, this.maxPercent, this.needBytes := cfg, maxPercent, needBytes;
      this.sup, this.sw, this.watch := sup, sw, watch;
      held, fbRunning, blocked, at := false, false, None, Idle;
    }

    /** One step of the supervisor loop. */
    method LetSupervisor(e: Event)
      requires e.PassCheck? || e.Spawn? || e.SpawnFails? || e.Exit?
      modifies sup
      ensures View() == Then(old(View()), e)
    {
      match e
      case PassCheck(who) =>
        var yes := sup.MayStart(who);
        if yes {
          sup.SetPhase(who, Phase.Starting);
        }
      case Spawn(who) =>
        var p := sup.Phase(who);
        if p == Phase.Starting {
          sup.SetPhase(who, Running);
        }
      case SpawnFails(who) =>
        var p := sup.Phase(who);
        if p == Phase.Starting {
          sup.SetPhase(who, Stopped);
        }
      case Exit(who) =>
        var p := sup.Phase(who);
        if p == Running {
          sup.SetPhase(who, Stopped);
        }
    }

    /** One step of a poller or of a tunnel request. */
    method LetPollOrRequest(e: Event)
      requires e.PollUpstream? || e.PollStandby? || e.Acquire? || e.Finish?
      modifies sw, watch
      ensures View() == Then(old(View()), e)
    {
      if e.PollUpstream? || e.PollStandby? {
        LetPoll(e);
      } else {
        LetRequest(e);
      }
    }

    method LetPoll(e: Event)
      requires e.PollUpstream? || e.PollStandby?
      modifies watch
      ensures View() == Then(old(View()), e)
    {
      hide AfterPoll, AfterStandbyPoll;
      match e
      case PollUpstream(now, needTags, a) => watch.PollCommit(now, needTags, a);
      case PollStandby(base, now, a) => watch.StandbyCommit(base, now, a);
    }

    method LetRequest(e: Event)
      requires e.Acquire? || e.Finish?
      modifies sw
      ensures View() == Then(old(View()), e)
    {
      match e
      case Acquire => var _ := sw.Acquire();
      case Finish(handle) => sw.Finish(handle);
    }

    /** The other goroutines run. */
    method LetOthers(es: seq<Event>)
      modifies sup, sw, watch
      ensures View() == Others(old(View()), es)
      decreases |es|
    {
      hide Then;
      if |es| > 0 {
        var e := es[0];
        if e.PassCheck? || e.Spawn? || e.SpawnFails? || e.Exit? {
          LetSupervisor(e);
        } else if ByOthers(e) {
          LetPollOrRequest(e);
        }
        LetOthers(es[1..]);
      }
    }

    /** Before the supervisor runs. */
    method StartHeld(tags: seq<Entry>, now: int)
      requires View() == Start(cfg, watch.openAI, now) && cfg.standby
      modifies this, sup, sw, watch
      ensures View() == StartUpstreamHeld(cfg, watch.openAI, now, tags)
    {
      sup.SetHeldMark(Upstream, true);
      held := true;
      watch.StartHeld(tags);
      sup.SetHeldMark(StandbyOllama, false);
      sw.Set(true);
      watch.SetFallback(cfg.base, now);
      fbRunning := true;
    }

    // One method for each section of apply, with what the others do after it.

    method ReleaseStandbySection(now: int, gap: seq<Event>)
      requires at == StandbyReleasing(now)
      modifies this`at, sup, sw, watch
      ensures View() == Section(old(View()), ReleaseStandby, gap) && at == SwitchingOn(now)
    {
      sup.SetHeldMark(StandbyOllama, false);
      sup.fbMissed, at := false, SwitchingOn(now);
      assert View() == Then(old(View()), ReleaseStandby);
      LetOthers(gap);
    }

    method SwitchOnSection(now: int, gap: seq<Event>)
      requires at == SwitchingOn(now)
      modifies this`at, sup, sw, watch
      ensures View() == Section(old(View()), SwitchOn, gap) && at == FallbackSetting(now)
    {
      sw.Set(true);
      at := FallbackSetting(now);
      assert View() == Then(old(View()), SwitchOn);
      LetOthers(gap);
    }

    method SetFallbackSection(now: int)
      requires at == FallbackSetting(now)
      modifies this, watch
      ensures View() == Then(old(View()), HandOver.StartFallback)
    {
      watch.SetFallback(cfg.base, now);
      fbRunning, at := true, Idle;
    }

    method StartFallback(now: int, gaps: Gaps)
      requires at == StandbyReleasing(now)
      modifies this, sup, sw, watch
      ensures View() == StartedFallback(old(View()), gaps)
    {
      hide Then, Section;
      ReleaseStandbySection(now, gaps(3));
      SwitchOnSection(now, gaps(4));
      SetFallbackSection(now);
    }

    method OrderHoldSection(now: int, gap: seq<Event>)
      requires at == Idle && !held
      modifies this`at, sup, sw, watch
      ensures View() == Section(old(View()), OrderHold(now), gap) && at == HoldReported(now)
    {
      watch.SetHeld(true, now);
      at := HoldReported(now);
      assert View() == Then(old(View()), OrderHold(now));
      LetOthers(gap);
    }

    /** Supervisor.Hold: marks the child held and kills it; the exit is one of the others' steps. The result is what
        the last look at `Running` shows. */
    method HoldUpstream(now: int, gap: seq<Event>) returns (stopped: bool)
      requires at == HoldReported(now)
      modifies this`at, sup, sw, watch
      ensures View() == Section(old(View()), MarkUpstream, gap) && at == UpstreamStopping(now)
      ensures stopped <==> !View().kids.up.phase.Running?
    {
      sup.SetHeldMark(Upstream, true);
      at := UpstreamStopping(now);
      assert View() == Then(old(View()), MarkUpstream);
      LetOthers(gap);
      var p := sup.Phase(Upstream);
      return p != Running;
    }

    method HoldStandby(gap: seq<Event>) returns (stopped: bool)
      requires at == StandbyMarking
      modifies this`at, sup, sw, watch
      ensures View() == Section(old(View()), MarkStandby, gap) && at == StandbyStopping
      ensures stopped <==> !View().kids.fb.phase.Running?
    {
      sup.SetHeldMark(StandbyOllama, true);
      at := StandbyStopping;
      assert View() == Then(old(View()), MarkStandby);
      LetOthers(gap);
      var p := sup.Phase(StandbyOllama);
      return p != Running;
    }

    method UpstreamHeldSection(stopped: bool, now: int, gap: seq<Event>)
      requires at == UpstreamStopping(now) && stopped == !View().kids.up.phase.Running?
      modifies this, sup, sw, watch
      ensures View() == if stopped then Section(old(View()), UpstreamStopped, gap) else Then(old(View()), UpstreamTimeout)
      ensures stopped && cfg.standby ==> at == StandbyReleasing(now)
    {
      held := true;
      if !stopped {
        at := Idle;
        return;
      }
      at := if cfg.standby then StandbyReleasing(now) else Idle;
      sup.upMissed := cfg.standby && Active(sup.up);
      assert View() == Then(old(View()), UpstreamStopped);
      LetOthers(gap);
    }

    /** apply(true, now). */
    method ApplyHold(now: int, gaps: Gaps)
      requires at == Idle
      modifies this, sup, sw, watch
      ensures View() == AppliedHold(old(View()), now, gaps)
    {
      hide Then, Section;
      if held {
        return;
      }
      OrderHoldSection(now, gaps(0));
      var stopped := HoldUpstream(now, gaps(1));
      UpstreamHeldSection(stopped, now, gaps(2));
      if stopped && cfg.standby {
        StartFallback(now, gaps);
      }
    }

    /** drain returned, because no standby request was left or because it waited long enough. */
    method DrainSection(gap: seq<Event>)
      requires at == Draining
      modifies this`at, sup, sw, watch
      ensures View() == Section(old(View()), DrainEnds(old(View()).sw.inflight == 0), gap) && at == SwitchingOff
    {
      at := SwitchingOff;
      assert View() == Then(old(View()), DrainEnds(old(View()).sw.inflight == 0));
      LetOthers(gap);
    }

    method SwitchOffSection(gap: seq<Event>)
      requires at == SwitchingOff
      modifies this`at, sup, sw, watch
      ensures View() == Section(old(View()), SwitchOff, gap) && at == StandbyMarking
    {
      sw.Set(false);
      at := StandbyMarking;
      assert View() == Then(old(View()), SwitchOff);
      LetOthers(gap);
    }

    method StandbyHeldSection(stopped: bool, gap: seq<Event>)
      requires at == StandbyStopping && stopped == !View().kids.fb.phase.Running?
      modifies this`at, this`fbRunning, sup, sw, watch
      ensures View() == Section(old(View()), if stopped then StandbyStopped else StandbyTimeout, gap)
      ensures at == GraceRenewing
    {
      fbRunning, at := false, GraceRenewing;
      sup.fbMissed := Active(sup.fb);
      assert View() == Then(old(View()), if stopped then StandbyStopped else StandbyTimeout);
      LetOthers(gap);
    }

    method RenewSection(now: int, gap: seq<Event>)
      requires at == GraceRenewing
      modifies this`at, sup, sw, watch
      ensures View() == Section(old(View()), RenewGrace(now), gap) && at == UpstreamReleasing
    {
      watch.SetHeld(false, now);
      at := UpstreamReleasing;
      assert View() == Then(old(View()), RenewGrace(now));
      LetOthers(gap);
    }

    /** stopFallback, and the renewed report of the release when it stopped something. */
    method StopFallback(renewed: int, gaps: Gaps)
      requires at == if fbRunning then Draining else UpstreamReleasing
      modifies this`at, this`fbRunning, sup, sw, watch
      ensures View() == if old(fbRunning) then StoppedFallback(old(View()), renewed, gaps) else old(View())
      ensures at == UpstreamReleasing
    {
      hide Then, Section;
      if !fbRunning {
        return;
      }
      DrainSection(gaps(2));
      SwitchOffSection(gaps(3));
      var stopped := HoldStandby(gaps(4));
      StandbyHeldSection(stopped, gaps(5));
      RenewSection(renewed, gaps(6));
    }

    method SetBlocked(b: Option<Blocked>)
      modifies this`blocked, watch
      ensures blocked == b && watch.View() == AfterSetBlocked(old(watch.View()), b)
    {
      blocked := b;
      watch.SetBlocked(b);
    }

    method RefuseSection(now: int, b: Option<Blocked>)
      requires at == Idle && held && b.Some?
      modifies this`blocked, watch
      ensures View() == Then(old(View()), OrderRelease(now, b))
    {
      SetBlocked(b);
    }

    method AcceptSection(now: int, gap: seq<Event>)
      requires at == Idle && held
      modifies this`at, this`blocked, sup, sw, watch
      ensures View() == Section(old(View()), OrderRelease(now, None), gap) && at == ReleaseAccepted(now)
    {
      if blocked.Some? {
        SetBlocked(None);
      }
      at := ReleaseAccepted(now);
      assert View() == Then(old(View()), OrderRelease(now, None));
      LetOthers(gap);
    }

    method ReportReleaseSection(now: int, gap: seq<Event>)
      requires at == ReleaseAccepted(now)
      modifies this`at, sup, sw, watch
      ensures View() == Section(old(View()), ReportRelease, gap)
      ensures at == if fbRunning then Draining else UpstreamReleasing
    {
      watch.SetHeld(false, now);
      at := if fbRunning then Draining else UpstreamReleasing;
      assert View() == Then(old(View()), ReportRelease);
      LetOthers(gap);
    }

    method ReleaseUpstreamSection()
      requires at == UpstreamReleasing
      modifies this`at, this`held, sup
      ensures View() == Then(old(View()), ReleaseUpstream) && !held
    {
      sup.SetHeldMark(Upstream, false);
      sup.upMissed := false;
      held, at := false, Idle;
    }

    /** apply(false, now), where the RAM reads as `mem` and the standby has stopped at `renewed`. A held upstream stays held exactly
        if there is something to check and too little RAM would stay free; the reason is then recorded as it was found. */
    method ApplyRelease(now: int, renewed: int, mem: Option<Memory>, gaps: Gaps)
      requires at == Idle
      modifies this, sup, sw, watch
      ensures View() == AppliedRelease(old(View()), now, renewed, RamBlock(maxPercent, old(needBytes), mem), gaps)
      ensures held <==> old(held) && Checkable(maxPercent, old(needBytes), mem) && !LeavesFree(maxPercent, old(needBytes), mem.value)
      ensures held ==> blocked.Some? && Tells(blocked.value, maxPercent, old(needBytes), mem.value)
    {
      var b := RamBlock(maxPercent, needBytes, mem);
      RefusedIff(maxPercent, needBytes, mem);
      hide LeavesFree, Tells;
      hide RamBlock;
      if !held {
        return;
      }
      hide Then, Section;
      if b.Some? {
        RefuseSection(now, b);
        return;
      }
      AcceptSection(now, gaps(0));
      ReportReleaseSection(now, gaps(1));
      StopFallback(renewed, gaps);
      ReleaseUpstreamSection();
    }

    /** sample while held: is there room again? The block goes exactly if there is nothing to check any more or enough would stay
        free, and nothing else changes. */
    method Sample(mem: Option<Memory>)
      requires at == Idle
      modifies this`blocked, watch
      ensures View() == Then(old(View()), HandOver.Sample(RamBlock(maxPercent, needBytes, mem)))
      ensures held && old(blocked).Some? ==>
        (blocked.Some? <==> Checkable(maxPercent, needBytes, mem) && !LeavesFree(maxPercent, needBytes, mem.value))
      ensures !held || old(blocked).None? ==> blocked == old(blocked)
      ensures blocked.Some? ==> blocked == old(blocked)
    {
      RefusedIff(maxPercent, needBytes, mem);
      hide LeavesFree;
      if held && blocked.Some? {
        var b := RamBlock(maxPercent, needBytes, mem);
        if b.None? {
          SetBlocked(None);
        }
      }
    }
  }
}
