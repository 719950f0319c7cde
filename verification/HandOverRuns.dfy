/** Whole runs of the hand-over protocol. */
module HandOverRuns {
  import opened Common
  import opened OllamaWatch
  import opened WatchRuns
  import opened HandOver

  ghost predicate IsRun(ss: seq<Sys>, es: seq<Event>) {
    && |ss| == |es| + 1 && IsStart(ss[0])
    && forall k | 0 <= k < |es| :: Enabled(ss[k], es[k]) && ss[k + 1] == Step(ss[k], es[k])
  }

  lemma RunInv(ss: seq<Sys>, es: seq<Event>, k: nat)
    requires IsRun(ss, es) && k < |ss|
    ensures SysInv(ss[k])
  {
    if k == 0 {
      StartInv(ss[0]);
    } else {
      RunInv(ss, es, k - 1);
      HandOver.StepKeepsInv(ss[k - 1], es[k - 1]);
    }
  }

  // ---- one card, one server ----

  predicate BothActive(s: Sys) { Active(s.kids.up) && Active(s.kids.fb) }
  predicate BothRunning(s: Sys) { s.kids.up.phase.Running? && s.kids.fb.phase.Running? }
  predicate NothingMissed(s: Sys) { !s.kids.upMissed && !s.kids.fbMissed }

  /** If the step is a Hold returning, the child it held is stopped. */
  predicate Clean(s: Sys, e: Event) {
    && (e.UpstreamStopped? && s.cfg.standby ==> !Active(s.kids.up))
    && (e.StandbyStopped? || e.StandbyTimeout? ==> !Active(s.kids.fb))
  }

  /** Both children are active at once only while a Hold that returned over an active process is to blame. */
  lemma BothActiveIsMissed(ss: seq<Sys>, es: seq<Event>, k: nat)
    requires IsRun(ss, es) && k < |ss|
    ensures BothActive(ss[k]) ==> ss[k].kids.upMissed || ss[k].kids.fbMissed
  {
    RunInv(ss, es, k);
  }

  lemma CleanStepMissesNothing(s: Sys, e: Event)
    requires SysInv(s) && NothingMissed(s) && Enabled(s, e) && Clean(s, e)
    ensures NothingMissed(Step(s, e))
  {
  }

  /** Mutual exclusion: while every Hold really stopped its child, the two never share the card, and the standby is
      released only over an upstream that is held and stopped. */
  lemma {:induction false} MutualExclusion(ss: seq<Sys>, es: seq<Event>, k: nat)
    requires IsRun(ss, es) && k < |ss|
    requires forall i | 0 <= i < k :: Clean(ss[i], es[i])
    ensures NothingMissed(ss[k])
    ensures !BothActive(ss[k])
    ensures !ss[k].kids.fb.held ==> ss[k].kids.up.held && !Active(ss[k].kids.up)
    ensures !ss[k].kids.up.held ==> ss[k].kids.fb.held && !Active(ss[k].kids.fb)
  {
    RunInv(ss, es, k);
    if k > 0 {
      MutualExclusion(ss, es, k - 1);
      RunInv(ss, es, k - 1);
      CleanStepMissesNothing(ss[k - 1], es[k - 1]);
    }
  }

  ghost predicate CanRun(s: Sys, es: seq<Event>)
    decreases |es|
  {
    es == [] || (Enabled(s, es[0]) && CanRun(Step(s, es[0]), es[1..]))
  }

  ghost function RunAll(s: Sys, es: seq<Event>): Sys
    requires CanRun(s, es)
    decreases |es|
  {
    if es == [] then s else RunAll(Step(s, es[0]), es[1..])
  }

  ghost predicate AllClean(s: Sys, es: seq<Event>)
    requires CanRun(s, es)
    decreases |es|
  {
    es == [] || (Clean(s, es[0]) && AllClean(Step(s, es[0]), es[1..]))
  }

  lemma {:induction false} CleanRunExcludes(s: Sys, es: seq<Event>)
    requires SysInv(s) && NothingMissed(s) && CanRun(s, es) && AllClean(s, es)
    ensures SysInv(RunAll(s, es)) && NothingMissed(RunAll(s, es)) && !BothActive(RunAll(s, es))
    decreases |es|
  {
    if es != [] {
      HandOver.StepKeepsInv(s, es[0]);
      CleanStepMissesNothing(s, es[0]);
      CleanRunExcludes(Step(s, es[0]), es[1..]);
    }
  }

  /** A harmful future: both servers run although every later Hold does its work. */
  ghost predicate Harms(s: Sys, es: seq<Event>) {
    CanRun(s, es) && AllClean(s, es) && BothRunning(RunAll(s, es))
  }

  lemma HarmsEarlier(s: Sys, e: Event, es: seq<Event>)
    requires Enabled(s, e) && Clean(s, e) && Harms(Step(s, e), es)
    ensures Harms(s, [e] + es)
  {
  }

  /** Hold saw the upstream not running while it was starting: the standby joins it. */
  lemma MissedUpstreamHarms(s: Sys) returns (es: seq<Event>)
    requires SysInv(s) && NothingMissed(s) && Enabled(s, UpstreamStopped) && !Clean(s, UpstreamStopped)
    ensures Harms(Step(s, UpstreamStopped), es)
  {
    var s0 := Step(s, UpstreamStopped);
    var s1 := Step(s0, ReleaseStandby);
    var s2 := Step(s1, PassCheck(StandbyOllama));
    var s3 := Step(s2, Spawn(StandbyOllama));
    es := [];
    HarmsEarlier(s3, Spawn(Upstream), es);
    HarmsEarlier(s2, Spawn(StandbyOllama), [Spawn(Upstream)]);
    HarmsEarlier(s1, PassCheck(StandbyOllama), [Spawn(StandbyOllama)] + [Spawn(Upstream)]);
    es := [PassCheck(StandbyOllama)] + ([Spawn(StandbyOllama)] + [Spawn(Upstream)]);
    HarmsEarlier(s0, ReleaseStandby, es);
    es := [ReleaseStandby] + es;
  }

  lemma FreedUpstreamHarms(s: Sys) returns (es: seq<Event>)
    requires s.kids.up == Child(false, Stopped) && Active(s.kids.fb)
    ensures Harms(s, es)
  {
    var s1 := Step(s, PassCheck(Upstream));
    var s2 := Step(s1, Spawn(Upstream));
    es := [];
    if s2.kids.fb.phase.Starting? {
      HarmsEarlier(s2, Spawn(StandbyOllama), es);
      es := [Spawn(StandbyOllama)] + es;
    }
    HarmsEarlier(s1, Spawn(Upstream), es);
    HarmsEarlier(s, PassCheck(Upstream), [Spawn(Upstream)] + es);
    es := [PassCheck(Upstream)] + ([Spawn(Upstream)] + es);
  }

  /** The standby outlived its Hold: the upstream joins it. */
  lemma MissedStandbyHarms(s: Sys, e: Event) returns (es: seq<Event>)
    requires SysInv(s) && NothingMissed(s) && Enabled(s, e) && !Clean(s, e)
    requires e.StandbyStopped? || e.StandbyTimeout?
    ensures Harms(Step(s, e), es)
  {
    var s0 := Step(s, e);
    var s1 := Step(s0, RenewGrace(0));
    es := FreedUpstreamHarms(Step(s1, ReleaseUpstream));
    HarmsEarlier(s1, ReleaseUpstream, es);
    HarmsEarlier(s0, RenewGrace(0), [ReleaseUpstream] + es);
    es := [RenewGrace(0)] + ([ReleaseUpstream] + es);
  }

  /** Exactly when exclusion can break: a step of a system that missed nothing so far opens a harmful future if and
      only if it is a Hold returning over a child that is still starting or running. */
  lemma ExclusionBreaksIff(s: Sys, e: Event)
    requires SysInv(s) && NothingMissed(s) && Enabled(s, e)
    ensures (exists es :: Harms(Step(s, e), es)) <==> !Clean(s, e)
  {
    if Clean(s, e) {
      HandOver.StepKeepsInv(s, e);
      CleanStepMissesNothing(s, e);
      forall es | Harms(Step(s, e), es) ensures false {
        CleanRunExcludes(Step(s, e), es);
      }
    } else if e.UpstreamStopped? {
      var es := MissedUpstreamHarms(s);
    } else {
      var es := MissedStandbyHarms(s, e);
    }
  }

  /** The start window is reachable, from every start with a standby: an order that arrives while the supervisor starts the
      upstream passes over it, and a run without another fault ends with both servers running. */
  lemma StartWindowIsReachable(cfg: Config, openAI: bool, now: int)
    requires cfg.standby
    ensures var s := Start(cfg, openAI, now);
      var es := [PassCheck(Upstream), OrderHold(now), MarkUpstream];
      && CanRun(s, es) && AllClean(s, es) && Enabled(RunAll(s, es), UpstreamStopped)
      && exists later :: Harms(Step(RunAll(s, es), UpstreamStopped), later)
  {
    var s := Start(cfg, openAI, now);
    var s1 := Step(s, PassCheck(Upstream));
    var s2 := Step(s1, OrderHold(now));
    var s3 := Step(s2, MarkUpstream);
    var es := [PassCheck(Upstream), OrderHold(now), MarkUpstream];
    assert es[1..] == [OrderHold(now), MarkUpstream] && es[1..][1..] == [MarkUpstream] && es[1..][1..][1..] == [];
    assert RunAll(s3, []) == s3;
    assert RunAll(s2, [MarkUpstream]) == s3;
    assert RunAll(s1, [OrderHold(now), MarkUpstream]) == s3;
    StartInv(s);
    CleanRunExcludes(s, es);
    assert !Clean(s3, UpstreamStopped);
    ExclusionBreaksIff(s3, UpstreamStopped);
  }

  // ---- routing and report, at every intermediate step ----

  /** The router is told about the standby only while requests reach it, and requests reach it only while the
      standby is released and the upstream held; every standby request is counted until its end is reported. */
  lemma RoutingMatchesReport(ss: seq<Sys>, es: seq<Event>, k: nat)
    requires IsRun(ss, es) && k < |ss|
    ensures ss[k].w.st.serving ==> ss[k].sw.on
    ensures ss[k].sw.on ==> !ss[k].kids.fb.held && ss[k].kids.up.held
    ensures ss[k].sw.inflight == Unfinished(ss[k].sw.finished)
  {
    RunInv(ss, es, k);
  }

  /** "held" is reported exactly while the watcher is held, always as up; the report and the supervisor's mark on
      the upstream differ only inside an order, and it is the report that moves first. */
  lemma ReportComesFirst(ss: seq<Sys>, es: seq<Event>, k: nat)
    requires IsRun(ss, es) && k < |ss|
    ensures ss[k].w.held <==> ss[k].w.st.upstreamState.Held?
    ensures ss[k].w.held ==> ss[k].w.st.up && ss[k].w.have
    ensures ss[k].w.held && !ss[k].kids.up.held ==> ss[k].o.at.HoldReported?
    ensures !ss[k].w.held && ss[k].kids.up.held ==> ReleaseReported(ss[k].o.at)
  {
    RunInv(ss, es, k);
  }

  /** Between orders flags, mark and report agree; a block is kept only while held and is what the router reads. */
  lemma AgreementBetweenOrders(ss: seq<Sys>, es: seq<Event>, k: nat)
    requires IsRun(ss, es) && k < |ss| && ss[k].o.at.Idle?
    ensures ss[k].o.held == ss[k].w.held == ss[k].kids.up.held
    ensures ss[k].o.fbRunning == ss[k].sw.on == ss[k].w.standby.on == !ss[k].kids.fb.held
    ensures ss[k].o.blocked.Some? ==> ss[k].o.held
    ensures ss[k].w.st.blocked == ss[k].o.blocked
  {
    RunInv(ss, es, k);
  }

  // ---- from when the graces count ----

  /** The order apply is working on came as event i with this time stamp. */
  ghost predicate OrderedAt(es: seq<Event>, i: nat, at: At) {
    && i < |es|
    && (at.ReleaseAccepted? ==> es[i] == OrderRelease(TimeOf(at), None))
    && (Holding(at) || StartingStandby(at) ==> es[i] == OrderHold(TimeOf(at)))
  }

  /** Sections that still know their order's stamp. */
  predicate Stamped(at: At) { Holding(at) || StartingStandby(at) || at.ReleaseAccepted? }

  lemma StampStays(s: Sys, e: Event)
    requires SysInv(s) && Enabled(s, e) && Stamped(Step(s, e).o.at)
    ensures if Stamped(s.o.at) then TimeOf(Step(s, e).o.at) == TimeOf(s.o.at) && Step(s, e).o.at.ReleaseAccepted? == s.o.at.ReleaseAccepted?
            else e == (if Step(s, e).o.at.ReleaseAccepted? then OrderRelease(TimeOf(Step(s, e).o.at), None) else OrderHold(TimeOf(Step(s, e).o.at)))
  {
    hide ReportInv, ChildrenInv, SwitchInv;
  }

  /** The order is the last one before that did anything. */
  lemma {:induction false} StampIsOrder(ss: seq<Sys>, es: seq<Event>, k: nat) returns (i: nat)
    requires IsRun(ss, es) && k < |ss| && Stamped(ss[k].o.at)
    ensures i < k && OrderedAt(es, i, ss[k].o.at) && ss[i].o.at.Idle? && forall m | i < m <= k :: Stamped(ss[m].o.at)
    decreases k
  {
    assert k > 0;
    RunInv(ss, es, k - 1);
    assert Enabled(ss[k - 1], es[k - 1]) && ss[k] == Step(ss[k - 1], es[k - 1]);
    StampStays(ss[k - 1], es[k - 1]);
    hide Step, SysInv;
    if Stamped(ss[k - 1].o.at) {
      i := StampIsOrder(ss, es, k - 1);
    } else {
      i := k - 1;
    }
  }

  /** The standby gets a minute from the stamp of the hold order, the released upstream three from that of the release order, and
      three more from the time the standby had stopped. */
  lemma GracesCountFromOrders(ss: seq<Sys>, es: seq<Event>, k: nat) returns (i: nat)
    requires IsRun(ss, es) && k < |es|
    ensures es[k].StartFallback? ==> i < k && es[i].OrderHold? && ss[k + 1].w.standby.end == Some(es[i].now + 60_000)
    ensures es[k].StartFallback? ==> ss[k + 1].w.standby.on && ss[k + 1].w.standby.base == ss[k].cfg.base
    ensures es[k].ReportRelease? ==> i < k && es[i].OrderRelease? && ss[k + 1].w.direct.startEnd == Some(es[i].now + 180_000)
    ensures es[k].RenewGrace? ==> ss[k + 1].w.direct.startEnd == Some(es[k].now + 180_000)
  {
    i := 0;
    RunInv(ss, es, k);
    assert Enabled(ss[k], es[k]) && ss[k + 1] == Step(ss[k], es[k]);
    if es[k].StartFallback? || es[k].ReportRelease? {
      i := StampIsOrder(ss, es, k);
    }
  }

  // ---- the revision over the whole protocol ----

  lemma SysStepIsFaithful(s: Sys, e: Event)
    requires SysInv(s) && Enabled(s, e)
    ensures FaithfulStep(s.w, Step(s, e).w)
  {
    var c := WatchCall(s.cfg, s.o, e);
    if c.Some? {
      StepIsFaithful(s.w, c.value);
    }
  }

  /** Whatever the protocol does, equal revisions mean equal reports. */
  lemma {:induction false} RevisionIsFaithful(ss: seq<Sys>, es: seq<Event>, i: nat, j: nat)
    requires IsRun(ss, es) && i <= j < |ss|
    ensures ss[i].w.st.rev <= ss[j].w.st.rev
    ensures ss[i].w.st.rev == ss[j].w.st.rev ==> Payload(ss[i].w) == Payload(ss[j].w)
    decreases j
  {
    if i < j {
      RevisionIsFaithful(ss, es, i, j - 1);
      RunInv(ss, es, j - 1);
      SysStepIsFaithful(ss[j - 1], es[j - 1]);
    }
  }
}
