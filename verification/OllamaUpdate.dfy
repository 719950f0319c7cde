/** agent/ollamaupdate.go: the update order as a protocol - orders, the router's swap releases and the goroutine of each
    accepted order interleave - and `run` itself over the real folders. */
module OllamaUpdate {
  import opened Common
  import opened FileSwap
  import opened FileSwapProofs

  // ---- the protocol ----

  /** Where the goroutine of an order is. */
  datatype Stage =
    | Draining | Preparing | Awaiting | Approved | HeldToSwap | SwapFailed | SwapUndone | Swapped | Checking
    | CheckFailed | HeldToRoll | RolledBack | Returning(ok: bool)

  datatype Run = Run(version: string, stage: Stage)

  /** `chan` is swapCh, which holds one message; `held` the supervisor's mark on the Ollama child. */
  datatype Updater = Updater(busy: bool, runs: seq<Run>, chan: Option<string>, held: bool)

  datatype Event =
    | Order(version: string)            // Handle
    | Release(version: string)          // Swap: the router's release arrives
    | Discard(i: nat)                   // the drain throws an old release away
    | DrainEnds(i: nat)
    | Prepare(i: nat, ok: bool)         // checks, download, extraction, probe of the new binary
    | Take(i: nat)                      // awaitSwap receives a message
    | AwaitFails(i: nat)                // or gives up
    | HoldToSwap(i: nat)
    | BackupFails(i: nat)
    | MoveFiles(i: nat, ok: bool)       // swapTop
    | UndoMove(i: nat)                  // rollbackTop after a failed swapTop
    | ReleaseChild(i: nat)
    | Live(i: nat, version: string)     // what /api/version answers
    | CheckEnds(i: nat)                 // verifyWait is over
    | HoldToRoll(i: nat)
    | RollBack(i: nat)                  // rollbackTop after a failed check
    | Return(i: nat)

  predicate InStage(u: Updater, i: nat, s: Stage) { i < |u.runs| && u.runs[i].stage == s }

  predicate Enabled(u: Updater, e: Event) {
    match e
    case Order(_) => true
    case Release(_) => true
    case Discard(i) => InStage(u, i, Draining) && u.chan.Some?
    case DrainEnds(i) => InStage(u, i, Draining) && u.chan.None?
    case Prepare(i, _) => InStage(u, i, Preparing)
    case Take(i) => InStage(u, i, Awaiting) && u.chan.Some?
    case AwaitFails(i) => InStage(u, i, Awaiting)
    case HoldToSwap(i) => InStage(u, i, Approved)
    case BackupFails(i) => InStage(u, i, HeldToSwap)
    case MoveFiles(i, _) => InStage(u, i, HeldToSwap)
    case UndoMove(i) => InStage(u, i, SwapFailed)
    case ReleaseChild(i) => InStage(u, i, SwapUndone) || InStage(u, i, Swapped) || InStage(u, i, RolledBack)
    case Live(i, _) => InStage(u, i, Checking)
    case CheckEnds(i) => InStage(u, i, Checking)
    case HoldToRoll(i) => InStage(u, i, CheckFailed)
    case RollBack(i) => InStage(u, i, HeldToRoll)
    case Return(i) => InStage(u, i, Returning(true)) || InStage(u, i, Returning(false))
  }

  function To(u: Updater, i: nat, s: Stage): Updater
    requires i < |u.runs|
  {
    u.(runs := u.runs[i := u.runs[i].(stage := s)])
  }

  function Step(u: Updater, e: Event): Updater
    requires Enabled(u, e)
  {
    match e
    case Order(v) => if u.busy then u else u.(busy := true, runs := u.runs + [Run(v, Draining)])
    case Release(v) => if u.chan.Some? then u else u.(chan := Some(v))
    case Discard(i) => u.(chan := None)
    case DrainEnds(i) => To(u, i, Preparing)
    case Prepare(i, ok) => To(u, i, if ok then Awaiting else Returning(false))
    case Take(i) => To(u, i, if u.chan.value == u.runs[i].version then Approved else Awaiting).(chan := None)
    case AwaitFails(i) => To(u, i, Returning(false))
    case HoldToSwap(i) => To(u, i, HeldToSwap).(held := true)
    case BackupFails(i) => To(u, i, Returning(false)).(held := false)
    case MoveFiles(i, ok) => To(u, i, if ok then Swapped else SwapFailed)
    case UndoMove(i) => To(u, i, SwapUndone)
    case ReleaseChild(i) => To(u, i, if u.runs[i].stage.Swapped? then Checking else Returning(false)).(held := false)
    case Live(i, v) => if v == u.runs[i].version then To(u, i, Returning(true)) else u
    case CheckEnds(i) => To(u, i, CheckFailed)
    case HoldToRoll(i) => To(u, i, HeldToRoll).(held := true)
    case RollBack(i) => To(u, i, RolledBack)
    case Return(i) => u.(busy := false, runs := u.runs[..i] + u.runs[i + 1..])
  }

  const IDLE: Updater := Updater(false, [], None, false)

  ghost predicate IsRun(us: seq<Updater>, es: seq<Event>) {
    && |us| == |es| + 1 && us[0] == IDLE
    && forall k | 0 <= k < |es| :: Enabled(us[k], es[k]) && us[k + 1] == Step(us[k], es[k])
  }

  predicate Holds(s: Stage) {
    s.HeldToSwap? || s.SwapFailed? || s.SwapUndone? || s.Swapped? || s.HeldToRoll? || s.RolledBack?
  }

  predicate Inv(u: Updater) {
    && |u.runs| <= 1
    && (u.busy <==> |u.runs| == 1)
    && (u.held <==> |u.runs| == 1 && Holds(u.runs[0].stage))
  }

  /** Files move here. */
  predicate Moves(e: Event) { e.MoveFiles? || e.UndoMove? || e.RollBack? }

  lemma StepKeepsInv(u: Updater, e: Event)
    requires Inv(u) && Enabled(u, e)
    ensures Inv(Step(u, e))
  {
  }

  lemma {:induction false} RunInv(us: seq<Updater>, es: seq<Event>, k: nat)
    requires IsRun(us, es) && k < |us|
    ensures Inv(us[k])
  {
    if k > 0 {
      hide Step, Enabled;
      RunInv(us, es, k - 1);
      StepKeepsInv(us[k - 1], es[k - 1]);
    }
  }

  /** At most one order runs; while none runs the child is released; files move only under its held mark. */
  lemma OneOrderAndHeldMoves(us: seq<Updater>, es: seq<Event>, k: nat)
    requires IsRun(us, es) && k < |us|
    ensures |us[k].runs| <= 1
    ensures us[k].runs == [] ==> !us[k].held && !us[k].busy
    ensures k < |es| && Moves(es[k]) ==> us[k].held
    ensures k < |es| && es[k].Return? ==> !us[k].held && us[k + 1].runs == []
  {
    RunInv(us, es, k);
    if k < |es| {
      RunInv(us, es, k + 1);
    }
  }

  /** The stages up to the router's release. */
  predicate BeforeRelease(s: Stage) { s.Draining? || s.Preparing? || s.Awaiting? }

  /** What happened to the order that runs in us[k]: it was accepted at `order`, its drain ended at `drain`, and the release
      that approved it arrived at `sent` and was taken at `taken`. */
  ghost predicate ApprovedBy(us: seq<Updater>, es: seq<Event>, k: nat, drain: nat, sent: nat, taken: nat) {
    && drain < sent < taken < k < |us| && k <= |es|
    && |us[k].runs| == 1
    && es[drain] == DrainEnds(0)
    && es[sent] == Release(us[k].runs[0].version)
    && es[taken] == Take(0)
    && (forall m | drain <= m < k :: !es[m].Return?)
  }

  /** Since its drain ended, a message in the channel is one that arrived since. */
  ghost predicate ChanIsFresh(us: seq<Updater>, es: seq<Event>, k: nat, drain: nat) {
    && drain < k < |us| && k <= |es| && es[drain] == DrainEnds(0)
    && (forall m | drain <= m < k :: !es[m].Return?)
    && (us[k].chan.Some? ==> exists m :: drain < m < k && es[m] == Release(us[k].chan.value))
  }

  /** One step towards a state with an order past its drain. */
  lemma StepPastDrain(u: Updater, e: Event)
    requires Inv(u) && Enabled(u, e)
    requires |Step(u, e).runs| == 1 && !Step(u, e).runs[0].stage.Draining? && e != DrainEnds(0)
    ensures |u.runs| == 1 && !u.runs[0].stage.Draining? && !e.Return?
    ensures Step(u, e).runs[0].version == u.runs[0].version
    ensures var c := Step(u, e).chan; c.Some? && c != u.chan ==> e == Release(c.value)
  {
  }

  /** Past the router's release, and not given up before it. */
  predicate PastRelease(u: Updater) {
    |u.runs| == 1 && !BeforeRelease(u.runs[0].stage) && u.runs[0].stage != Returning(false)
  }

  /** One step towards a state with an approved order. */
  lemma StepPastApproval(u: Updater, e: Event)
    requires Inv(u) && Enabled(u, e) && PastRelease(Step(u, e))
    ensures e == Take(0) ==> u.chan == Some(u.runs[0].version) && u.runs[0].stage.Awaiting?
    ensures e != Take(0) ==> PastRelease(u)
    ensures |u.runs| == 1 && !e.Return? && Step(u, e).runs[0].version == u.runs[0].version
  {
  }

  lemma {:induction false} ChannelFresh(us: seq<Updater>, es: seq<Event>, k: nat) returns (drain: nat)
    requires IsRun(us, es) && k < |us| && |us[k].runs| == 1 && !us[k].runs[0].stage.Draining?
    ensures ChanIsFresh(us, es, k, drain)
    decreases k
  {
    RunInv(us, es, k - 1);
    hide Enabled, Inv, ChanIsFresh, Step;
    var u, e := us[k - 1], es[k - 1];
    assert us[k] == Step(u, e) && Enabled(u, e) && |us| == |es| + 1;
    if e == DrainEnds(0) {
      drain := k - 1;
      DrainedIsFresh(us, es, k);
    } else {
      StepPastDrain(u, e);
      drain := ChannelFresh(us, es, k - 1);
      FreshStays(us, es, k, drain);
    }
  }

  /** When the drain ends the channel is empty. */
  lemma DrainedIsFresh(us: seq<Updater>, es: seq<Event>, k: nat)
    requires 0 < k < |us| && k <= |es| && es[k - 1] == DrainEnds(0)
    requires Enabled(us[k - 1], DrainEnds(0)) && us[k] == Step(us[k - 1], DrainEnds(0))
    ensures ChanIsFresh(us, es, k, k - 1)
  {
  }

  lemma FreshStays(us: seq<Updater>, es: seq<Event>, k: nat, drain: nat)
    requires 0 < k < |us| && k <= |es| && ChanIsFresh(us, es, k - 1, drain) && !es[k - 1].Return?
    requires us[k].chan.Some? && us[k].chan != us[k - 1].chan ==> es[k - 1] == Release(us[k].chan.value)
    ensures ChanIsFresh(us, es, k, drain)
  {
  }

  lemma TakenWasSent(us: seq<Updater>, es: seq<Event>, k: nat, drain: nat) returns (sent: nat)
    requires 0 < k < |us| && k <= |es| && ChanIsFresh(us, es, k - 1, drain) && es[k - 1] == Take(0)
    requires |us[k].runs| == 1 && us[k - 1].chan == Some(us[k].runs[0].version)
    ensures ApprovedBy(us, es, k, drain, sent, k - 1)
  {
    sent :| drain < sent < k - 1 && es[sent] == Release(us[k].runs[0].version);
  }

  /** Files move - forward or back - only for an order whose release, naming exactly its version, arrived after the old ones
      were drained and was taken before. */
  lemma {:induction false} ApprovalComesFirst(us: seq<Updater>, es: seq<Event>, k: nat) returns (drain: nat, sent: nat, taken: nat)
    requires IsRun(us, es) && k < |us| && PastRelease(us[k])
    ensures ApprovedBy(us, es, k, drain, sent, taken)
    decreases k
  {
    RunInv(us, es, k - 1);
    hide Step, Enabled, Inv, ApprovedBy, ChanIsFresh;
    var u, e := us[k - 1], es[k - 1];
    assert us[k] == Step(u, e) && Enabled(u, e) && |us| == |es| + 1;
    StepPastApproval(u, e);
    hide IsRun;
    if e == Take(0) {
      drain := ChannelFresh(us, es, k - 1);
      sent := TakenWasSent(us, es, k, drain);
      taken := k - 1;
    } else {
      drain, sent, taken := ApprovalComesFirst(us, es, k - 1);
      ApprovalStays(us, es, k, drain, sent, taken);
    }
  }

  lemma ApprovalStays(us: seq<Updater>, es: seq<Event>, k: nat, drain: nat, sent: nat, taken: nat)
    requires 0 < k < |us| && k <= |es| && ApprovedBy(us, es, k - 1, drain, sent, taken) && !es[k - 1].Return?
    requires |us[k].runs| == 1 && us[k].runs[0].version == us[k - 1].runs[0].version
    ensures ApprovedBy(us, es, k, drain, sent, taken)
  {
  }

  /** An order that returns without error was approved, and the running Ollama reported exactly its version. */
  lemma SuccessIsProven(us: seq<Updater>, es: seq<Event>, k: nat) returns (drain: nat, sent: nat, taken: nat, live: nat)
    requires IsRun(us, es) && k < |us| && |us[k].runs| == 1 && us[k].runs[0].stage == Returning(true)
    ensures ApprovedBy(us, es, k, drain, sent, taken)
    ensures taken < live < k && es[live] == Live(0, us[k].runs[0].version)
  {
    drain, sent, taken := ApprovalComesFirst(us, es, k);
    live := LiveBefore(us, es, k);
    assert !(es[taken].Order? || es[taken].Release?);
  }

  /** One step towards success. */
  lemma StepToSuccess(u: Updater, e: Event)
    requires Inv(u) && Enabled(u, e)
    requires var t := Step(u, e); |t.runs| == 1 && t.runs[0].stage == Returning(true)
    ensures e.Order? || e.Release? ==> u.runs == Step(u, e).runs
    ensures !(e.Order? || e.Release?) ==> e == Live(0, Step(u, e).runs[0].version)
  {
  }

  lemma {:induction false} LiveBefore(us: seq<Updater>, es: seq<Event>, k: nat) returns (live: nat)
    requires IsRun(us, es) && k < |us| && |us[k].runs| == 1 && us[k].runs[0].stage == Returning(true)
    ensures live < k && es[live] == Live(0, us[k].runs[0].version) && us[live + 1].runs == us[k].runs
    ensures forall m | live < m < k :: es[m].Order? || es[m].Release?
    decreases k
  {
    hide Step, Enabled, Inv;
    RunInv(us, es, k - 1);
    assert us[k] == Step(us[k - 1], es[k - 1]);
    StepToSuccess(us[k - 1], es[k - 1]);
    if es[k - 1].Order? || es[k - 1].Release? {
      live := LiveBefore(us, es, k - 1);
    } else {
      live := k - 1;
    }
  }

  // ---- run over the real folders ----

  /** What the world does during one order: whether everything up to "ready" works, which messages awaitSwap receives before
      it gives up, whether the backup folder can be made and newDir be listed, which renames pass, and what the running
      Ollama answers until verifyWait is over. */
  datatype World = World(prepared: bool, arrivals: seq<string>, backupMade: bool, listed: bool, names: seq<string>,
                         works: Oracle, answers: seq<string>)

  /** The install folder and the outcome of one order; the staging folder with newDir and backup is removed. */
  function Ran(f: Folders, version: string, w: World): (Folders, bool) {
    if !w.prepared || version !in w.arrivals || !w.backupMade || !w.listed then (f, false)
    else
      var r := SwapFrom(f, w.names, [], w.works);
      if r.failed then (RollFrom(r.f, r.moved, w.works), false)
      else if version in w.answers then (r.f, true)
      else (RollFrom(r.f, r.moved, w.works), false)
  }

  class OllamaUpdater {
    const inst: Installation
    var childHeld: bool

    constructor (inst: Installation)
      ensures !childHeld && this.inst == inst
    {
      this.inst := inst;
      childHeld := false;
    }

    /** Messages for other versions are taken and ignored; `taken` counts them and the one that approves. */
    method AwaitSwap(version: string, arrivals: seq<string>) returns (approved: bool, taken: nat)
      ensures approved <==> version in arrivals
      ensures taken <= |arrivals| && (!approved ==> taken == |arrivals|)
      ensures approved ==> taken > 0 && arrivals[taken - 1] == version && version !in arrivals[..taken - 1]
    {
      for i := 0 to |arrivals|
        invariant version !in arrivals[..i]
      {
        if arrivals[i] == version {
          return true, i + 1;
        }
      }
      return false, |arrivals|;
    }

    method AwaitVersion(version: string, answers: seq<string>) returns (seen: bool)
      ensures seen <==> version in answers
    {
      for i := 0 to |answers|
        invariant version !in answers[..i]
      {
        if answers[i] == version {
          return true;
        }
      }
      return false;
    }

    /** swapTop, called only under the held mark. */
    method MoveIn(w: World) returns (moved: seq<string>, failed: bool)
      requires childHeld
      modifies inst
      ensures FileSwap.Swap(inst.View(), moved, failed) ==
                if w.listed then SwapFrom(old(inst.View()), w.names, [], w.works) else FileSwap.Swap(old(inst.View()), [], true)
    {
      if !w.listed {
        return [], true;
      }
      moved, failed := inst.SwapTop(w.names, w.works);
    }

    /** rollbackTop, called only under the held mark. */
    method Rollback(moved: seq<string>, works: Oracle)
      requires childHeld
      modifies inst
      ensures inst.View() == RollFrom(old(inst.View()), moved, works)
    {
      var _ := inst.RollbackTop(moved, works);
    }

    method Run(version: string, w: World) returns (ok: bool)
      modifies this, inst
      ensures (inst.View(), ok) == Ran(old(inst.View()), version, w)
      ensures old(childHeld) || !childHeld
      ensures w.prepared && version in w.arrivals ==> !childHeld
    {
      if !w.prepared {
        return false;
      }
      var approved, _ := AwaitSwap(version, w.arrivals);
      if !approved {
        return false;
      }
      childHeld := true;
      if !w.backupMade {
        childHeld := false;
        return false;
      }
      var moved, failed := MoveIn(w);
      if failed {
        Rollback(moved, w.works);
        childHeld := false;
        return false;
      }
      childHeld := false;
      var seen := AwaitVersion(version, w.answers);
      if seen {
        return true;
      }
      childHeld := true;
      Rollback(moved, w.works);
      childHeld := false;
      return false;
    }
  }

  /** An order is all or nothing: with at most one failing rename, met on the way forward, the install folder ends as the old
      one overridden by the whole release if the order succeeds, and as it was if it fails - whichever way. */
  lemma AllOrNothing(f: Folders, version: string, w: World, k: nat)
    requires Ready(f, w.names) && Names(w.names) == f.newDir.Keys && f.backup == map[]
    requires forall n: nat :: n != k ==> w.works(n)
    requires w.works(k) || SwapFrom(f, w.names, [], w.works).failed
    ensures var (f1, ok) := Ran(f, version, w);
      && f1.dir == (if ok then f.dir + f.newDir else f.dir)
      && (ok <==> w.prepared && version in w.arrivals && w.backupMade && w.listed && version in w.answers
                  && !SwapFrom(f, w.names, [], w.works).failed)
      && (w.works(k) ==> !SwapFrom(f, w.names, [], w.works).failed)
  {
    FailedSwapIsUndone(f, w.names, w.works, k);
    var r := SwapFrom(f, w.names, [], w.works);
    if !r.failed {
      SuccessfulSwap(f, w.names, w.works);
      RollbackUndoesSwap(f, w.names, w.works);
    }
  }
}
