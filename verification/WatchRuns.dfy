/** Whole runs of the watcher, in any interleaving of its setters with polls of the upstream and of the
    standby that may have begun at any earlier time, and what the tunnel's report loop makes of them. */
module WatchRuns {
  import opened Common
  import opened OllamaWatch

  /** One critical section. */
  datatype Call =
    | SetHeld(hold: bool, now: int)
    | StartHeld(startTags: seq<Entry>)
    | SetBlocked(b: Option<Blocked>)
    | SetFallback(base: string, now: int)
    | Poll(now: int, needTags: bool, answer: Answer)
    | StandbyPoll(base: string, now: int, answer: Answer)

  function After(w: Watch, c: Call): Watch {
    match c
    case SetHeld(hold, now) => AfterSetHeld(w, hold, now)
    case StartHeld(tags) => AfterStartHeld(w, tags)
    case SetBlocked(b) => AfterSetBlocked(w, b)
    case SetFallback(base, now) => AfterSetFallback(w, base, now)
    case Poll(now, needTags, a) => AfterPoll(w, now, needTags, a)
    case StandbyPoll(base, now, a) => AfterStandbyPoll(w, base, now, a)
  }

  /** What the callers in upstream_hold.go keep to: a held start only before anything was reported, a hold
      only when not held already, a standby only under a hold. Polls are free. */
  predicate Allowed(w: Watch, c: Call) {
    match c
    case SetHeld(hold, _) => !hold || !w.held
    case StartHeld(_) => !w.have
    case SetFallback(_, _) => w.held
    case _ => true
  }

  // ---- the invariant ----

  ghost predicate ReportConsistent(w: Watch) {
    && (w.st.up ==> w.st.error == "")
    && (w.held <==> w.st.upstreamState.Held?)
    && (w.held ==> w.st.up && w.have)
    && (w.st.serving ==> w.held && w.standby.on)
    && (w.standby.on ==> w.held)
    && (w.held && !w.st.serving ==> w.st.ps == [])
    && (!w.have ==> !w.st.up && w.st.tags == [] && w.st.ps == [] && w.st.upstreamState.Answering?)
  }

  /** Every key that is set belongs to what is reported. */
  ghost predicate KeysMatch(w: Watch) {
    && (!w.have ==> w.direct.psKey.None? && w.direct.tagsKey.None?)
    && (w.direct.psKey.Some? ==> !w.held && w.direct.psKey.value == PsKey(w.st.ps))
    && (w.direct.tagsKey.Some? ==> w.direct.tagsKey.value == RawKey(if w.held then w.heldTags else w.st.tags))
    && (w.held && !w.st.serving ==> w.st.tags == w.heldTags)
    && (w.standby.on && !w.st.serving ==> w.standby.psKey.None? && w.standby.tagsKey.None?)
    && (w.standby.on && w.st.serving && w.standby.psKey.Some? ==> w.standby.psKey.value == PsKey(w.st.ps))
    && (w.standby.on && w.st.serving && w.standby.tagsKey.Some? ==>
          exists own :: w.st.tags == own + w.heldTags && w.standby.tagsKey.value == RawKey(own))
  }

  ghost predicate Inv(w: Watch) {
    ReportConsistent(w) && KeysMatch(w)
  }

  lemma PollKeepsInv(w: Watch, now: int, needTags: bool, a: Answer)
    requires Inv(w)
    ensures Inv(AfterPoll(w, now, needTags, a))
  {
  }

  lemma StandbyPollKeepsInv(w: Watch, base: string, now: int, a: Answer)
    requires Inv(w)
    ensures Inv(AfterStandbyPoll(w, base, now, a))
  {
    var w' := AfterStandbyPoll(w, base, now, a);
    if w.held && w.standby.on && w.standby.base == base && a.Answered? {
      var newTags := Some(RawKey(a.tags)) != w.standby.tagsKey;
      if w.st.serving && !newTags {
        var own :| w.st.tags == own + w.heldTags && w.standby.tagsKey.value == RawKey(own);
        assert w'.st.tags == (if w'.st == w.st then own else a.tags) + w'.heldTags;
      } else {
        assert w'.st.tags == a.tags + w'.heldTags && w'.standby.tagsKey.value == RawKey(a.tags);
      }
    }
  }

  lemma SettersKeepInv(w: Watch, c: Call)
    requires Inv(w) && Allowed(w, c) && !c.Poll? && !c.StandbyPoll?
    ensures Inv(After(w, c))
  {
  }

  lemma StepKeepsInv(w: Watch, c: Call)
    requires Inv(w) && Allowed(w, c)
    ensures Inv(After(w, c))
  {
    match c
    case Poll(now, needTags, a) => PollKeepsInv(w, now, needTags, a);
    case StandbyPoll(base, now, a) => StandbyPollKeepsInv(w, base, now, a);
    case _ => SettersKeepInv(w, c);
  }

  // ---- the revision is faithful ----

  /** What the router sees of the watcher: nothing before the first report, then all but the revision. */
  function Payload(w: Watch): Option<Report> {
    if w.have then Some(w.st.(rev := 0)) else None
  }

  /** A step raises the revision by one or leaves the payload alone. */
  ghost predicate FaithfulStep(w: Watch, w': Watch) {
    w'.st.rev == w.st.rev + 1 || (w'.st.rev == w.st.rev && Payload(w') == Payload(w))
  }

  lemma StepIsFaithful(w: Watch, c: Call)
    requires Inv(w) && (c.StartHeld? ==> !w.have)
    ensures FaithfulStep(w, After(w, c))
  {
  }

  lemma ReportStays(w: Watch, c: Call)
    ensures w.have ==> After(w, c).have
  {
  }

  /** A held start on a watcher that already reported: it changes the report without a new revision exactly
      when that watcher already says "held, nothing loaded" with other models. */
  lemma StartHeldFaithfulIff(w: Watch, tags: seq<Entry>)
    ensures FaithfulStep(w, AfterStartHeld(w, tags)) <==> !(Quiet(w, Held) && tags != w.st.tags)
  {
  }

  /** ws[k] is the watcher after the first k calls. */
  ghost predicate IsRun(ws: seq<Watch>, cs: seq<Call>) {
    && |ws| == |cs| + 1
    && Inv(ws[0]) && !ws[0].have
    && forall k | 0 <= k < |cs| :: Allowed(ws[k], cs[k]) && ws[k + 1] == After(ws[k], cs[k])
  }

  lemma RunInv(ws: seq<Watch>, cs: seq<Call>, k: nat)
    requires IsRun(ws, cs) && k < |ws|
    ensures Inv(ws[k])
  {
    if k > 0 {
      RunInv(ws, cs, k - 1);
      StepKeepsInv(ws[k - 1], cs[k - 1]);
    }
  }

  lemma RunStep(ws: seq<Watch>, cs: seq<Call>, k: nat)
    requires IsRun(ws, cs) && k + 1 < |ws|
    ensures k < |cs| && Inv(ws[k]) && Allowed(ws[k], cs[k]) && ws[k + 1] == After(ws[k], cs[k])
  {
    hide Inv, Allowed, After;
    RunInv(ws, cs, k);
  }

  lemma LastStepIsFaithful(w: Watch, c: Call)
    requires Inv(w) && Allowed(w, c)
    ensures var w' := After(w, c);
      && w.st.rev <= w'.st.rev <= w.st.rev + 1 && (w.st.rev == w'.st.rev ==> Payload(w) == Payload(w')) && (w.have ==> w'.have)
  {
    hide Inv, After;
    StepIsFaithful(w, c);
    ReportStays(w, c);
  }

  /** Over any run the revision never falls, and equal revisions mean equal reports. */
  lemma {:induction false} RunIsFaithful(ws: seq<Watch>, cs: seq<Call>, i: nat, j: nat)
    requires IsRun(ws, cs) && i <= j < |ws|
    ensures ws[i].st.rev <= ws[j].st.rev
    ensures ws[i].st.rev == ws[j].st.rev ==> Payload(ws[i]) == Payload(ws[j])
    ensures ws[i].have ==> ws[j].have
    decreases j
  {
    hide *;
    if i < j {
      RunIsFaithful(ws, cs, i, j - 1);
      RunStep(ws, cs, j - 1);
      LastStepIsFaithful(ws[j - 1], cs[j - 1]);
    }
  }

  /** In every state of every run: "held" is reported exactly while held, and held means up and reported;
      the standby's models are reported only while the watcher is held and polls the standby. */
  lemma RunReportConsistent(ws: seq<Watch>, cs: seq<Call>, k: nat)
    requires IsRun(ws, cs) && k < |ws|
    ensures ws[k].held <==> ws[k].st.upstreamState.Held?
    ensures ws[k].held ==> ws[k].st.up && ws[k].have
    ensures ws[k].st.serving ==> ws[k].held && ws[k].standby.on
    ensures ws[k].held && !ws[k].st.serving ==> ws[k].st.ps == [] && ws[k].st.tags == ws[k].heldTags
  {
    RunInv(ws, cs, k);
  }

  // ---- the report is true, and only changes are news ----

  /** After an answer the report is that answer, up to expires_at; the models are those of the last answer
      that carried them. */
  lemma AnswerIsReported(w: Watch, now: int, needTags: bool, ps: seq<Entry>, tags: seq<Entry>)
    requires Inv(w) && !w.held
    ensures var w' := AfterPoll(w, now, needTags, Answered(ps, tags));
      && w'.have && w'.st.up && w'.st.error == "" && w'.st.upstreamState.Answering? && !w'.st.serving
      && w'.direct.fails == 0 && w'.direct.startEnd.None?
      && SameListUpToExpiry(w'.st.ps, ps)
      && RawKey(w'.st.tags) == RawKey(if needTags then tags else w.st.tags)
  {
    var w' := AfterPoll(w, now, needTags, Answered(ps, tags));
    PsKeyIsUpToExpiry(w'.st.ps, ps);
  }

  /** An answering server raises the revision exactly when its answer differs by more than expires_at. */
  lemma AnswerIsNewsIff(w: Watch, now: int, needTags: bool, ps: seq<Entry>, tags: seq<Entry>)
    requires Inv(w) && !w.held && w.st.up && w.st.upstreamState.Answering?
    requires w.direct.psKey.Some? && w.direct.tagsKey.Some?
    ensures var w' := AfterPoll(w, now, needTags, Answered(ps, tags));
      w'.st.rev != w.st.rev <==>
        !SameListUpToExpiry(w.st.ps, ps) || (needTags && RawKey(w.st.tags) != RawKey(tags))
  {
    PsKeyIsUpToExpiry(w.st.ps, ps);
    assert w.have;
  }

  /** The same for the standby: what it serves is reported with the held upstream's models behind its own. */
  lemma StandbyAnswerIsReported(w: Watch, now: int, ps: seq<Entry>, tags: seq<Entry>)
    requires Inv(w) && w.held && w.standby.on
    ensures var w' := AfterStandbyPoll(w, w.standby.base, now, Answered(ps, tags));
      && w'.have && w'.st.up && w'.st.upstreamState.Held? && w'.st.serving && w'.standby.fails == 0
      && SameListUpToExpiry(w'.st.ps, ps)
      && RawKey(w'.st.tags) == RawKey(tags) + RawKey(w.heldTags)
  {
    var w' := AfterStandbyPoll(w, w.standby.base, now, Answered(ps, tags));
    PsKeyIsUpToExpiry(w'.st.ps, ps);
    if w'.st == w.st {
      var own :| w.st.tags == own + w.heldTags && w.standby.tagsKey.value == RawKey(own);
      RawKeyOfConcat(own, w.heldTags);
    } else {
      RawKeyOfConcat(tags, w.heldTags);
    }
  }

  lemma RawKeyOfConcat(a: seq<Entry>, b: seq<Entry>)
    ensures RawKey(a + b) == RawKey(a) + RawKey(b)
  {
  }

  /** An answer given again, up to expires_at, never raises the revision, however often. */
  lemma {:induction false} RepeatedAnswersAreSilent(w: Watch, polls: seq<Call>, ps: seq<Entry>, tags: seq<Entry>)
    requires Inv(w) && !w.held && w.st.up && w.st.upstreamState.Answering?
    requires w.direct.psKey == Some(PsKey(ps)) && w.direct.tagsKey == Some(RawKey(tags))
    requires forall c | c in polls :: c.Poll? && c.answer.Answered? &&
               SameListUpToExpiry(c.answer.ps, ps) && RawKey(c.answer.tags) == RawKey(tags)
    ensures AfterAll(w, polls).st == w.st
    decreases |polls|
  {
    if polls != [] {
      var c := polls[0];
      PsKeyIsUpToExpiry(c.answer.ps, ps);
      PollKeepsInv(w, c.now, c.needTags, c.answer);
      assert w.have;
      RepeatedAnswersAreSilent(After(w, c), polls[1..], ps, tags);
    }
  }

  /** A serving standby raises the revision exactly when its answer differs by more than expires_at from what is reported. */
  lemma StandbyAnswerIsNewsIff(w: Watch, now: int, ps: seq<Entry>, tags: seq<Entry>)
    requires Inv(w) && w.held && w.standby.on && w.st.serving
    requires w.standby.psKey.Some? && w.standby.tagsKey.Some?
    ensures var w' := AfterStandbyPoll(w, w.standby.base, now, Answered(ps, tags));
      w'.st.rev != w.st.rev <==>
        !SameListUpToExpiry(w.st.ps, ps) || RawKey(w.st.tags) != RawKey(tags) + RawKey(w.heldTags)
  {
    PsKeyIsUpToExpiry(w.st.ps, ps);
    var own :| w.st.tags == own + w.heldTags && w.standby.tagsKey.value == RawKey(own);
    RawKeyOfConcat(own, w.heldTags);
    SameFront(RawKey(own), RawKey(tags), RawKey(w.heldTags));
  }

  lemma SameFront<T>(a: seq<T>, b: seq<T>, tail: seq<T>)
    ensures a + tail == b + tail <==> a == b
  {
    if a + tail == b + tail {
      assert a == (a + tail)[..|a|] && b == (b + tail)[..|b|];
    }
  }

  /** The standby's answer given again, up to expires_at, never raises the revision either, however often; nor do answers of the
      held upstream or of a former standby that arrive late. */
  lemma {:induction false} RepeatedStandbyAnswersAreSilent(w: Watch, polls: seq<Call>, ps: seq<Entry>, tags: seq<Entry>)
    requires Inv(w) && w.held && w.standby.on && w.st.serving
    requires w.standby.psKey == Some(PsKey(ps)) && w.standby.tagsKey == Some(RawKey(tags))
    requires forall c | c in polls :: c.Poll? || (c.StandbyPoll? &&
               (c.base != w.standby.base || (c.answer.Answered? && SameListUpToExpiry(c.answer.ps, ps) && RawKey(c.answer.tags) == RawKey(tags))))
    ensures AfterAll(w, polls).st == w.st
    decreases |polls|
  {
    if polls != [] {
      var c := polls[0];
      if c.StandbyPoll? && c.base == w.standby.base {
        PsKeyIsUpToExpiry(c.answer.ps, ps);
        StandbyPollKeepsInv(w, c.base, c.now, c.answer);
      }
      RepeatedStandbyAnswersAreSilent(After(w, c), polls[1..], ps, tags);
    }
  }

  // ---- orders and failures ----

  /** A new watcher has nothing to report; an OpenAI-compatible server may take three minutes to start. */
  lemma FreshIs(openAI: bool, now: int)
    ensures var w := FreshWatch(openAI, now);
      && !w.have && !w.held && !w.standby.on && w.direct.fails == 0 && w.st.rev == 0
      && w.direct.startEnd == if openAI then Some(now + 180_000) else None
  {
  }

  /** An agent that starts with the upstream held reports it so at once, with the remembered models. */
  lemma HeldStartIsReported(openAI: bool, now: int, tags: seq<Entry>)
    ensures var w := AfterStartHeld(FreshWatch(openAI, now), tags);
      && w.have && w.held && w.st.up && w.st.upstreamState.Held? && w.st.ps == [] && w.st.tags == tags && w.heldTags == tags && w.st.rev == 1
  {
  }

  /** A hold reports the upstream as up with nothing loaded, keeps its models in the report and aside, and is news. */
  lemma HoldIsReported(w: Watch, now: int)
    requires Inv(w) && !w.held
    ensures var w' := AfterSetHeld(w, true, now);
      && w'.held && w'.st.up && w'.st.upstreamState.Held? && w'.st.ps == [] && w'.st.tags == w.st.tags && w'.heldTags == w.st.tags
      && w'.st.rev == w.st.rev + 1 && w'.direct.startEnd.None? && w'.st.blocked == w.st.blocked
  {
  }

  /** A release reports it as starting, takes the standby's models out of the report and puts the upstream's own back. */
  lemma ReleaseIsReported(w: Watch, now: int)
    requires Inv(w) && w.held
    ensures var w' := AfterSetHeld(w, false, now);
      && !w'.held && !w'.standby.on && w'.st.up && w'.st.upstreamState.Starting? && w'.st.ps == [] && w'.st.tags == w.heldTags
      && !w'.st.serving && w'.st.rev == w.st.rev + 1 && w'.direct.startEnd == Some(now + 180_000)
  {
  }

  /** While a server may still be starting, a failure reports it as starting - up, with nothing loaded - and counts for nothing. */
  lemma FailureInGrace(w: Watch, now: int, needTags: bool, error: string)
    requires Inv(w) && !w.held && w.direct.startEnd.Some? && now < w.direct.startEnd.value
    ensures var w' := AfterPoll(w, now, needTags, Failed(error));
      && w'.have && w'.st.up && w'.st.upstreamState.Starting? && w'.st.ps == [] && w'.st.tags == w.st.tags
      && w'.direct.fails == w.direct.fails && w'.direct.startEnd == w.direct.startEnd
  {
  }

  /** A poll that failed: when it began, and the error. */
  datatype Failure = Failure(now: int, error: string)

  function AfterFailing(w: Watch, fs: seq<Failure>): Watch
    decreases |fs|
  {
    if fs == [] then w
    else var last := fs[|fs| - 1]; AfterPoll(AfterFailing(w, fs[..|fs| - 1]), last.now, true, Failed(last.error))
  }

  /** After that a server that is not reported as down is with the third failure in a row, once, with its error; before that nothing
      is reported. */
  lemma {:induction false} DownWithThirdFailure(w: Watch, fs: seq<Failure>)
    requires Inv(w) && !w.held && (w.have ==> w.st.up) && w.direct.fails == 0
    requires w.direct.startEnd.Some? ==> forall i :: 0 <= i < |fs| ==> fs[i].now >= w.direct.startEnd.value
    ensures var w', n := AfterFailing(w, fs), |fs|;
      && (n < 3 ==> w'.st == w.st)
      && (n >= 3 ==> w'.st == w.st.(up := false, error := fs[2].error, rev := w.st.rev + 1))
      && w'.direct == w.direct.(fails := n) && (w'.have <==> w.have || n >= 3) && !w'.held
    decreases |fs|
  {
    if fs != [] {
      DownWithThirdFailure(w, fs[..|fs| - 1]);
    }
  }

  /** A standby that served is taken out of the report with the third failure in a row after its minute; the node stays up. */
  lemma {:induction false} StandbyLeavesWithThirdFailure(w: Watch, times: seq<int>, error: string)
    requires Inv(w) && w.held && w.standby.on && w.st.serving && w.standby.fails == 0
    requires w.standby.end.Some? && forall i :: 0 <= i < |times| ==> times[i] >= w.standby.end.value
    ensures var w', n := AfterStandbyPolls(w, times, error), |times|;
      && (n < 3 ==> w'.st == w.st)
      && (n >= 3 ==> w'.st == w.st.(serving := false, tags := w.heldTags, ps := [], rev := w.st.rev + 1))
      && w'.standby.fails == n && w'.standby.on && w'.held && w'.standby.end == w.standby.end && w'.standby.base == w.standby.base
      && w'.heldTags == w.heldTags && w'.st.up && w'.have
    decreases |times|
  {
    if times != [] {
      StandbyLeavesWithThirdFailure(w, times[..|times| - 1], error);
    }
  }

  function AfterStandbyPolls(w: Watch, times: seq<int>, error: string): Watch
    decreases |times|
  {
    if times == [] then w
    else
      var before := AfterStandbyPolls(w, times[..|times| - 1], error);
      AfterStandbyPoll(before, before.standby.base, times[|times| - 1], Failed(error))
  }

  /** During its minute a failing standby changes nothing. */
  lemma StandbyMayStart(w: Watch, base: string, now: int, ordered: int, error: string)
    requires now < ordered + 60_000
    ensures var started := AfterSetFallback(w, base, ordered); AfterStandbyPoll(started, base, now, Failed(error)) == started
  {
  }

  /** Whom a poll asks: the standby while it stands in, nobody during a hold without one, and otherwise the upstream - for its models
      too at first, every five seconds, and always if it is an OpenAI-compatible server. */
  lemma QuestionIs(w: Watch, now: int)
    ensures PollQuestion(w, now) == AskStandby(w.standby.base) <==> w.held && w.standby.on
    ensures PollQuestion(w, now) == AskNothing <==> w.held && !w.standby.on
    ensures PollQuestion(w, now) == AskUpstream(true) <==>
      !w.held && (!w.direct.haveTags || w.openAI || now >= w.direct.lastTags + 5_000)
  {
  }

  /** After an answer with models they are asked for again five seconds later, or at once from an OpenAI-compatible server. */
  lemma NextTagsIff(w: Watch, asked: int, ps: seq<Entry>, tags: seq<Entry>, now: int)
    requires !w.held
    ensures PollQuestion(AfterPoll(w, asked, true, Answered(ps, tags)), now) == AskUpstream(w.openAI || now >= asked + 5_000)
  {
  }

  /** The models to remember are those of the last answer of the upstream itself, while it answers. */
  lemma RememberedTagsIff(w: Watch)
    requires Inv(w)
    ensures UpstreamTagsOf(w).Some? <==> w.have && w.st.up && w.st.upstreamState.Answering? && w.st.tags != []
    ensures UpstreamTagsOf(w).Some? ==> UpstreamTagsOf(w).value == w.st.tags && !w.held
  {
  }

  /** A block is news exactly if it differs from the one reported; it changes nothing else. */
  lemma BlockIsNewsIff(w: Watch, b: Option<Blocked>)
    ensures var w' := AfterSetBlocked(w, b);
      w'.st.blocked == b && w' == w.(st := w.st.(blocked := b, rev := w'.st.rev))
      && w'.st.rev == (if b != w.st.blocked then w.st.rev + 1 else w.st.rev)
  {
  }

  function AfterAll(w: Watch, cs: seq<Call>): Watch
    decreases |cs|
  {
    if cs == [] then w else AfterAll(After(w, cs[0]), cs[1..])
  }

  // ---- agent/tunnel.go: the report loop of one session ----

  const OLLAMA_RESYNC: int := 30_000

  datatype Frame = Frame(report: Report, ts: int)

  /** One turn of the loop: it looks at the watcher after its first `at` calls; `kicked` is whether the
      wait at its end was cut short by ollamaKick; `writable` whether a write in this turn succeeds. */
  datatype Turn = Turn(at: nat, now: int, kicked: bool, writable: bool)

  /** The last frame is the watcher's report at `at` apart from its timestamp, and stays so while the revision stands. */
  ghost predicate Current(ws: seq<Watch>, at: nat, shown: Option<Frame>) {
    && at < |ws| && shown.Some?
    && forall k | at <= k < |ws| && ws[k].st.rev == ws[at].st.rev :: Some(shown.value.report.(rev := 0)) == Payload(ws[k])
  }

  /** There was a reason to send after `before` was the last frame. */
  predicate Due(before: Option<Frame>, kicked: bool, w: Watch, now: int) {
    before.None? || kicked || w.st.rev != before.value.report.rev || now - before.value.ts >= 30_000
  }

  /** What turn i did: shown[i] is the router's last frame after it, wrote[i] whether it sent that frame - exactly when there is
      something to report and a reason to send it. */
  ghost predicate TurnRight(ws: seq<Watch>, turns: seq<Turn>, shown: seq<Option<Frame>>, wrote: seq<bool>, i: nat) {
    && i < |turns| && i < |shown| && i < |wrote| && turns[i].at < |ws|
    && var w, before := ws[turns[i].at], if i == 0 then None else shown[i - 1];
    && (w.have ==> Current(ws, turns[i].at, shown[i]))
    && (!wrote[i] ==> shown[i] == before)
    && (wrote[i] ==> shown[i] == Some(Frame(w.st, turns[i].now)))
    && (wrote[i] <==> w.have && Due(before, i > 0 && turns[i - 1].kicked, w, turns[i].now))
  }

  lemma TurnRightLater(ws: seq<Watch>, turns: seq<Turn>, shown: seq<Option<Frame>>, wrote: seq<bool>,
                       s: Option<Frame>, o: bool, i: nat)
    requires TurnRight(ws, turns, shown, wrote, i)
    ensures TurnRight(ws, turns, shown + [s], wrote + [o], i)
  {
  }

  method OllamaLoop(ws: seq<Watch>, cs: seq<Call>, turns: seq<Turn>) returns (shown: seq<Option<Frame>>, wrote: seq<bool>)
    requires IsRun(ws, cs)
    requires forall i | 0 <= i < |turns| :: turns[i].at < |ws|
    requires forall i, j | 0 <= i < j < |turns| :: turns[i].at <= turns[j].at
    ensures |shown| == |wrote| && |shown| <= |turns|
    ensures |shown| < |turns| ==> !turns[|shown|].writable
    ensures forall i | 0 <= i < |shown| :: TurnRight(ws, turns, shown, wrote, i)
  {
    shown, wrote := [], [];
    var sentRev: nat, sentAt, force := 0, 0, true;
    var frame := None;
    ghost var last: nat := 0;
    for i := 0 to |turns|
      invariant |shown| == |wrote| == i
      invariant forall j | 0 <= j < i :: TurnRight(ws, turns, shown, wrote, j)
      invariant frame == if i == 0 then None else shown[i - 1]
      invariant frame.None? ==> force
      invariant frame.Some? ==> i > 0 && last <= turns[i - 1].at && ws[last].have &&
                                frame.value == Frame(ws[last].st, sentAt) && sentRev == ws[last].st.rev
      invariant frame.Some? ==> (force <==> turns[i - 1].kicked)
    {
      var turn := turns[i];
      var w := ws[turn.at];
      ghost var before := frame;
      if frame.Some? {
        RunIsFaithful(ws, cs, last, turn.at);
      }
      var write := w.have && (force || w.st.rev != sentRev || turn.now - sentAt >= OLLAMA_RESYNC);
      if write {
        if !turn.writable {
          return;
        }
        frame := Some(Frame(w.st, turn.now));
        sentRev, sentAt, force := w.st.rev, turn.now, false;
        last := turn.at;
      }
      forall j | 0 <= j < i ensures TurnRight(ws, turns, shown + [frame], wrote + [write], j) {
        TurnRightLater(ws, turns, shown, wrote, frame, write, j);
      }
      shown, wrote := shown + [frame], wrote + [write];
      if w.have {
        ShownIsCurrent(ws, cs, last, turn.at, frame);
      }
      assert i > 0 ==> shown[i - 1] == before;
      assert TurnRight(ws, turns, shown, wrote, i);
      if turn.kicked {
        force := true;
      }
    }
  }

  lemma ShownIsCurrent(ws: seq<Watch>, cs: seq<Call>, last: nat, at: nat, shown: Option<Frame>)
    requires IsRun(ws, cs) && last <= at < |ws| && ws[last].have
    requires shown.Some? && shown.value.report == ws[last].st && ws[last].st.rev == ws[at].st.rev
    ensures Current(ws, at, shown)
  {
    forall k | at <= k < |ws| && ws[k].st.rev == ws[at].st.rev
      ensures Some(shown.value.report.(rev := 0)) == Payload(ws[k])
    {
      RunIsFaithful(ws, cs, last, k);
    }
  }
}
