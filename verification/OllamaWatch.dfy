/** agent/ollamawatch.go: the watcher that observes the upstream server and its standby Ollama and
    keeps the report the tunnel sends to the router.

    `Watch` is the watcher's state as a value, and one function per critical section says what that
    section does to it. `OllamaWatcher` is the object whose methods update their fields in place; each
    is proved against its function. A poll holds the lock twice, before and after its request, so it is
    two sections and anything may happen in between. Times are integer milliseconds. */
module OllamaWatch {
  import opened Common

  const DOWN_AFTER: nat := 3
  const TAGS_EVERY: int := 5_000
  const UPSTREAM_START_GRACE: int := 180_000
  const FALLBACK_START_GRACE: int := 60_000

  // ---- the report ----

  /** What a list entry of /api/ps or /api/tags decodes to; values stay JSON texts. */
  datatype Decoded = Fields(fields: map<string, string>) | NullValue | NoObject
  datatype Entry = Entry(raw: string, decoded: Decoded)

  datatype UpstreamState = Answering | Held | Starting

  datatype Blocked = Blocked(availableGiB: real, totalGiB: real, needGiB: real, limitPercent: int)

  /** OllamaState without its timestamp. `serving` is true for "ollama". */
  datatype Report = Report(up: bool, error: string, rev: nat, tags: seq<Entry>, ps: seq<Entry>,
                           upstreamState: UpstreamState, serving: bool, blocked: Option<Blocked>)

  // ---- comparison keys ----

  datatype KeyLine = FieldsLine(fields: map<string, string>) | NullLine | RawLine(raw: string)
  /** None is unsetKey, which no answer produces. */
  type Key<T> = Option<seq<T>>

  function PsLine(e: Entry): KeyLine {
    match e.decoded
    case Fields(fields) => FieldsLine(fields - {"expires_at"})
    case NullValue => NullLine
    case NoObject => RawLine(e.raw)
  }

  function PsKey(models: seq<Entry>): seq<KeyLine> {
    seq(|models|, i requires 0 <= i < |models| => PsLine(models[i]))
  }

  function RawKey(models: seq<Entry>): seq<string> {
    seq(|models|, i requires 0 <= i < |models| => models[i].raw)
  }

  method BuildPsKey(models: seq<Entry>) returns (key: seq<KeyLine>)
    ensures key == PsKey(models)
  {
    key := [];
    for i := 0 to |models|
      invariant key == PsKey(models)[..i]
    {
      key := key + [PsLine(models[i])];
    }
  }

  method BuildRawKey(models: seq<Entry>) returns (key: seq<string>)
    ensures key == RawKey(models)
  {
    key := [];
    for i := 0 to |models|
      invariant key == RawKey(models)[..i]
    {
      key := key + [models[i].raw];
    }
  }

  /** The same entry but for the time it expires, which moves with every request. */
  predicate SameUpToExpiry(a: Entry, b: Entry) {
    || a == b
    || (a.decoded.NullValue? && b.decoded.NullValue?)
    || (&& a.decoded.Fields? && b.decoded.Fields?
        && a.decoded.fields - {"expires_at"} == b.decoded.fields - {"expires_at"})
    || (a.decoded.NoObject? && b.decoded.NoObject? && a.raw == b.raw)
  }

  predicate SameListUpToExpiry(a: seq<Entry>, b: seq<Entry>) {
    |a| == |b| && forall i | 0 <= i < |a| :: SameUpToExpiry(a[i], b[i])
  }

  /** The key of /api/ps identifies its answers exactly up to expires_at. */
  lemma PsKeyIsUpToExpiry(a: seq<Entry>, b: seq<Entry>)
    ensures PsKey(a) == PsKey(b) <==> SameListUpToExpiry(a, b)
  {
    if PsKey(a) == PsKey(b) {
      assert |a| == |PsKey(a)| == |b|;
      forall i | 0 <= i < |a| ensures SameUpToExpiry(a[i], b[i]) {
        assert PsKey(a)[i] == PsKey(b)[i];
      }
    }
  }

  // ---- the watcher as a value ----

  /** What the watcher remembers about polling the upstream itself. */
  datatype Direct = Direct(haveTags: bool, lastTags: int, fails: nat, psKey: Key<KeyLine>, tagsKey: Key<string>,
                           startEnd: Option<int>)

  /** What the watcher remembers about polling the standby Ollama (fallback, fbOn, fbEnd, fbFails, fbPSKey, fbTagsKey). */
  datatype Standby = Standby(base: string, on: bool, end: Option<int>, fails: nat, psKey: Key<KeyLine>, tagsKey: Key<string>)

  datatype Watch = Watch(openAI: bool, st: Report, have: bool, held: bool, heldTags: seq<Entry>,
                         direct: Direct, standby: Standby)

  function FreshWatch(openAI: bool, now: int): Watch {
    Watch(openAI, Report(false, "", 0, [], [], Answering, false, None), false, false, [],
          Direct(false, 0, 0, None, None, if openAI then Some(now + UPSTREAM_START_GRACE) else None),
          Standby("", false, None, 0, None, None))
  }

  /** setUpstreamState has nothing new to say. */
  predicate Quiet(w: Watch, s: UpstreamState) {
    w.have && w.st.up && w.st.upstreamState == s && w.st.ps == [] && !w.st.serving
  }

  function WithUpstreamState(w: Watch, s: UpstreamState): Watch {
    if Quiet(w, s) then w
    else
      w.(st := Report(true, "", w.st.rev + 1, if w.st.serving then w.heldTags else w.st.tags, [], s, false, w.st.blocked),
         have := true,
         direct := w.direct.(psKey := None, tagsKey := if w.st.serving then None else w.direct.tagsKey))
  }

  function AfterSetHeld(w: Watch, held: bool, now: int): Watch {
    if held then
      WithUpstreamState(w.(held := true, direct := w.direct.(fails := 0, startEnd := None),
                           heldTags := if w.st.serving then w.heldTags else w.st.tags), Held)
    else
      WithUpstreamState(w.(held := false, standby := w.standby.(on := false),
                           direct := w.direct.(fails := 0, startEnd := Some(now + UPSTREAM_START_GRACE))), Starting)
  }

  function AfterStartHeld(w: Watch, tags: seq<Entry>): Watch {
    WithUpstreamState(w.(held := true, direct := w.direct.(fails := 0, startEnd := None), heldTags := tags,
                         st := w.st.(tags := tags)), Held)
  }

  function AfterSetBlocked(w: Watch, b: Option<Blocked>): Watch {
    if w.st.blocked == b then w else w.(st := w.st.(blocked := b, rev := w.st.rev + 1))
  }

  function AfterSetFallback(w: Watch, base: string, now: int): Watch {
    w.(standby := Standby(base, true, Some(now + FALLBACK_START_GRACE), 0, None, None))
  }

  datatype Answer = Failed(error: string) | Answered(ps: seq<Entry>, tags: seq<Entry>)
  datatype Question = AskNothing | AskUpstream(needTags: bool) | AskStandby(base: string)

  function PollQuestion(w: Watch, now: int): Question {
    if w.held && w.standby.on then AskStandby(w.standby.base)
    else if w.held then AskNothing
    else AskUpstream(!w.direct.haveTags || now - w.direct.lastTags >= TAGS_EVERY || w.openAI)
  }

  function AfterPollFailed(w: Watch, now: int, error: string): Watch {
    if Before(now, w.direct.startEnd) then WithUpstreamState(w, Starting)
    else
      var w1 := w.(direct := w.direct.(fails := w.direct.fails + 1));
      if w1.direct.fails >= DOWN_AFTER && (w.st.up || !w.have) then
        w1.(st := w.st.(up := false, error := error, rev := w.st.rev + 1), have := true)
      else w1
  }

  function AfterPollAnswered(w: Watch, now: int, needTags: bool, ps: seq<Entry>, tags: seq<Entry>): Watch {
    var newPs := Some(PsKey(ps)) != w.direct.psKey;
    var newTags := needTags && Some(RawKey(tags)) != w.direct.tagsKey;
    var changed := !w.st.up || !w.have || !w.st.upstreamState.Answering? || newPs || newTags;
    w.(st := Report(w.st.up || changed, if changed then "" else w.st.error,
                    if changed then w.st.rev + 1 else w.st.rev,
                    if newTags then tags else w.st.tags, if newPs then ps else w.st.ps,
                    Answering, w.st.serving, w.st.blocked),
       have := w.have || changed,
       direct := Direct(needTags || w.direct.haveTags, if needTags then now else w.direct.lastTags, 0,
                        Some(PsKey(ps)), if needTags then Some(RawKey(tags)) else w.direct.tagsKey, None))
  }

  /** The second section of a poll of the upstream. */
  function AfterPoll(w: Watch, now: int, needTags: bool, a: Answer): Watch {
    if w.held then w
    else match a
      case Failed(error) => AfterPollFailed(w, now, error)
      case Answered(ps, tags) => AfterPollAnswered(w, now, needTags, ps, tags)
  }

  function AfterStandbyFailed(w: Watch, now: int): Watch {
    if Before(now, w.standby.end) then w
    else
      var w1 := w.(standby := w.standby.(fails := w.standby.fails + 1));
      if w1.standby.fails < DOWN_AFTER || !w.st.serving then w1
      else
        w1.(st := w.st.(serving := false, tags := w.heldTags, ps := [], rev := w.st.rev + 1),
            standby := w1.standby.(psKey := None, tagsKey := None))
  }

  function AfterStandbyAnswered(w: Watch, ps: seq<Entry>, tags: seq<Entry>): Watch {
    var newPs := Some(PsKey(ps)) != w.standby.psKey;
    var newTags := Some(RawKey(tags)) != w.standby.tagsKey;
    var changed := !w.st.serving || newPs || newTags;
    var ps1 := if newPs then ps else w.st.ps;
    w.(st := if changed then Report(true, "", w.st.rev + 1, tags + w.heldTags, ps1, Held, true, w.st.blocked) else w.st,
       have := w.have || changed,
       standby := w.standby.(fails := 0, psKey := Some(PsKey(ps)), tagsKey := Some(RawKey(tags))))
  }

  /** The second section of a poll of the standby, which asked at `base`. */
  function AfterStandbyPoll(w: Watch, base: string, now: int, a: Answer): Watch {
    if !w.held || !w.standby.on || w.standby.base != base then w
    else match a
      case Failed(_) => AfterStandbyFailed(w, now)
      case Answered(ps, tags) => AfterStandbyAnswered(w, ps, tags)
  }

  function UpstreamTagsOf(w: Watch): Option<seq<Entry>> {
    if w.held || !w.have || !w.st.up || !w.st.upstreamState.Answering? || w.st.serving || w.st.tags == [] then None
    else Some(w.st.tags)
  }

  // ---- the object ----

  class OllamaWatcher {
    const openAI: bool
    var st: Report
    var have: bool
    var held: bool
    var heldTags: seq<Entry>
    var direct: Direct
    var standby: Standby

    ghost function View(): Watch
      reads this
    {
      Watch(openAI, st, have, held, heldTags, direct, standby)
    }

    constructor (openAI: bool, now: int)
      ensures View() == FreshWatch(openAI, now)
    {
      this.openAI := openAI;
      st := Report(false, "", 0, [], [], Answering, false, None);
      have, held, heldTags := false, false, [];
      direct := Direct(false, 0, 0, None, None, if openAI then Some(now + UPSTREAM_START_GRACE) else None);
      standby := Standby("", false, None, 0, None, None);
    }

    method SetUpstreamState(s: UpstreamState)
      modifies this
      ensures View() == WithUpstreamState(old(View()), s)
    {
      if have && st.up && st.upstreamState == s && |st.ps| == 0 && !st.serving {
        return;
      }
      if st.serving {
        st := st.(tags := heldTags, serving := false);
        direct := direct.(tagsKey := None);
      }
      direct := direct.(psKey := None);
      st := Report(true, "", st.rev + 1, st.tags, [], s, st.serving, st.blocked);
      have := true;
    }

    method SetHeld(hold: bool, now: int)
      modifies this
      ensures View() == AfterSetHeld(old(View()), hold, now)
    {
      held := hold;
      if hold {
        direct := direct.(fails := 0, startEnd := None);
        if !st.serving {
          heldTags := st.tags;
        }
        SetUpstreamState(Held);
        return;
      }
      standby := standby.(on := false);
      direct := direct.(fails := 0, startEnd := Some(now + UPSTREAM_START_GRACE));
      SetUpstreamState(Starting);
    }

    method StartHeld(tags: seq<Entry>)
      modifies this
      ensures View() == AfterStartHeld(old(View()), tags)
    {
      held := true;
      direct := direct.(fails := 0, startEnd := None);
      heldTags := tags;
      st := st.(tags := heldTags);
      SetUpstreamState(Held);
    }

    method UpstreamTags() returns (tags: Option<seq<Entry>>)
      ensures tags == UpstreamTagsOf(View())
    {
      if held || !have || !st.up || st.upstreamState != Answering || st.serving || st.tags == [] {
        return None;
      }
      return Some(st.tags);
    }

    method SetBlocked(b: Option<Blocked>)
      modifies this
      ensures View() == AfterSetBlocked(old(View()), b)
    {
      var cur := st.blocked;
      if (cur.None? && b.None?) || (cur.Some? && b.Some? && cur.value == b.value) {
        return;
      }
      st := st.(blocked := b, rev := st.rev + 1);
    }

    method SetFallback(base: string, now: int)
      modifies this
      ensures View() == AfterSetFallback(old(View()), base, now)
    {
      standby := Standby(base, true, Some(now + FALLBACK_START_GRACE), 0, None, None);
    }

    method Snapshot() returns (report: Report, reportable: bool)
      ensures report == View().st && reportable == View().have
    {
      return st, have;
    }

    /** The first section of poll: whom to ask. */
    method PollBegin(now: int) returns (q: Question)
      ensures q == PollQuestion(View(), now)
    {
      if held && standby.on {
        return AskStandby(standby.base);
      }
      if held {
        return AskNothing;
      }
      return AskUpstream(!direct.haveTags || now - direct.lastTags >= TAGS_EVERY || openAI);
    }

    /** The second section of poll. */
    method PollCommit(now: int, needTags: bool, a: Answer)
      modifies this
      ensures View() == AfterPoll(old(View()), now, needTags, a)
    {
      hide PsKey, RawKey, AfterPollFailed, AfterPollAnswered;
      if held {
        return;
      }
      match a
      case Failed(error) => CommitFailure(now, error);
      case Answered(ps, tags) => CommitAnswer(now, needTags, ps, tags);
    }

    method CommitFailure(now: int, error: string)
      modifies this
      ensures View() == AfterPollFailed(old(View()), now, error)
    {
      if Before(now, direct.startEnd) {
        SetUpstreamState(Starting);
        return;
      }
      direct := direct.(fails := direct.fails + 1);
      if direct.fails >= DOWN_AFTER && (st.up || !have) {
        st := st.(up := false, error := error, rev := st.rev + 1);
        have := true;
      }
    }

    method CommitAnswer(now: int, needTags: bool, newPs: seq<Entry>, newTags: seq<Entry>)
      modifies this
      ensures View() == AfterPollAnswered(old(View()), now, needTags, newPs, newTags)
    {
      hide PsKey, RawKey;
      var changed := !st.up || !have || st.upstreamState != Answering;
      var ps, tags := st.ps, st.tags;
      var k := BuildPsKey(newPs);
      if Some(k) != direct.psKey {
        ps, changed := newPs, true;
      }
      direct := direct.(fails := 0, startEnd := None, psKey := Some(k));
      if needTags {
        var t := BuildRawKey(newTags);
        if Some(t) != direct.tagsKey {
          tags, changed := newTags, true;
        }
        direct := direct.(lastTags := now, haveTags := true, tagsKey := Some(t));
      }
      st := Report(st.up, st.error, st.rev, tags, ps, Answering, st.serving, st.blocked);
      if changed {
        st := st.(up := true, error := "", rev := st.rev + 1);
        have := true;
      }
    }

    /** The second section of pollFallback. */
    method StandbyCommit(base: string, now: int, a: Answer)
      modifies this
      ensures View() == AfterStandbyPoll(old(View()), base, now, a)
    {
      if !held || !standby.on || standby.base != base {
        return;
      }
      if a.Failed? {
        if Before(now, standby.end) {
          return;
        }
        standby := standby.(fails := standby.fails + 1);
        if standby.fails < DOWN_AFTER {
          return;
        }
        if st.serving {
          st := st.(serving := false, tags := heldTags, ps := [], rev := st.rev + 1);
          standby := standby.(psKey := None, tagsKey := None);
        }
        return;
      }
      var changed, ps := !st.serving, st.ps;
      var k := BuildPsKey(a.ps);
      if Some(k) != standby.psKey {
        ps, changed := a.ps, true;
      }
      var t := BuildRawKey(a.tags);
      if Some(t) != standby.tagsKey {
        changed := true;
      }
      standby := standby.(fails := 0, psKey := Some(k), tagsKey := Some(t));
      if !changed {
        return;
      }
      st := Report(true, "", st.rev + 1, a.tags + heldTags, ps, Held, true, st.blocked);
      have := true;
    }
  }
}
