/** Whole runs of hellos, reports, downloads, orders and rollout rounds: which orders go out, and when. */
module RolloutRuns {
  import opened Common
  import opened Rollout

  /** Admin: approval, policy and renaming by the operator; Forget: a deleted node; Net: whatever the connections do. */
  datatype Event =
    | Hello(fp: Fp, name: string, facts: Facts, now: real)
    | Told(name: string, r: Report, now: real)
    | Download(fp: Fp, now: real)
    | Order(fp: Fp, force: bool, m: Option<Manifest>, now: real)
    | Round(cfg: Config, m: Option<Manifest>, blocked: string -> bool, now: real, again: Fp -> Attempt)
    | Admin(fp: Fp, name: string, approved: bool, auto: bool)
    | Forget(fp: Fp)
    | Net(nodes: map<string, Node>)

  function Dropped(fps: seq<Fp>, fp: Fp): seq<Fp>
    decreases |fps|
  {
    if fps == [] then [] else (if fps[0] == fp then [] else [fps[0]]) + Dropped(fps[1..], fp)
  }

  function After(s: State, e: Event): State {
    match e
    case Hello(fp, name, facts, now) => AfterHello(s, fp, name, facts, now)
    case Told(name, r, now) => AfterReport(s, name, r, now)
    case Download(fp, now) => AfterDownload(s, fp, now)
    case Order(fp, force, m, now) => AfterOrder(s, fp, force, false, m, now)
    case Round(cfg, m, blocked, now, again) => AfterRound(s, cfg, m, blocked, now, again)
    case Admin(fp, name, approved, auto) =>
      if fp in s.reg then s.(reg := s.reg[fp := s.reg[fp].(name := name, approved := approved, auto := auto)]) else s
    case Forget(fp) => s.(order := Dropped(s.order, fp), reg := s.reg - {fp})
    case Net(nodes) => s.(nodes := nodes)
  }

  const START: State := State([], map[], map[], [])

  function RunOf(es: seq<Event>): State
    decreases |es|
  {
    if es == [] then START else After(RunOf(es[..|es| - 1]), es[|es| - 1])
  }

  // ---- a round ----

  /** A round changes nothing, or sends one order to a node it may pick. */
  lemma {:induction false} RolledOnce(s: State, cfg: Config, m: Manifest, blocked: string -> bool, now: real,
                                      again: Fp -> Attempt, fps: seq<Fp>)
    ensures var t := Rolled(s, cfg, m, blocked, now, again, fps);
      t == s || exists fp :: fp in fps && RoundOrders(s, cfg, m, blocked, now, again, fp, t)
    decreases |fps|
  {
    hide Picks, Grants;
    if fps != [] {
      RolledOnce(s, cfg, m, blocked, now, again, fps[1..]);
      var t := Rolled(s, cfg, m, blocked, now, again, fps);
      if Picks(s, cfg, m, blocked, now, fps[0]) && Grants(s, fps[0], false, again(fps[0]).m, again(fps[0]).now) {
        assert RoundOrders(s, cfg, m, blocked, now, again, fps[0], t);
      } else if t != s {
        var fp :| fp in fps[1..] && RoundOrders(s, cfg, m, blocked, now, again, fp, t);
        assert fp in fps;
      }
    }
  }

  predicate RoundOrders(s: State, cfg: Config, m: Manifest, blocked: string -> bool, now: real, again: Fp -> Attempt, fp: Fp, t: State) {
    && Picks(s, cfg, m, blocked, now, fp) && Grants(s, fp, false, again(fp).m, again(fp).now)
    && t == Ordered(s, fp, false, true, again(fp).m.value.version, again(fp).now)
  }

  /** A round sends at most one order. It goes to an approved, connected, idle node that may update itself and has neither a
      fresh order nor a fresh failure of this version. */
  lemma RoundSendsAtMostOne(s: State, cfg: Config, m: Option<Manifest>, blocked: string -> bool, now: real, again: Fp -> Attempt)
    ensures var t := AfterRound(s, cfg, m, blocked, now, again);
      t == s || (cfg.enabled && m.Some? && |t.sent| == |s.sent| + 1 &&
        var fp := t.sent[|s.sent|].fp;
        && t.sent == s.sent + [Sent(fp, t.sent[|s.sent|].version, again(fp).now, false, true)]
        && fp in s.reg && s.reg[fp].name in s.nodes
        && var e, node := s.reg[fp], s.nodes[s.reg[fp].name];
        && e.approved && e.auto && node.connected && node.fp == fp && node.inflight == 0 && node.mode == "free"
        && !(e.update.state in {"requested", "downloading", "applied"} && again(fp).now - e.update.t < 900.0)
        && var byPolicy := if e.update.kind.Some? then e.update.kind.value == "app_control" else blocked(e.update.message);
        && !(e.update.version == m.value.version && e.update.state == "failed" && now - e.update.t < if byPolicy then 1800.0 else 21600.0)
        && (forall other :: other in s.reg && other != fp ==> other in t.reg && t.reg[other] == s.reg[other]))
  {
    hide CanaryClean;
    if cfg.enabled && m.Some? {
      RolledOnce(s, cfg, m.value, blocked, now, again, s.order);
      var t := AfterRound(s, cfg, m, blocked, now, again);
      if t != s {
        var fp :| fp in s.order && RoundOrders(s, cfg, m.value, blocked, now, again, fp, t);
        assert t.sent[|s.sent|] == Sent(fp, again(fp).m.value.version, again(fp).now, false, true);
      }
    }
  }

  // ---- what the canary has done ----

  datatype Greeting = Greeting(version: string, at: real)

  /** The hellos of one agent, in order, since it was last deleted. */
  function Heard(es: seq<Event>, fp: Fp): seq<Greeting>
    decreases |es|
  {
    if es == [] then []
    else
      var e := es[|es| - 1];
      if e == Forget(fp) then []
      else Heard(es[..|es| - 1], fp) + (if e.Hello? && e.fp == fp then [Greeting(e.facts.version, e.now)] else [])
  }

  /** The time of the first of the last hellos that all name the same version. */
  function StreakStart(h: seq<Greeting>): real
    requires h != []
    decreases |h|
  {
    var n := |h| - 1;
    if n == 0 || h[n - 1].version != h[n].version then h[n].at else StreakStart(h[..n])
  }

  /** The register knows an agent's last version and, to the second, since when it has been running it. */
  predicate Remembers(s: State, fp: Fp, h: seq<Greeting>) {
    && (fp in s.reg <==> h != [])
    && (h != [] ==> s.reg[fp].facts.version == h[|h| - 1].version)
    && (h != [] && h[|h| - 1].version != "" ==> s.reg[fp].since == Some(StreakStart(h).Floor))
  }

  /** Nothing but a hello of this agent touches its facts. */
  predicate SameFacts(s: State, t: State, fp: Fp) {
    (fp in s.reg <==> fp in t.reg) && (fp in s.reg ==> s.reg[fp].facts == t.reg[fp].facts && s.reg[fp].since == t.reg[fp].since)
  }

  /** An order or a round leaves everything, or is one order to a known node. */
  lemma OrderOrNot(s: State, e: Event) returns (fp: Fp, force: bool, auto: bool, version: string, at: real)
    requires e.Order? || e.Round?
    ensures After(s, e) == s
         || (fp in s.reg && s.reg[fp].name in s.nodes && After(s, e) == Ordered(s, fp, force, auto, version, at))
  {
    hide Picks, Grants, Ordered;
    fp, force, auto, version, at := "", false, false, "", 0.0;
    if e.Order? {
      if Grants(s, e.fp, e.force, e.m, e.now) {
        GrantsKnown(s, e.fp, e.force, e.m, e.now);
        fp, force, auto, version, at := e.fp, e.force, false, e.m.value.version, e.now;
      }
    } else if e.cfg.enabled && e.m.Some? && After(s, e) != s {
      RolledOnce(s, e.cfg, e.m.value, e.blocked, e.now, e.again, s.order);
      fp :| fp in s.order && RoundOrders(s, e.cfg, e.m.value, e.blocked, e.now, e.again, fp, After(s, e));
      GrantsKnown(s, fp, false, e.again(fp).m, e.again(fp).now);
      force, auto, version, at := false, true, e.again(fp).m.value.version, e.again(fp).now;
    }
  }

  lemma OthersKeepFacts(s: State, e: Event, fp: Fp)
    requires !(e.Hello? && e.fp == fp) && e != Forget(fp)
    ensures SameFacts(s, After(s, e), fp)
  {
    hide Taken, Changed;
    if e.Order? || e.Round? {
      var x, force, auto, version, at := OrderOrNot(s, e);
      hide AfterOrder, AfterRound;
      assert After(s, e) == s || After(s, e) == Ordered(s, x, force, auto, version, at);
    }
  }

  lemma RunPush(es: seq<Event>, e: Event)
    ensures RunOf(es + [e]) == After(RunOf(es), e)
  {
    assert (es + [e])[..|es|] == es;
  }

  lemma GrantsKnown(s: State, fp: Fp, force: bool, m: Option<Manifest>, now: real)
    requires Grants(s, fp, force, m, now)
    ensures fp in s.reg && s.reg[fp].name in s.nodes && m.Some?
  {
  }

  lemma HelloRemembers(s: State, e: Event, h: seq<Greeting>)
    requires e.Hello? && Remembers(s, e.fp, h)
    ensures Remembers(After(s, e), e.fp, h + [Greeting(e.facts.version, e.now)])
  {
    var next := h + [Greeting(e.facts.version, e.now)];
    assert next[..|h|] == h;
  }

  lemma {:induction false} RunRemembers(es: seq<Event>, fp: Fp)
    ensures Remembers(RunOf(es), fp, Heard(es, fp))
    decreases |es|
  {
    if es != [] {
      hide AfterHello, AfterReport, AfterDownload, AfterOrder, AfterRound;
      var front, e := es[..|es| - 1], es[|es| - 1];
      RunRemembers(front, fp);
      if e.Hello? && e.fp == fp {
        HelloRemembers(RunOf(front), e, Heard(front, fp));
      } else if e == Forget(fp) {
        assert fp !in After(RunOf(front), e).reg;
      } else {
        OthersKeepFacts(RunOf(front), e, fp);
        assert Heard(es, fp) == Heard(front, fp);
      }
    }
  }

  /** The canary is online, and its last hellos have all named this version for the clean time less `slack`. */
  predicate CanaryRan(s: State, es: seq<Event>, cfg: Config, version: string, now: real, slack: real) {
    var c := ByName(s, s.order, cfg.canary);
    && c.Some? && RanFor(Heard(es, c.value), version, cfg.cleanHours * 3600.0 - slack, now)
    && cfg.canary in s.nodes && s.nodes[cfg.canary].mode != "offline"
  }

  predicate RanFor(h: seq<Greeting>, version: string, span: real, now: real) {
    h != [] && h[|h| - 1].version == version && now - StreakStart(h) > span
  }

  lemma {:induction false} ByNameIs(s: State, fps: seq<Fp>, name: string)
    ensures var fp := ByName(s, fps, name); fp.Some? ==> fp.value in fps && fp.value in s.reg && s.reg[fp.value].name == name
    decreases |fps|
  {
    if fps != [] {
      ByNameIs(s, fps[1..], name);
    }
  }

  /** The clean check is exact to the second that the stamp drops. */
  lemma CleanMeansRan(es: seq<Event>, cfg: Config, version: string, now: real)
    requires version != "" && CanaryClean(RunOf(es), cfg, version, now)
    ensures CanaryRan(RunOf(es), es, cfg, version, now, 1.0)
  {
    hide RunOf, Heard, StreakStart;
    var s := RunOf(es);
    var c := ByName(s, s.order, cfg.canary).value;
    ByNameIs(s, s.order, cfg.canary);
    RunRemembers(es, c);
    var start := StreakStart(Heard(es, c));
    assert start.Floor as real <= start < start.Floor as real + 1.0;
    assert RanFor(Heard(es, c), version, cfg.cleanHours * 3600.0 - 1.0, now);
  }

  /** With a canary, every automatic order to another node carries a version the canary has been running, at the time of the
      round, for the clean time less one second at most - exactly if both reads of the manifest in the round name one version. */
  lemma AutomaticOrdersFollowCanary(es: seq<Event>, cfg: Config, m: Option<Manifest>, blocked: string -> bool, now: real,
                                    again: Fp -> Attempt)
    requires cfg.canary != "" && (m.Some? ==> m.value.version != "")
    ensures var s, t := RunOf(es), RunOf(es + [Round(cfg, m, blocked, now, again)]);
      t.sent == s.sent || (m.Some? && |t.sent| == |s.sent| + 1 &&
        var x := t.sent[|s.sent|];
        && x.fp in s.reg && again(x.fp).m.Some? && x.version == again(x.fp).m.value.version
        && (s.reg[x.fp].name == cfg.canary || (CanaryRan(s, es, cfg, x.version, now, 1.0) <==> x.version == m.value.version)))
  {
    hide Grants, RunOf, Heard, StreakStart;
    var s, e := RunOf(es), Round(cfg, m, blocked, now, again);
    RunPush(es, e);
    var t := AfterRound(s, cfg, m, blocked, now, again);
    if cfg.enabled && m.Some? {
      RolledOnce(s, cfg, m.value, blocked, now, again, s.order);
      if t != s {
        var fp :| fp in s.order && RoundOrders(s, cfg, m.value, blocked, now, again, fp, t);
        GrantsKnown(s, fp, false, again(fp).m, again(fp).now);
        if s.reg[fp].name != cfg.canary {
          assert CanaryClean(s, cfg, m.value.version, now);
          CleanMeansRan(es, cfg, m.value.version, now);
        }
      }
    }
  }

  // ---- orders to one node are spaced ----

  ghost predicate TimeOf(e: Event, from: real, to: real) {
    match e
    case Hello(_, _, _, now) => from <= now <= to
    case Told(_, _, now) => from <= now <= to
    case Download(_, now) => from <= now <= to
    case Order(_, _, _, now) => from <= now <= to
    case Round(_, _, _, now, again) => from <= now <= to && forall fp :: now <= again(fp).now <= to
    case Admin(_, _, _, _) => from <= to
    case Forget(_) => from <= to
    case Net(_) => from <= to
  }

  /** clock[k] is a time between the events k - 1 and k. */
  ghost predicate Clocked(es: seq<Event>, clock: seq<real>) {
    |clock| == |es| + 1 && forall k :: 0 <= k < |es| ==> TimeOf(es[k], clock[k], clock[k + 1])
  }

  /** The update block of a node is never older than the orders to it. */
  predicate Dated(s: State, now: real) {
    forall i :: 0 <= i < |s.sent| ==> DatedOne(s, s.sent[i], now)
  }

  predicate DatedOne(s: State, x: Sent, now: real) {
    x.at <= now && (x.fp in s.reg && s.reg[x.fp].update.state != "" ==> x.at <= s.reg[x.fp].update.t)
  }

  lemma OrderedDated(s: State, fp: Fp, force: bool, auto: bool, version: string, now: real, from: real, to: real)
    requires fp in s.reg && s.reg[fp].name in s.nodes && from <= now <= to && Dated(s, from)
    ensures Dated(Ordered(s, fp, force, auto, version, now), to)
  {
  }

  /** What is not an order keeps the orders, and changes an update block only to the present. */
  lemma QuietDated(s: State, t: State, from: real, to: real)
    requires Dated(s, from) && from <= to && t.sent == s.sent
    requires forall fp :: fp in t.reg ==>
      t.reg[fp].update.state == "" || t.reg[fp].update.t >= from || (fp in s.reg && t.reg[fp].update == s.reg[fp].update)
    ensures Dated(t, to)
  {
  }

  lemma StepKeepsDated(s: State, e: Event, from: real, to: real)
    requires Dated(s, from) && TimeOf(e, from, to)
    ensures Dated(After(s, e), to)
  {
    hide Picks, Grants, Ordered, Taken, Changed;
    match e {
      case Order(fp, force, m, now) =>
        if Grants(s, fp, force, m, now) {
          GrantsKnown(s, fp, force, m, now);
          OrderedDated(s, fp, force, false, m.value.version, now, from, to);
        } else {
          QuietDated(s, s, from, to);
        }
      case Round(cfg, m, blocked, now, again) =>
        if cfg.enabled && m.Some? {
          RolledOnce(s, cfg, m.value, blocked, now, again, s.order);
          var t := AfterRound(s, cfg, m, blocked, now, again);
          if t != s {
            var fp :| fp in s.order && RoundOrders(s, cfg, m.value, blocked, now, again, fp, t);
            GrantsKnown(s, fp, false, again(fp).m, again(fp).now);
            OrderedDated(s, fp, false, true, again(fp).m.value.version, again(fp).now, from, to);
          }
        }
        if After(s, e) == s {
          QuietDated(s, s, from, to);
        }
      case _ => QuietDated(s, After(s, e), from, to);
    }
  }

  lemma {:induction false} RunIsDated(es: seq<Event>, clock: seq<real>)
    requires Clocked(es, clock)
    ensures Dated(RunOf(es), clock[|es|])
    decreases |es|
  {
    if es != [] {
      hide Dated, TimeOf, After;
      var n := |es| - 1;
      assert Clocked(es[..n], clock[..n + 1]);
      RunIsDated(es[..n], clock[..n + 1]);
      StepKeepsDated(RunOf(es[..n]), es[n], clock[n], clock[n + 1]);
    } else {
      StartIsDated(clock[0]);
    }
  }

  lemma StartIsDated(now: real)
    ensures Dated(START, now)
  {
  }

  /** An order that is not forced goes out only if every earlier order to that node is at least 15 minutes old, or the node's
      order has been settled since: the agent said so, or logged in with the version. */
  lemma OrdersAreSpaced(es: seq<Event>, clock: seq<real>, fp: Fp, m: Option<Manifest>, now: real, i: nat)
    requires Clocked(es, clock) && Grants(RunOf(es), fp, false, m, now)
    requires i < |RunOf(es).sent| && RunOf(es).sent[i].fp == fp
    ensures now - RunOf(es).sent[i].at >= 900.0 || RunOf(es).reg[fp].update.state !in {"requested", "downloading", "applied"}
  {
    RunIsDated(es, clock);
    assert DatedOne(RunOf(es), RunOf(es).sent[i], clock[|es|]);
  }

  // ---- an order stays what it is ----

  /** A report for another version leaves everything as it was. */
  lemma ForeignReportChangesNothing(s: State, name: string, r: Report, now: real)
    requires name in s.nodes && s.nodes[name].fp in s.reg
    requires var u := s.reg[s.nodes[name].fp].update; r.version != "" && u.version != "" && r.version != u.version
    ensures AfterReport(s, name, r, now) == s
  {
  }

  /** Whatever agents say, the version of a node's order changes only with a new order to it. */
  lemma OnlyOrdersChangeVersion(s: State, e: Event, fp: Fp)
    requires fp in s.reg && s.reg[fp].update.version != "" && e != Forget(fp)
    ensures var t := After(s, e);
      fp in t.reg && (t.reg[fp].update.version == s.reg[fp].update.version || (|t.sent| == |s.sent| + 1 && t.sent[|s.sent|].fp == fp))
  {
    hide Taken, Changed;
    if e.Order? || e.Round? {
      var x, force, auto, version, at := OrderOrNot(s, e);
      hide AfterOrder, AfterRound;
      assert After(s, e) == s || After(s, e) == Ordered(s, x, force, auto, version, at);
    }
  }

  // ---- where the rollout promises more than it keeps ----

  function FactsOf(version: string): Facts { Facts("linux", "amd64", version) }

  function ManifestOf(version: string): Manifest { Manifest(version, {("linux", "amd64")}, true) }

  /** The canary logs in with one version at 0.9 s, the other node with another; both are approved and idle. */
  function TwoNodes(first: string, other: string): seq<Event> {
    [Hello("c", "canary", FactsOf(first), 0.9), Hello("n", "node", FactsOf(other), 1.0),
     Admin("c", "canary", true, true), Admin("n", "node", true, true),
     Net(map["canary" := Node("c", true, 0, "free", 0.0), "node" := Node("n", true, 0, "free", 0.0)])]
  }

  function TwoState(first: string, other: string): State {
    State(["c", "n"],
          map["c" := Entry("canary", true, true, FactsOf(first), Some(0), NO_UPDATE),
              "n" := Entry("node", true, true, FactsOf(other), Some(1), NO_UPDATE)],
          map["canary" := Node("c", true, 0, "free", 0.0), "node" := Node("n", true, 0, "free", 0.0)], [])
  }

  lemma TwoNodesIs(first: string, other: string)
    requires first != "" && other != ""
    ensures RunOf(TwoNodes(first, other)) == TwoState(first, other)
  {
    var es := TwoNodes(first, other);
    var s1 := After(START, es[0]);
    var s2 := After(s1, es[1]);
    var s3 := After(s2, es[2]);
    var s4 := After(s3, es[3]);
    assert es[..4][..3][..2][..1] == [es[0]];
    assert RunOf(es[..0]) == START;
    assert es[..1][..0] == es[..0] && es[..2][..1] == es[..1] && es[..3][..2] == es[..2] && es[..4][..3] == es[..3];
    assert RunOf(es[..1]) == s1;
    assert RunOf(es[..2]) == s2;
    assert RunOf(es[..3]) == s3;
    assert RunOf(es[..4]) == s4;
    assert 0.9.Floor == 0 && 1.0.Floor == 1;
  }

  predicate NotBlocked(message: string) { false }

  /** The round at the end of the clean time; its two reads of the manifest see these versions. */
  function TwoRound(hours: real, first: string, second: string): Event {
    Round(Config(true, "canary", hours), Some(ManifestOf(first)), NotBlocked, hours * 3600.0,
          fp => Attempt(Some(ManifestOf(second)), hours * 3600.0))
  }

  /** It orders the version of the second read for the node that is not the canary. */
  lemma RoundOverTwo(hours: real, first: string, other: string, second: string)
    requires first != "" && other != "" && other != first && other != second
    ensures After(TwoState(first, other), TwoRound(hours, first, second)) ==
      Ordered(TwoState(first, other), "n", false, true, second, hours * 3600.0)
  {
    var cfg, m, s, now := Config(true, "canary", hours), ManifestOf(first), TwoState(first, other), hours * 3600.0;
    var again := fp => Attempt(Some(ManifestOf(second)), now);
    assert ByName(s, s.order, "canary") == Some("c");
    assert !Picks(s, cfg, m, NotBlocked, now, "c");
    assert CanaryClean(s, cfg, first, now);
    assert Picks(s, cfg, m, NotBlocked, now, "n") && Grants(s, "n", false, Some(ManifestOf(second)), now);
    assert s.order[1..] == ["n"];
    assert Rolled(s, cfg, m, NotBlocked, now, again, ["n"]) == Ordered(s, "n", false, true, second, now);
  }

  /** The canary logged in at 0.9 s, and the other node's order goes out when the clean time has passed since 0.0 s: the whole
      seconds of the stamp count. */
  lemma CleanTimeCanBeShort(hours: real, version: string, other: string)
    requires version != "" && other != "" && other != version
    ensures var t := RunOf(TwoNodes(version, other) + [TwoRound(hours, version, version)]);
      && t.sent == [Sent("n", version, hours * 3600.0, false, true)]
      && var h := Heard(TwoNodes(version, other), "c");
      h == [Greeting(version, 0.9)] && hours * 3600.0 - StreakStart(h) < hours * 3600.0
  {
    var es := TwoNodes(version, other);
    RunPush(es, TwoRound(hours, version, version));
    TwoNodesIs(version, other);
    RoundOverTwo(hours, version, other, version);
    hide RunOf, After;
    assert es[..4][..3][..2][..1] == [es[0]] && es[..4][..3][..2] == [es[0], es[1]];
    assert [es[0]][..0] == [] && [es[0], es[1]][..1] == [es[0]];
    assert Heard([], "c") == [];
    assert Heard([es[0]], "c") == [Greeting(version, 0.9)];
    assert Heard([es[0], es[1]], "c") == [Greeting(version, 0.9)];
    assert Heard(es[..3], "c") == Heard(es[..3][..2], "c");
    assert Heard(es[..4], "c") == Heard(es[..4][..3], "c");
    assert Heard(es, "c") == Heard(es[..4], "c");
  }

  /** Whatever two versions the two reads of one round see, and however long the clean time is: there is a run in which the
      second one is ordered though no node has ever run it. */
  lemma SecondReadEscapesCanary(hours: real, first: string, second: string)
    requires first != "" && second != "" && first != second
    ensures var es := TwoNodes(first, first + second);
      var t := RunOf(es + [TwoRound(hours, first, second)]);
      && t.sent == [Sent("n", second, hours * 3600.0, false, true)]
      && (forall i :: 0 <= i < |es| && es[i].Hello? ==> es[i].facts.version != second)
      && (forall fp :: fp in t.reg ==> t.reg[fp].facts.version != second)
  {
    var other := first + second;
    assert |other| > |first| && |other| > |second|;
    RunPush(TwoNodes(first, other), TwoRound(hours, first, second));
    TwoNodesIs(first, other);
    RoundOverTwo(hours, first, other, second);
    hide RunOf, After;
  }

  /** The clean check, exactly: online, the last hello named the version, and the clean time has passed since the whole second
      in which the first hello of that streak came. */
  lemma CanaryCleanIff(es: seq<Event>, cfg: Config, version: string, now: real, c: Fp)
    requires version != "" && cfg.canary != "" && ByName(RunOf(es), RunOf(es).order, cfg.canary) == Some(c)
    ensures Heard(es, c) != []
    ensures var s, h := RunOf(es), Heard(es, c);
      CanaryClean(s, cfg, version, now) <==>
        cfg.canary in s.nodes && s.nodes[cfg.canary].mode != "offline" && h[|h| - 1].version == version
        && now - StreakStart(h).Floor as real >= cfg.cleanHours * 3600.0
  {
    hide RunOf, Heard, StreakStart;
    ByNameIs(RunOf(es), RunOf(es).order, cfg.canary);
    RunRemembers(es, c);
  }

}
