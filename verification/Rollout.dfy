/** router/skirnir_router/agentupdate.py: orders to update an agent, what agents say about them, and the rollout round. Empty
    strings are missing fields. Times are reals; the stamp of a version change has whole seconds. */
module Rollout {
  import opened Common

  type Fp = string

  datatype Facts = Facts(os: string, arch: string, version: string)

  /** The `update` block of a register entry. */
  datatype Update = Update(version: string, state: string, message: string, t: real, kind: Option<string>)

  const NO_UPDATE: Update := Update("", "", "", 0.0, None)
  const NO_FACTS: Facts := Facts("", "", "")

  datatype Entry = Entry(name: string, approved: bool, auto: bool, facts: Facts, since: Option<int>, update: Update)

  datatype Node = Node(fp: Fp, connected: bool, inflight: nat, mode: string, drainingUntil: real)

  /** `trusted`: the signature fits the configured key, or no key is configured. */
  datatype Manifest = Manifest(version: string, files: set<(string, string)>, trusted: bool)

  datatype Report = Report(state: string, version: string, message: string, kind: Option<string>)

  /** canary "" = none. */
  datatype Config = Config(enabled: bool, canary: string, cleanHours: real)

  datatype Sent = Sent(fp: Fp, version: string, at: real, force: bool, auto: bool)

  /** `order`: the register's insertion order. */
  datatype State = State(order: seq<Fp>, reg: map<Fp, Entry>, nodes: map<string, Node>, sent: seq<Sent>)

  const DRAIN_S := 600.0
  const STALL_S := 900.0
  const APP_CONTROL_RETRY_S := 1800.0
  const RETRY_S := 21600.0

  predicate Live(u: Update) { u.state == "requested" || u.state == "downloading" || u.state == "applied" }

  predicate FileFor(m: Manifest, f: Facts) { (f.os, f.arch) in m.files }

  // ---- note_hello, note_report, the download ----

  function Greeted(e: Entry, facts: Facts, now: real): Entry {
    var u := e.update;
    e.(since := if facts.version != "" && facts.version != e.facts.version then Some(now.Floor) else e.since,
       update := if u.version != "" && u.state != "done" && u.state != "failed" && facts.version == u.version
                 then u.(state := "done", message := "laeuft mit " + facts.version, t := now) else u,
       facts := facts)
  }

  /** The drain ends when the agent logs in. */
  function Undrained(nodes: map<string, Node>, name: string): map<string, Node> {
    if name in nodes then nodes[name := nodes[name].(drainingUntil := 0.0)] else nodes
  }

  /** upsert_hello; `name` is the free name it finds for a new key. */
  function AfterHello(s: State, fp: Fp, name: string, facts: Facts, now: real): State {
    var e := if fp in s.reg then s.reg[fp] else Entry(name, false, false, NO_FACTS, None, NO_UPDATE);
    s.(order := if fp in s.reg then s.order else s.order + [fp],
       reg := s.reg[fp := Greeted(e, facts, now)],
       nodes := Undrained(s.nodes, e.name))
  }

  /** A report that is taken: none comes after "done" but a failure, and none for another version. */
  predicate Taken(u: Update, r: Report) {
    && r.state != ""
    && (u.state == "done" ==> r.state == "failed")
    && (r.version != "" && u.version != "" ==> r.version == u.version)
  }

  predicate Changed(u: Update, r: Report) { r.state != u.state || r.message != u.message || r.kind != u.kind }

  function Reported(u: Update, r: Report, now: real): Update {
    if Taken(u, r) && Changed(u, r)
    then Update(if u.version != "" then u.version else r.version, r.state, r.message, now, r.kind)
    else u
  }

  function AfterReport(s: State, name: string, r: Report, now: real): State {
    if name !in s.nodes || s.nodes[name].fp !in s.reg then s
    else
      var fp := s.nodes[name].fp;
      var u := s.reg[fp].update;
      s.(reg := s.reg[fp := s.reg[fp].(update := Reported(u, r, now))],
         nodes := if Taken(u, r) && Changed(u, r) && r.state == "failed" then Undrained(s.nodes, name) else s.nodes)
  }

  function AfterDownload(s: State, fp: Fp, now: real): State {
    if fp in s.reg && s.reg[fp].update.state == "requested"
    then s.(reg := s.reg[fp := s.reg[fp].(update := s.reg[fp].update.(state := "downloading", t := now))])
    else s
  }

  // ---- order_update ----

  /** The checks of order_update. */
  predicate Grants(s: State, fp: Fp, force: bool, m: Option<Manifest>, now: real) {
    && fp in s.reg && s.reg[fp].approved
    && s.reg[fp].name in s.nodes && s.nodes[s.reg[fp].name].fp == fp && s.nodes[s.reg[fp].name].connected
    && m.Some? && FileFor(m.value, s.reg[fp].facts)
    && (force || m.value.version != s.reg[fp].facts.version)
    && (force || !(Live(s.reg[fp].update) && now - s.reg[fp].update.t < STALL_S))
    && (force || s.nodes[s.reg[fp].name].inflight == 0)
    && m.value.trusted
  }

  function Ordered(s: State, fp: Fp, force: bool, auto: bool, version: string, now: real): State
    requires fp in s.reg && s.reg[fp].name in s.nodes
  {
    var name := s.reg[fp].name;
    s.(reg := s.reg[fp := s.reg[fp].(update := Update(version, "requested", "", now, None))],
       nodes := s.nodes[name := s.nodes[name].(drainingUntil := now + DRAIN_S)],
       sent := s.sent + [Sent(fp, version, now, force, auto)])
  }

  function AfterOrder(s: State, fp: Fp, force: bool, auto: bool, m: Option<Manifest>, now: real): State {
    if Grants(s, fp, force, m, now) then Ordered(s, fp, force, auto, m.value.version, now) else s
  }

  // ---- rollout_once ----

  /** The first entry with this name. */
  function ByName(s: State, fps: seq<Fp>, name: string): Option<Fp>
    decreases |fps|
  {
    if fps == [] then None
    else if fps[0] in s.reg && s.reg[fps[0]].name == name then Some(fps[0])
    else ByName(s, fps[1..], name)
  }

  predicate CanaryClean(s: State, cfg: Config, version: string, now: real) {
    var fp := ByName(s, s.order, cfg.canary);
    && cfg.canary != "" && fp.Some? && fp.value in s.reg
    && cfg.canary in s.nodes && s.nodes[cfg.canary].mode != "offline"
    && s.reg[fp.value].facts.version == version && s.reg[fp.value].since.Some?
    && now - s.reg[fp.value].since.value as real >= cfg.cleanHours * 3600.0
  }

  /** The older agents' failure texts are recognised by the caller of this model: `blocked` says so. */
  function RetryAfter(u: Update, blocked: string -> bool): real {
    if u.kind.Some? then if u.kind.value == "app_control" then APP_CONTROL_RETRY_S else RETRY_S
    else if blocked(u.message) then APP_CONTROL_RETRY_S else RETRY_S
  }

  /** The conditions of the round's loop, up to the order. */
  predicate Picks(s: State, cfg: Config, m: Manifest, blocked: string -> bool, now: real, fp: Fp) {
    && fp in s.reg
    && var e := s.reg[fp];
    var u := e.update;
    && e.approved && e.auto
    && e.facts.version != m.version && FileFor(m, e.facts)
    && !(u.version == m.version && Live(u) && now - u.t < STALL_S)
    && !(u.version == m.version && (u.state == "failed" || u.state == "stalled") && now - u.t < RetryAfter(u, blocked))
    && (e.name == cfg.canary || cfg.canary == "" || CanaryClean(s, cfg, m.version, now))
    && e.name in s.nodes && s.nodes[e.name].connected && s.nodes[e.name].inflight == 0 && s.nodes[e.name].mode == "free"
  }

  /** order_update loads the manifest and reads the clock again. */
  datatype Attempt = Attempt(m: Option<Manifest>, now: real)

  function Rolled(s: State, cfg: Config, m: Manifest, blocked: string -> bool, now: real, again: Fp -> Attempt, fps: seq<Fp>): State
    decreases |fps|
  {
    if fps == [] then s
    else
      var a := again(fps[0]);
      if Picks(s, cfg, m, blocked, now, fps[0]) && Grants(s, fps[0], false, a.m, a.now)
      then Ordered(s, fps[0], false, true, a.m.value.version, a.now)
      else Rolled(s, cfg, m, blocked, now, again, fps[1..])
  }

  function AfterRound(s: State, cfg: Config, m: Option<Manifest>, blocked: string -> bool, now: real, again: Fp -> Attempt): State {
    if cfg.enabled && m.Some? then Rolled(s, cfg, m.value, blocked, now, again, s.order) else s
  }

  // ---- the register ----

  class Registry {
    var order: seq<Fp>
    var reg: map<Fp, Entry>
    var nodes: map<string, Node>
    var sent: seq<Sent>

    ghost function View(): State
      reads this
    {
      State(order, reg, nodes, sent)
    }

    constructor ()
      ensures View() == State([], map[], map[], [])
    {
      order, reg, nodes, sent := [], map[], map[], [];
    }

    method UpsertHello(fp: Fp, name: string, facts: Facts, now: real)
      modifies this
      ensures View() == AfterHello(old(View()), fp, name, facts, now)
    {
      if fp !in reg {
        order := order + [fp];
        reg := reg[fp := Entry(name, false, false, NO_FACTS, None, NO_UPDATE)];
      }
      var e := reg[fp];
      var called := e.name;
      if facts.version != "" && facts.version != e.facts.version {
        e := e.(since := Some(now.Floor));
      }
      var u := e.update;
      if u.version != "" && u.state != "done" && u.state != "failed" && facts.version == u.version {
        e := e.(update := u.(state := "done", message := "laeuft mit " + facts.version, t := now));
      }
      if called in nodes {
        nodes := nodes[called := nodes[called].(drainingUntil := 0.0)];
      }
      reg := reg[fp := e.(facts := facts)];
    }

    method NoteReport(name: string, r: Report, now: real)
      modifies this
      ensures View() == AfterReport(old(View()), name, r, now)
    {
      if name !in nodes || nodes[name].fp !in reg {
        return;
      }
      var fp := nodes[name].fp;
      var u := reg[fp].update;
      SameEntry(old(View()), fp);
      if r.state == "" {
        return;
      }
      if u.state == "done" && r.state != "failed" {
        return;
      }
      if r.version != "" && u.version != "" && r.version != u.version {
        return;
      }
      if r.state != u.state || r.message != u.message || r.kind != u.kind {
        u := Update(if u.version != "" then u.version else r.version, r.state, r.message, now, r.kind);
        reg := reg[fp := reg[fp].(update := u)];
        if r.state == "failed" {
          nodes := nodes[name := nodes[name].(drainingUntil := 0.0)];
        }
      }
    }

    method OrderUpdate(fp: Fp, force: bool, auto: bool, m: Option<Manifest>, now: real) returns (ok: bool)
      modifies this
      ensures View() == AfterOrder(old(View()), fp, force, auto, m, now)
      ensures ok == Grants(old(View()), fp, force, m, now)
    {
      if fp !in reg {
        return false;
      }
      var e := reg[fp];
      if !e.approved {
        return false;
      }
      if e.name !in nodes || nodes[e.name].fp != fp || !nodes[e.name].connected {
        return false;
      }
      if m.None? || !FileFor(m.value, e.facts) {
        return false;
      }
      var version := m.value.version;
      if version == e.facts.version && !force {
        return false;
      }
      if Live(e.update) && now - e.update.t < STALL_S && !force {
        return false;
      }
      var node := nodes[e.name];
      if node.inflight > 0 && !force {
        return false;
      }
      if !m.value.trusted {
        return false;
      }
      reg := reg[fp := e.(update := Update(version, "requested", "", now, None))];
      nodes := nodes[e.name := node.(drainingUntil := now + DRAIN_S)];
      sent := sent + [Sent(fp, version, now, force, auto)];
      return true;
    }

    method RolloutOnce(cfg: Config, m: Option<Manifest>, blocked: string -> bool, now: real, again: Fp -> Attempt)
      modifies this
      ensures View() == AfterRound(old(View()), cfg, m, blocked, now, again)
    {
      hide Picks, Grants;
      if !cfg.enabled || m.None? {
        return;
      }
      ghost var s := View();
      for i := 0 to |order|
        invariant View() == s
        invariant Rolled(s, cfg, m.value, blocked, now, again, s.order) == Rolled(s, cfg, m.value, blocked, now, again, s.order[i..])
      {
        assert s.order[i..][1..] == s.order[i + 1..];
        var fp := order[i];
        if Picks(State(order, reg, nodes, sent), cfg, m.value, blocked, now, fp) {
          var a := again(fp);
          var ok := OrderUpdate(fp, false, true, a.m, a.now);
          if ok {
            return;
          }
        }
      }
    }
  }

  lemma SameEntry(s: State, fp: Fp)
    requires fp in s.reg
    ensures s.reg[fp := s.reg[fp].(update := s.reg[fp].update)] == s.reg
  {
  }
}
