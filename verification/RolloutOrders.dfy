/** What lies between two update orders to one agent, in terms of what the router heard; when an order goes out at all, when a round
    tries again after a failure, and what a login, a report and a download do to an order. */
module RolloutOrders {
  import opened Common
  import opened Rollout
  import opened RolloutRuns

  // ---- the states of an order, written out ----

  /** The agent is at it: the order is out, the file on its way, or the new binary in place. */
  predicate AtIt(state: string) { state == "requested" || state == "downloading" || state == "applied" }

  /** This event settles the order of an agent: its report of another state, for this version or none; its login with the version of
      the order; or its removal from the register. */
  predicate Settles(s: State, e: Event, fp: Fp)
    requires fp in s.reg
  {
    var u := s.reg[fp].update;
    match e
    case Told(name, r, _) =>
      && name in s.nodes && s.nodes[name].fp == fp
      && r.state != "" && !AtIt(r.state) && (r.version == "" || u.version == "" || r.version == u.version)
    case Hello(who, _, facts, _) => who == fp && facts.version == u.version
    case Forget(who) => who == fp
    case _ => false
  }

  /** After these events order i is out, and one of the later ones settled it. */
  ghost predicate SettledSince(es: seq<Event>, fp: Fp, i: nat) {
    exists k: nat :: k < |es| && SettledBy(es, fp, i, k)
  }

  ghost predicate SettledBy(es: seq<Event>, fp: Fp, i: nat, k: nat)
    requires k < |es|
  {
    var s := RunOf(es[..k]);
    i < |s.sent| && fp in s.reg && Settles(s, es[k], fp)
  }

  /** The agent has been at its order since this time or later. */
  predicate Pending(s: State, fp: Fp, at: real) {
    fp in s.reg && AtIt(s.reg[fp].update.state) && s.reg[fp].update.t >= at
  }

  lemma StepPends(s: State, e: Event, fp: Fp, at: real, from: real, to: real)
    requires Pending(s, fp, at) && at <= from && TimeOf(e, from, to)
    ensures Settles(s, e, fp) || Pending(After(s, e), fp, at)
  {
    if e.Order? || e.Round? {
      var x, force, auto, version, t := OrderOrNot(s, e);
      OrderTime(s, e, from, to);
      hide AfterOrder, AfterRound;
    }
  }

  /** An order that goes out with this event is stamped with its time. */
  lemma OrderTime(s: State, e: Event, from: real, to: real)
    requires (e.Order? || e.Round?) && TimeOf(e, from, to)
    ensures After(s, e) == s
         || (|After(s, e).sent| == |s.sent| + 1
             && var x := After(s, e).sent[|s.sent|];
             && x.fp in s.reg && x.fp in After(s, e).reg && from <= x.at <= to && After(s, e).sent == s.sent + [x]
             && After(s, e).reg == s.reg[x.fp := s.reg[x.fp].(update := Update(x.version, "requested", "", x.at, None))])
  {
    hide Picks, Grants;
    if e.Order? {
      if Grants(s, e.fp, e.force, e.m, e.now) {
        GrantsKnown(s, e.fp, e.force, e.m, e.now);
      }
    } else if e.cfg.enabled && e.m.Some? && After(s, e) != s {
      RolledOnce(s, e.cfg, e.m.value, e.blocked, e.now, e.again, s.order);
      var fp :| fp in s.order && RoundOrders(s, e.cfg, e.m.value, e.blocked, e.now, e.again, fp, After(s, e));
      GrantsKnown(s, fp, false, e.again(fp).m, e.again(fp).now);
    }
  }

  /** Orders stay in the list, and only an order joins it. */
  lemma SentGrows(s: State, e: Event)
    ensures s.sent <= After(s, e).sent && (After(s, e).sent != s.sent ==> e.Order? || e.Round?)
  {
    hide Picks, Grants, Taken, Changed;
    if e.Order? || e.Round? {
      var x, force, auto, version, t := OrderOrNot(s, e);
      hide AfterOrder, AfterRound;
    }
  }

  lemma SettledStays(es: seq<Event>, e: Event, fp: Fp, i: nat)
    requires SettledSince(es, fp, i)
    ensures SettledSince(es + [e], fp, i)
  {
    var k: nat :| k < |es| && SettledBy(es, fp, i, k);
    hide RunOf, Settles;
    assert (es + [e])[..k] == es[..k] && (es + [e])[k] == es[k];
    assert SettledBy(es + [e], fp, i, k);
  }

  /** Every order is still what the agent is at, or was settled since. */
  lemma {:induction false} PendingOrSettled(es: seq<Event>, clock: seq<real>, fp: Fp, i: nat)
    requires Clocked(es, clock) && i < |RunOf(es).sent| && RunOf(es).sent[i].fp == fp
    ensures SettledSince(es, fp, i) || Pending(RunOf(es), fp, RunOf(es).sent[i].at)
    decreases |es|
  {
    if es != [] {
      var n := |es| - 1;
      var front, e, was := es[..n], es[n], clock[..n + 1];
      assert Clocked(front, was) && TimeOf(e, clock[n], clock[n + 1]) && es == front + [e];
      RunPush(front, e);
      SentGrows(RunOf(front), e);
      RunIsDated(front, was);
      var s := RunOf(front);
      hide RunOf, After, Settles, SettledSince, Pending, Clocked, TimeOf, Dated;
      if i < |s.sent| {
        PendingOrSettled(front, was, fp, i);
        if SettledSince(front, fp, i) {
          SettledStays(front, e, fp, i);
        } else {
          DatedAt(s, i, was[n]);
          StepPends(s, e, fp, s.sent[i].at, clock[n], clock[n + 1]);
          if Settles(s, e, fp) {
            SettledNow(front, e, fp, i);
          }
        }
      } else {
        OrderTime(s, e, clock[n], clock[n + 1]);
        OrderPends(s, e, fp, i, clock[n], clock[n + 1]);
      }
    }
  }

  lemma DatedAt(s: State, i: nat, now: real)
    requires Dated(s, now) && i < |s.sent|
    ensures s.sent[i].at <= now
  {
    assert DatedOne(s, s.sent[i], now);
  }

  lemma SettledNow(es: seq<Event>, e: Event, fp: Fp, i: nat)
    requires i < |RunOf(es).sent| && fp in RunOf(es).reg && Settles(RunOf(es), e, fp)
    ensures SettledSince(es + [e], fp, i)
  {
    assert (es + [e])[..|es|] == es;
    assert SettledBy(es + [e], fp, i, |es|);
  }

  lemma OrderPends(s: State, e: Event, fp: Fp, i: nat, from: real, to: real)
    requires (e.Order? || e.Round?) && TimeOf(e, from, to) && After(s, e) != s
    requires i == |s.sent| && i < |After(s, e).sent| && After(s, e).sent[i].fp == fp
    ensures Pending(After(s, e), fp, After(s, e).sent[i].at)
  {
    OrderTime(s, e, from, to);
  }

  /** An order that is not forced comes less than 15 minutes after an earlier one to the same agent only if the agent's report, its
      login or its removal settled that one in between. */
  lemma EarlyOrderIsSettled(es: seq<Event>, clock: seq<real>, fp: Fp, m: Option<Manifest>, now: real, i: nat)
    requires Clocked(es, clock) && Grants(RunOf(es), fp, false, m, now)
    requires i < |RunOf(es).sent| && RunOf(es).sent[i].fp == fp && now - RunOf(es).sent[i].at < 900.0
    ensures SettledSince(es, fp, i)
  {
    hide RunOf, SettledSince;
    PendingOrSettled(es, clock, fp, i);
  }

  // ---- when an order goes out ----

  /** order_update sends exactly one order, or leaves everything as it was. It needs an approved agent on its own connection, a
      trusted manifest and a file for its system; unless forced, also another version than it runs, no request in progress, and no
      order of the last 15 minutes that the agent is at. */
  lemma OrderGoesOutIff(s: State, fp: Fp, force: bool, auto: bool, m: Option<Manifest>, now: real)
    ensures var t := AfterOrder(s, fp, force, auto, m, now);
      var ready := fp in s.reg && s.reg[fp].approved && s.reg[fp].name in s.nodes
                   && s.nodes[s.reg[fp].name].fp == fp && s.nodes[s.reg[fp].name].connected;
      var possible := ready && m.Some? && m.value.trusted && (s.reg[fp].facts.os, s.reg[fp].facts.arch) in m.value.files;
      var needed := possible && s.reg[fp].facts.version != m.value.version && s.nodes[s.reg[fp].name].inflight == 0
                    && !(AtIt(s.reg[fp].update.state) && now < s.reg[fp].update.t + 900.0);
      if (if force then possible else needed)
      then && t.sent == s.sent + [Sent(fp, m.value.version, now, force, auto)]
           && t.reg[fp].update.version == m.value.version && AtIt(t.reg[fp].update.state) && t.reg[fp].update.t == now
           && t.nodes[s.reg[fp].name].drainingUntil == now + 600.0
      else t == s
  {
  }

  // ---- rounds ----

  /** An automatic order for a version whose last order failed or stalled on the node waits: half an hour where the node's policy for
      programs blocked it, six hours otherwise. */
  lemma RoundWaitsAfterFailure(s: State, cfg: Config, m: Option<Manifest>, blocked: string -> bool, now: real, again: Fp -> Attempt)
    ensures var t := AfterRound(s, cfg, m, blocked, now, again);
      t == s || (|t.sent| == |s.sent| + 1 && m.Some? &&
        var fp := t.sent[|s.sent|].fp;
        && fp in s.reg && s.reg[fp].update.version == m.value.version && s.reg[fp].update.state in {"failed", "stalled"}
        ==> var u := s.reg[fp].update;
            var byPolicy := if u.kind.Some? then u.kind.value == "app_control" else blocked(u.message);
            now - u.t >= if byPolicy then 1800.0 else 21600.0)
  {
    hide CanaryClean, Grants;
    if cfg.enabled && m.Some? {
      RolledOnce(s, cfg, m.value, blocked, now, again, s.order);
      var t := AfterRound(s, cfg, m, blocked, now, again);
      if t != s {
        var fp :| fp in s.order && RoundOrders(s, cfg, m.value, blocked, now, again, fp, t);
        GrantsKnown(s, fp, false, again(fp).m, again(fp).now);
        assert t.sent[|s.sent|].fp == fp;
      }
    }
  }

  /** A node that may be picked and that order_update grants gets the order if no earlier one does. */
  lemma FirstGetsIt(s: State, cfg: Config, m: Manifest, blocked: string -> bool, now: real, again: Fp -> Attempt, fps: seq<Fp>)
    requires fps != []
    ensures Picks(s, cfg, m, blocked, now, fps[0]) && Grants(s, fps[0], false, again(fps[0]).m, again(fps[0]).now) ==>
      Rolled(s, cfg, m, blocked, now, again, fps).sent != s.sent
  {
  }

  /** Nobody is left out: if a round sends nothing, no node in the register may be picked and is granted the order. */
  lemma {:induction false} IdleRoundHasNobody(s: State, cfg: Config, m: Manifest, blocked: string -> bool, now: real,
                                              again: Fp -> Attempt, fps: seq<Fp>, i: nat)
    requires Rolled(s, cfg, m, blocked, now, again, fps).sent == s.sent && i < |fps|
    ensures !(Picks(s, cfg, m, blocked, now, fps[i]) && Grants(s, fps[i], false, again(fps[i]).m, again(fps[i]).now))
    decreases |fps|
  {
    FirstGetsIt(s, cfg, m, blocked, now, again, fps);
    hide Picks, Grants;
    if i > 0 {
      IdleRoundHasNobody(s, cfg, m, blocked, now, again, fps[1..], i - 1);
    }
  }

  /** Whom a round may pick, written out. */
  lemma PicksIff(s: State, cfg: Config, m: Manifest, blocked: string -> bool, now: real, fp: Fp)
    requires fp in s.reg && s.reg[fp].name in s.nodes
    ensures var e, node := s.reg[fp], s.nodes[s.reg[fp].name];
      var same, age := e.update.version == m.version, now - e.update.t;
      var byPolicy := if e.update.kind.Some? then e.update.kind.value == "app_control" else blocked(e.update.message);
      Picks(s, cfg, m, blocked, now, fp) <==>
        && e.approved && e.auto && e.facts.version != m.version && (e.facts.os, e.facts.arch) in m.files
        && node.connected && node.inflight == 0 && node.mode == "free"
        && !(same && AtIt(e.update.state) && age < 900.0)
        && !(same && e.update.state in {"failed", "stalled"} && age < if byPolicy then 1800.0 else 21600.0)
        && (cfg.canary == "" || e.name == cfg.canary || CanaryClean(s, cfg, m.version, now))
  {
    hide CanaryClean;
  }

  // ---- logins, reports and downloads ----

  /** A login with the version of an open order settles it as done; any login ends the drain of the node. */
  lemma LoginSettles(s: State, fp: Fp, name: string, facts: Facts, now: real)
    requires fp in s.reg
    ensures var t, u := AfterHello(s, fp, name, facts, now), s.reg[fp].update;
      && t.reg[fp].facts == facts
      && (u.version != "" && u.version == facts.version && u.state !in {"done", "failed"} ==>
            t.reg[fp].update.state == "done" && t.reg[fp].update.t == now && t.reg[fp].update.version == u.version)
      && (u.version == "" || u.version != facts.version || u.state in {"done", "failed"} ==> t.reg[fp].update == u)
      && (s.reg[fp].name in s.nodes ==> t.nodes[s.reg[fp].name].drainingUntil == 0.0)
  {
  }

  /** An agent's report replaces state, message, kind and time of its order, keeping the version - unless it repeats what is known,
      is for another version, or comes after "done" without being a failure. A failure ends the drain. */
  lemma ReportReplaces(s: State, name: string, r: Report, now: real)
    requires name in s.nodes && s.nodes[name].fp in s.reg
    ensures var t, fp := AfterReport(s, name, r, now), s.nodes[name].fp; var u := s.reg[fp].update;
      if r.state == "" || (u.state == "done" && r.state != "failed") || (r.version != "" && u.version != "" && r.version != u.version)
         || (r.state == u.state && r.message == u.message && r.kind == u.kind)
      then t == s
      else && t.reg[fp].update == Update(if u.version != "" then u.version else r.version, r.state, r.message, now, r.kind)
           && t.nodes[name].drainingUntil == (if r.state == "failed" then 0.0 else s.nodes[name].drainingUntil)
  {
    var fp := s.nodes[name].fp;
    assert s.reg[fp := s.reg[fp].(update := s.reg[fp].update)] == s.reg;
  }

  /** The download of the file moves a requested order on, and nothing else. */
  lemma DownloadMovesOn(s: State, fp: Fp, now: real)
    ensures var t := AfterDownload(s, fp, now);
      if fp in s.reg && s.reg[fp].update.state == "requested"
      then t.reg[fp].update.state == "downloading" && t.reg[fp].update.t == now && t.reg[fp].update.version == s.reg[fp].update.version
      else t == s
  {
  }
}
