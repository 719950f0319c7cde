/** agent/mqtt.go: which Home Assistant entities a node announces, and how the retained configs in the broker follow.
    A topic is named by its object ID; the broker keeps what was published last and forgets it on an empty payload. */
module Discovery {
  import opened Common

  datatype Group = Stt | Alias | Gpu | Gpuz

  /** An entry of sensorDefs with its group, if it is not on every node, and its config. */
  datatype Def = Def(objID: string, group: Option<Group>, payload: string)

  datatype Config = Config(defs: seq<Def>, legacy: seq<string>)

  /** Object IDs are different, a config is not empty, and legacy IDs are no longer in use. */
  predicate Sound(c: Config) {
    && (forall i, k :: 0 <= i < k < |c.defs| ==> c.defs[i].objID != c.defs[k].objID)
    && (forall i :: 0 <= i < |c.defs| ==> c.defs[i].payload != "" && c.defs[i].objID !in c.legacy)
  }

  datatype Publish = Publish(objID: string, payload: string)

  datatype State = State(applies: map<Group, bool>, announced: map<string, bool>, legacyCleared: bool,
                         retained: map<string, string>, sent: seq<Publish>)

  /** wanted(): None while the group is undecided. */
  function Wanted(applies: map<Group, bool>, d: Def): Option<bool> {
    if d.group.None? then Some(true)
    else if d.group.value in applies then Some(applies[d.group.value])
    else None
  }

  function Published(s: State, objID: string, payload: string): State {
    s.(retained := if payload == "" then s.retained - {objID} else s.retained[objID := payload],
       sent := s.sent + [Publish(objID, payload)])
  }

  function SyncedOne(s: State, d: Def): State {
    match Wanted(s.applies, d)
    case None => s
    case Some(want) =>
      if d.objID in s.announced && s.announced[d.objID] == want then s
      else Published(s, d.objID, if want then d.payload else "").(announced := s.announced[d.objID := want])
  }

  function SyncedAll(s: State, defs: seq<Def>): State
    decreases |defs|
  {
    if defs == [] then s else SyncedAll(SyncedOne(s, defs[0]), defs[1..])
  }

  function Cleared(s: State, legacy: seq<string>): State
    decreases |legacy|
  {
    if legacy == [] then s else Cleared(Published(s, legacy[0], ""), legacy[1..])
  }

  function Synced(c: Config, s: State): State {
    var s1 := SyncedAll(s, c.defs);
    if s1.legacyCleared then s1 else Cleared(s1.(legacyCleared := true), c.legacy)
  }

  /** What one collection finds: the STT child, Ollama's answer about the alias (None: no answer), sensor values. */
  datatype Found = Found(stt: bool, openAI: bool, alias: Option<bool>, nvml: bool, gpuz: bool)

  function Collected(s: State, f: Found): State {
    var a0 := s.applies;
    var a1 := if f.nvml then a0[Gpu := true] else a0;
    var a2 := if f.gpuz then a1[Gpuz := true] else a1;
    var a3 := if f.openAI then a2[Alias := false] else if f.alias.Some? then a2[Alias := f.alias.value] else a2;
    s.(applies := a3[Stt := f.stt])
  }

  /** An entity without a group is on every node; one of a group follows what was decided for it, and waits until something was. */
  lemma WantedIs(applies: map<Group, bool>, d: Def)
    ensures d.group.None? ==> Wanted(applies, d) == Some(true)
    ensures d.group.Some? ==> (Wanted(applies, d).None? <==> d.group.value !in applies)
    ensures d.group.Some? && d.group.value in applies ==> Wanted(applies, d) == Some(applies[d.group.value])
  {
  }

  /** What a collection decides: the STT group by the child, the alias by the server - never where that is an OpenAI-compatible one,
      and not at all where Ollama gave no answer - and a sensor group as soon as it has values. */
  lemma CollectDecides(s: State, f: Found)
    ensures var now := Collected(s, f).applies;
      && Stt in now && now[Stt] == f.stt
      && (f.openAI ==> Alias in now && !now[Alias])
      && (!f.openAI && f.alias.Some? ==> Alias in now && now[Alias] == f.alias.value)
      && (!f.openAI && f.alias.None? ==> (Alias in now <==> Alias in s.applies) && (Alias in now ==> now[Alias] == s.applies[Alias]))
      && (f.nvml ==> Gpu in now && now[Gpu]) && (f.gpuz ==> Gpuz in now && now[Gpuz])
      && (!f.nvml ==> (Gpu in now <==> Gpu in s.applies) && (Gpu in now ==> now[Gpu] == s.applies[Gpu]))
      && (!f.gpuz ==> (Gpuz in now <==> Gpuz in s.applies) && (Gpuz in now ==> now[Gpuz] == s.applies[Gpuz]))
    ensures Collected(s, f) == s.(applies := Collected(s, f).applies)
  {
  }

  class MQTTModule {
    const config: Config
    var applies: map<Group, bool>
    var announced: map<string, bool>
    var legacyCleared: bool
    var retained: map<string, string>
    var sent: seq<Publish>

    ghost function View(): State
      reads this
    {
      State(applies, announced, legacyCleared, retained, sent)
    }

    constructor (config: Config, retained: map<string, string>)
      ensures View() == State(map[], map[], false, retained, []) && this.config == config
    {
      this.config, this.retained := config, retained;
      applies, announced, legacyCleared, sent := map[], map[], false, [];
    }

    method SetApplies(group: Group, yes: bool)
      modifies this`applies
      ensures applies == old(applies)[group := yes]
    {
      applies := applies[group := yes];
    }

    method Collect(f: Found)
      modifies this`applies
      ensures View() == Collected(old(View()), f)
    {
      if f.nvml {
        SetApplies(Gpu, true);
      }
      if f.gpuz {
        SetApplies(Gpuz, true);
      }
      if f.openAI {
        SetApplies(Alias, false);
      } else if f.alias.Some? {
        SetApplies(Alias, f.alias.value);
      }
      SetApplies(Stt, f.stt);
    }

    /** The client's publish and the broker's part of it. */
    method Send(objID: string, payload: string)
      modifies this`retained, this`sent
      ensures View() == Published(old(View()), objID, payload)
    {
      sent := sent + [Publish(objID, payload)];
      retained := if payload == "" then retained - {objID} else retained[objID := payload];
    }

    method SyncDiscovery()
      modifies this`announced, this`legacyCleared, this`retained, this`sent
      ensures View() == Synced(config, old(View()))
    {
      hide Published, Wanted;
      var defs := config.defs;
      for i := 0 to |defs|
        invariant SyncedAll(View(), defs[i..]) == SyncedAll(old(View()), defs)
      {
        assert defs[i..][1..] == defs[i + 1..];
        ghost var before := View();
        var d := defs[i];
        match Wanted(applies, d) {
          case None =>
          case Some(want) =>
            if !(d.objID in announced && announced[d.objID] == want) {
              Send(d.objID, if want then d.payload else "");
              announced := announced[d.objID := want];
              PublishedKeeps(before, d.objID, if want then d.payload else "");
            }
        }
        assert View() == SyncedOne(before, d);
      }
      assert defs[|defs|..] == [];
      ghost var s1 := View();
      var clear := !legacyCleared;
      legacyCleared := true;
      if clear {
        var legacy := config.legacy;
        for i := 0 to |legacy|
          invariant Cleared(View(), legacy[i..]) == Cleared(s1.(legacyCleared := true), legacy)
        {
          assert legacy[i..][1..] == legacy[i + 1..];
          Send(legacy[i], "");
        }
        assert legacy[|legacy|..] == [];
      }
    }

    /** The connect handler's first act; its collection and its sync follow. */
    method Connected()
      modifies this`announced
      ensures View() == old(View()).(announced := map[])
    {
      announced := map[];
    }
  }

  lemma PublishedKeeps(s: State, objID: string, payload: string)
    ensures var t := Published(s, objID, payload);
      t.applies == s.applies && t.announced == s.announced && t.legacyCleared == s.legacyCleared
  {
  }

  // ---- one sync ----

  /** The broker holds what was announced, and not what was taken back. */
  predicate Mirrors(c: Config, s: State) {
    forall i :: 0 <= i < |c.defs| ==> MirrorsOne(s, c.defs[i])
  }

  predicate MirrorsOne(s: State, d: Def) {
    d.objID in s.announced ==> Right(s.retained, d, s.announced[d.objID])
  }

  /** The entity is retained, with its own config, exactly if wanted. */
  predicate Right(retained: map<string, string>, d: Def, want: bool) {
    if want then d.objID in retained && retained[d.objID] == d.payload else d.objID !in retained
  }

  /** Every entity of a known group is retained exactly if wanted. */
  predicate Reconciled(c: Config, s: State) {
    forall i :: 0 <= i < |c.defs| && Wanted(s.applies, c.defs[i]).Some? ==>
      Right(s.retained, c.defs[i], Wanted(s.applies, c.defs[i]).value)
  }

  predicate SameAt(a: State, b: State, objID: string) {
    && (objID in a.retained <==> objID in b.retained) && (objID in a.retained ==> a.retained[objID] == b.retained[objID])
    && (objID in a.announced <==> objID in b.announced) && (objID in a.announced ==> a.announced[objID] == b.announced[objID])
  }

  lemma {:induction false} OthersUntouched(s: State, defs: seq<Def>, objID: string)
    requires forall i :: 0 <= i < |defs| && defs[i].objID == objID ==> Wanted(s.applies, defs[i]).None?
    ensures var t := SyncedAll(s, defs); SameAt(s, t, objID) && t.applies == s.applies && t.legacyCleared == s.legacyCleared
    decreases |defs|
  {
    if defs != [] {
      OthersUntouched(SyncedOne(s, defs[0]), defs[1..], objID);
    }
  }

  lemma {:induction false} SyncDecides(s: State, defs: seq<Def>, k: nat)
    requires k < |defs| && (forall i, j :: 0 <= i < j < |defs| ==> defs[i].objID != defs[j].objID)
    requires MirrorsOne(s, defs[k]) && defs[k].payload != ""
    ensures var t, want := SyncedAll(s, defs), Wanted(s.applies, defs[k]);
      && MirrorsOne(t, defs[k])
      && (want.Some? ==> defs[k].objID in t.announced && t.announced[defs[k].objID] == want.value
                         && Right(t.retained, defs[k], want.value))
    decreases |defs|
  {
    var next := SyncedOne(s, defs[0]);
    if k == 0 {
      OthersUntouched(next, defs[1..], defs[0].objID);
    } else {
      assert defs[1..][k - 1] == defs[k];
      SyncDecides(next, defs[1..], k - 1);
    }
  }

  lemma {:induction false} ClearedAt(s: State, legacy: seq<string>, objID: string)
    requires objID !in legacy
    ensures var t := Cleared(s, legacy); SameAt(s, t, objID) && t.applies == s.applies && t.announced == s.announced
    decreases |legacy|
  {
    if legacy != [] {
      ClearedAt(Published(s, legacy[0], ""), legacy[1..], objID);
    }
  }

  lemma {:induction false} LegacyGone(s: State, legacy: seq<string>, i: nat)
    requires i < |legacy|
    ensures legacy[i] !in Cleared(s, legacy).retained
    decreases |legacy|
  {
    if i > 0 {
      LegacyGone(Published(s, legacy[0], ""), legacy[1..], i - 1);
    } else if legacy[0] in legacy[1..] {
      var k :| 0 <= k < |legacy[1..]| && legacy[1..][k] == legacy[0];
      LegacyGone(Published(s, legacy[0], ""), legacy[1..], k);
    } else {
      ClearedAt(Published(s, legacy[0], ""), legacy[1..], legacy[0]);
    }
  }

  lemma SyncAt(c: Config, s: State, i: nat)
    requires Sound(c) && i < |c.defs| && MirrorsOne(s, c.defs[i])
    ensures var t, d := Synced(c, s), c.defs[i]; var want := Wanted(s.applies, d);
      && t.applies == s.applies && MirrorsOne(t, d)
      && (want.Some? ==> d.objID in t.announced && t.announced[d.objID] == want.value && Right(t.retained, d, want.value))
      && (want.None? ==> SameAt(s, t, d.objID))
  {
    var d, s1 := c.defs[i], SyncedAll(s, c.defs);
    SyncDecides(s, c.defs, i);
    OthersUntouched(s, [], d.objID);
    AppliesStay(s, c.defs);
    if Wanted(s.applies, d).None? {
      OthersUntouched(s, c.defs, d.objID);
    }
    ClearedAt(s1.(legacyCleared := true), c.legacy, d.objID);
  }

  lemma {:induction false} AppliesStay(s: State, defs: seq<Def>)
    ensures SyncedAll(s, defs).applies == s.applies
    decreases |defs|
  {
    if defs != [] {
      AppliesStay(SyncedOne(s, defs[0]), defs[1..]);
    }
  }

  /** After a sync every entity of a known group is retained exactly if wanted, whatever the broker held before, and the
      entities of undecided groups and all foreign topics are as they were. */
  lemma SyncReconciles(c: Config, s: State)
    requires Sound(c) && Mirrors(c, s)
    ensures var t := Synced(c, s);
      && Reconciled(c, t) && Mirrors(c, t) && t.applies == s.applies
      && (forall i :: 0 <= i < |c.defs| && Wanted(s.applies, c.defs[i]).None? ==> SameAt(s, t, c.defs[i].objID))
  {
    hide Sound, Synced, MirrorsOne, Right, SameAt, Wanted;
    var t := Synced(c, s);
    forall i | 0 <= i < |c.defs|
      ensures var d := c.defs[i]; var want := Wanted(s.applies, d);
        && MirrorsOne(t, d) && (want.Some? ==> Right(t.retained, d, want.value))
        && (want.None? ==> SameAt(s, t, d.objID))
    {
      SyncAt(c, s, i);
    }
    SyncKeepsApplies(c, s);
  }

  lemma {:induction false} ClearedKeepsApplies(s: State, legacy: seq<string>)
    ensures Cleared(s, legacy).applies == s.applies && Cleared(s, legacy).legacyCleared == s.legacyCleared
    decreases |legacy|
  {
    if legacy != [] {
      ClearedKeepsApplies(Published(s, legacy[0], ""), legacy[1..]);
    }
  }

  lemma SyncKeepsApplies(c: Config, s: State)
    ensures Synced(c, s).applies == s.applies && Synced(c, s).legacyCleared
  {
    AppliesStay(s, c.defs);
    ClearedKeepsApplies(SyncedAll(s, c.defs).(legacyCleared := true), c.legacy);
  }

  lemma ForeignTopicsStay(c: Config, s: State, objID: string)
    requires objID !in c.legacy && forall i :: 0 <= i < |c.defs| ==> c.defs[i].objID != objID
    ensures SameAt(s, Synced(c, s), objID)
  {
    OthersUntouched(s, c.defs, objID);
    ClearedAt(SyncedAll(s, c.defs).(legacyCleared := true), c.legacy, objID);
  }

  /** The first sync also removes the entities of older versions. */
  lemma FirstSyncClearsLegacy(c: Config, s: State, i: nat)
    requires i < |c.legacy| && !s.legacyCleared
    ensures c.legacy[i] !in Synced(c, s).retained
  {
    OthersUntouched(s, [], c.legacy[i]);
    LegacyFlagStays(s, c.defs);
    LegacyGone(SyncedAll(s, c.defs).(legacyCleared := true), c.legacy, i);
  }

  lemma {:induction false} LegacyFlagStays(s: State, defs: seq<Def>)
    ensures SyncedAll(s, defs).legacyCleared == s.legacyCleared
    decreases |defs|
  {
    if defs != [] {
      LegacyFlagStays(SyncedOne(s, defs[0]), defs[1..]);
    }
  }

  // ---- a repeated sync ----

  predicate Settled(s: State, defs: seq<Def>) {
    forall i :: 0 <= i < |defs| ==>
      var want := Wanted(s.applies, defs[i]);
      want.Some? ==> defs[i].objID in s.announced && s.announced[defs[i].objID] == want.value
  }

  lemma {:induction false} SettledIsSilent(s: State, defs: seq<Def>)
    requires Settled(s, defs)
    ensures SyncedAll(s, defs) == s
    decreases |defs|
  {
    if defs != [] {
      assert defs[0] == defs[0..][0];
      assert SyncedOne(s, defs[0]) == s;
      assert forall i :: 0 <= i < |defs[1..]| ==> defs[1..][i] == defs[i + 1];
      SettledIsSilent(s, defs[1..]);
    }
  }

  /** A second sync publishes nothing unless a group was decided anew in between. */
  lemma RepeatIsSilent(c: Config, s: State)
    requires Sound(c) && Mirrors(c, s)
    ensures Synced(c, Synced(c, s)) == Synced(c, s)
  {
    var t := Synced(c, s);
    forall i | 0 <= i < |c.defs|
      ensures var want := Wanted(t.applies, c.defs[i]);
        want.Some? ==> c.defs[i].objID in t.announced && t.announced[c.defs[i].objID] == want.value
    {
      SyncAt(c, s, i);
    }
    SettledIsSilent(t, c.defs);
    SyncKeepsApplies(c, s);
  }

  // ---- whole runs ----

  datatype Event = Collect(f: Found) | Sync | Lost(retained: map<string, string>) | Connect

  /** The module and whether it is connected. */
  datatype Run = Run(s: State, up: bool)

  /** While the connection is down, anything may happen to the broker; only a connected module syncs. */
  function After(c: Config, r: Run, e: Event): Run {
    match e
    case Collect(f) => r.(s := Collected(r.s, f))
    case Sync => if r.up then r.(s := Synced(c, r.s)) else r
    case Lost(retained) => Run(r.s.(retained := retained), false)
    case Connect => Run(r.s.(announced := map[]), true)
  }

  function RunOf(c: Config, r: Run, es: seq<Event>): Run
    decreases |es|
  {
    if es == [] then r else After(c, RunOf(c, r, es[..|es| - 1]), es[|es| - 1])
  }

  function Initial(retained: map<string, string>): Run { Run(State(map[], map[], false, retained, []), false) }

  predicate Inv(c: Config, r: Run) { r.up ==> Mirrors(c, r.s) }

  lemma {:induction false} RunMirrors(c: Config, retained: map<string, string>, es: seq<Event>)
    requires Sound(c)
    ensures Inv(c, RunOf(c, Initial(retained), es))
    decreases |es|
  {
    if es != [] {
      var r, e := RunOf(c, Initial(retained), es[..|es| - 1]), es[|es| - 1];
      RunMirrors(c, retained, es[..|es| - 1]);
      if e.Sync? && r.up {
        SyncReconciles(c, r.s);
      }
    }
  }

  /** At the end of every sync of every run the broker holds what this node has, and syncing again would publish nothing. */
  lemma EverySyncReconciles(c: Config, retained: map<string, string>, es: seq<Event>)
    requires Sound(c) && RunOf(c, Initial(retained), es).up
    ensures var r := RunOf(c, Initial(retained), es + [Sync]);
      Reconciled(c, r.s) && After(c, r, Sync) == r
  {
    var r := RunOf(c, Initial(retained), es);
    assert (es + [Sync])[..|es|] == es;
    RunMirrors(c, retained, es);
    SyncReconciles(c, r.s);
    RepeatIsSilent(c, r.s);
  }

  // ---- the sensor groups ----

  predicate SensorGroup(g: Group) { g == Gpu || g == Gpuz }

  predicate SensorsOnlyAppear(s: State) { forall g :: SensorGroup(g) && g in s.applies ==> s.applies[g] }

  lemma StepKeepsSensors(c: Config, r: Run, e: Event, g: Group)
    requires SensorGroup(g) && SensorsOnlyAppear(r.s)
    ensures SensorsOnlyAppear(After(c, r, e).s) && (g in r.s.applies ==> g in After(c, r, e).s.applies)
  {
    hide Synced;
    SyncKeepsApplies(c, r.s);
  }

  lemma {:induction false} SensorsAppear(c: Config, retained: map<string, string>, es: seq<Event>)
    ensures SensorsOnlyAppear(RunOf(c, Initial(retained), es).s)
    decreases |es|
  {
    if es != [] {
      SensorsAppear(c, retained, es[..|es| - 1]);
      StepKeepsSensors(c, RunOf(c, Initial(retained), es[..|es| - 1]), es[|es| - 1], Gpu);
    }
  }

  /** Once a sensor group applies, it applies for good. */
  lemma {:induction false} SensorsStay(c: Config, retained: map<string, string>, es: seq<Event>, more: seq<Event>, g: Group)
    requires SensorGroup(g) && g in RunOf(c, Initial(retained), es).s.applies
    ensures var now := RunOf(c, Initial(retained), es + more).s.applies; g in now && now[g]
    decreases |more|
  {
    SensorsAppear(c, retained, es + more);
    if more == [] {
      assert es + more == es;
    } else {
      var n := |more| - 1;
      var r := RunOf(c, Initial(retained), es + more[..n]);
      assert (es + more)[..|es| + n] == es + more[..n];
      SensorsStay(c, retained, es, more[..n], g);
      SensorsAppear(c, retained, es + more[..n]);
      StepKeepsSensors(c, r, more[n], g);
    }
  }

  lemma {:induction false} SyncDeletesNoSensor(s: State, defs: seq<Def>, d: Def)
    requires SensorsOnlyAppear(s) && d.group.Some? && SensorGroup(d.group.value) && d in defs && d.payload != ""
    requires forall i :: 0 <= i < |defs| && defs[i].objID == d.objID ==> defs[i] == d
    requires Publish(d.objID, "") !in s.sent
    ensures Publish(d.objID, "") !in SyncedAll(s, defs).sent
    decreases |defs|
  {
    var next := SyncedOne(s, defs[0]);
    assert Publish(d.objID, "") !in next.sent;
    if d in defs[1..] {
      SyncDeletesNoSensor(next, defs[1..], d);
    } else {
      SyncSendsOwn(next, defs[1..], d.objID);
    }
  }

  lemma {:induction false} SyncSendsOwn(s: State, defs: seq<Def>, objID: string)
    requires forall i :: 0 <= i < |defs| ==> defs[i].objID != objID
    ensures forall p: Publish :: p.objID == objID && p in SyncedAll(s, defs).sent ==> p in s.sent
    decreases |defs|
  {
    if defs != [] {
      SyncSendsOwn(SyncedOne(s, defs[0]), defs[1..], objID);
    }
  }

  lemma {:induction false} ClearingSendsOwn(s: State, legacy: seq<string>, objID: string)
    requires objID !in legacy
    ensures forall p: Publish :: p.objID == objID && p in Cleared(s, legacy).sent ==> p in s.sent
    decreases |legacy|
  {
    if legacy != [] {
      ClearingSendsOwn(Published(s, legacy[0], ""), legacy[1..], objID);
    }
  }

  /** No run ever deletes an entity of the sensor groups: closing GPU-Z does not make its entities disappear. */
  lemma {:induction false} SensorsAreNeverDeleted(c: Config, retained: map<string, string>, es: seq<Event>, k: nat)
    requires Sound(c) && k < |c.defs| && c.defs[k].group.Some? && SensorGroup(c.defs[k].group.value)
    ensures Publish(c.defs[k].objID, "") !in RunOf(c, Initial(retained), es).s.sent
    decreases |es|
  {
    if es != [] {
      var d := c.defs[k];
      var front, e := es[..|es| - 1], es[|es| - 1];
      var r := RunOf(c, Initial(retained), front);
      SensorsAreNeverDeleted(c, retained, front, k);
      if e.Sync? && r.up {
        SensorsAppear(c, retained, front);
        SyncDeletesNoSensor(r.s, c.defs, d);
        ClearingSendsOwn(SyncedAll(r.s, c.defs).(legacyCleared := true), c.legacy, d.objID);
      }
    }
  }
}
