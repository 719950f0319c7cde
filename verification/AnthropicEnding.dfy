/** How an answer in the Anthropic form ends, which tools it calls, and how long a stream that hides its thinking is silent. */
module AnthropicEnding {
  import opened Common
  import opened AnthropicStream
  import opened AnthropicGrammar
  import opened AnthropicReplay

  // ---- stop reason and counters ----

  /** The node's first final chunk is the d-th. */
  predicate FirstFinal(ts: seq<Timed>, d: nat) { d < |ts| && ts[d].j.done && forall i :: 0 <= i < d ==> !ts[i].j.done }

  predicate NoFinal(ts: seq<Timed>) { forall i :: 0 <= i < |ts| ==> !ts[i].j.done }

  lemma {:induction false} FinalIs(ts: seq<Timed>, d: nat)
    ensures FirstFinal(ts, d) ==> Final(ts) == ts[d].j
    ensures NoFinal(ts) ==> Final(ts) == EMPTY_CHUNK
    decreases |ts|
  {
    if ts != [] && !ts[0].j.done {
      assert forall i :: 0 < i < |ts| ==> ts[i] == ts[1..][i - 1];
      assert forall i :: 0 <= i < |ts| - 1 ==> ts[1..][i] == ts[i + 1];
      assert FirstFinal(ts, d) ==> d > 0 && FirstFinal(ts[1..], d - 1);
      FinalIs(ts[1..], if d > 0 then d - 1 else 0);
    }
  }

  /** The reason an answer stops: a tool call if it has one, otherwise whether the node ran into its length limit. */
  predicate StopsFor(stop: StopReason, tools: bool, length: bool) {
    && (stop == ToolUse <==> tools)
    && (stop == MaxTokens <==> !tools && length)
    && (stop == EndTurn <==> !tools && !length)
  }

  /** A client is told the counters of the node's final chunk, the tokens of the prompt as input and the generated ones as output,
      and zero without one; it is told to run tools exactly if a tool block was sent. */
  lemma EndingIs(cfg: Settings, start: real, ts: seq<Timed>, d: nat)
    requires QuietAfterDone(ts) && (FirstFinal(ts, d) || NoFinal(ts))
    ensures var client := FeedAll(Client([], None), Stream(cfg, start, ts));
      && client.ending.Some?
      && var (stop, usage) := (client.ending.value.stop, client.ending.value.usage);
      && usage.input == (if FirstFinal(ts, d) then ts[d].j.promptTokens else 0)
      && usage.output == (if FirstFinal(ts, d) then ts[d].j.evalTokens else 0)
      && StopsFor(stop, exists i :: 0 <= i < |client.content| && client.content[i].ToolContent?,
                  FirstFinal(ts, d) && ts[d].j.doneReason == "length")
  {
    hide Stream, FeedAll, MergeAll, AllPieces, Final;
    ReplayIsMerged(cfg, start, ts);
    FinalIs(ts, d);
    MergeKeepsTools(cfg.show, [], AllPieces(ts, 0, cfg.ids));
    assert !NoFinal(ts) || !FirstFinal(ts, d);
  }

  /** The answer in one piece tells the same of its chunk. */
  lemma WholeEndingIs(cfg: Settings, j: Chunk, made: nat)
    ensures var whole := MessageOf(cfg, j, made);
      && whole.usage.input == j.promptTokens && whole.usage.output == j.evalTokens
      && StopsFor(whole.stop, j.calls != [], j.doneReason == "length")
  {
  }

  // ---- tools ----

  function WithoutId(calls: seq<Call>): set<nat> { set i: nat | i < |calls| && calls[i].id == "" }

  lemma {:induction false} MissingCounts(calls: seq<Call>)
    ensures Missing(calls) == |WithoutId(calls)|
    decreases |calls|
  {
    if calls == [] {
      assert WithoutId(calls) == {};
    } else {
      var n := |calls| - 1;
      var front, last := calls[..n], calls[n];
      MissingCounts(front);
      MissingPush(front, last);
      WithoutIdPush(front, last);
      assert calls == front + [last];
    }
  }

  lemma WithoutIdPush(calls: seq<Call>, c: Call)
    ensures |WithoutId(calls + [c])| == |WithoutId(calls)| + if c.id == "" then 1 else 0
  {
    var n := |calls|;
    assert WithoutId(calls + [c]) == WithoutId(calls) + (if c.id == "" then {n} else {});
  }

  lemma {:induction false} MissingPush(calls: seq<Call>, c: Call)
    ensures Missing(calls + [c]) == Missing(calls) + if c.id == "" then 1 else 0
    decreases |calls|
  {
    if calls == [] {
      assert calls + [c] == [c];
    } else {
      assert (calls + [c])[1..] == calls[1..] + [c];
      MissingPush(calls[1..], c);
    }
  }

  /** Every tool block is its call's, with name and input unchanged; the id is the model's, or the next of the router's own, one for
      each call without. */
  lemma {:induction false} ToolIsItsCall(calls: seq<Call>, made: nat, ids: Ids, i: nat)
    requires i < |calls|
    ensures var t := ToolsOf(calls, made, ids)[i];
      && t.name == calls[i].name && t.input == calls[i].input
      && t.id == if calls[i].id != "" then calls[i].id else ids(made + |WithoutId(calls[..i])|)
    decreases i
  {
    MissingCounts(calls[..i]);
    ToolAt(calls, made, ids, i);
  }

  lemma {:induction false} ToolAt(calls: seq<Call>, made: nat, ids: Ids, i: nat)
    requires i < |calls|
    ensures ToolsOf(calls, made, ids)[i]
         == Tool(if calls[i].id != "" then calls[i].id else ids(made + Missing(calls[..i])), calls[i].name, calls[i].input)
    decreases i
  {
    if i > 0 {
      assert calls[..i][1..] == calls[1..][..i - 1];
      ToolAt(calls[1..], made + (if calls[0].id == "" then 1 else 0), ids, i - 1);
    }
  }

  // ---- silence ----

  /** A ping is sent exactly for a chunk of hidden thinking within an open thinking block, if nothing was sent for the keepalive
      time. */
  lemma PingIff(cfg: Settings, s: Shape, j: Chunk, now: real)
    ensures Ping in Chunked(cfg, s, j, now).events <==>
      !cfg.show && j.thinking != "" && s.open == Thinking && now - s.lastSent >= cfg.keepalive
  {
    hide ToolsOf, Missing, UsedTools, Ended, Added;
    var o1 := if j.thinking != "" then Added(cfg, s, Thinking, j.thinking, now) else Out(s, []);
    var o2 := if j.content != "" then Added(cfg, o1.s, Text, j.content, now) else Out(o1.s, []);
    var o3 := UsedTools(o2.s, ToolsOf(j.calls, o2.s.made, cfg.ids));
    var s3 := o3.s.(made := o2.s.made + Missing(j.calls));
    var o4 := if j.done && !s3.finished then Ended(s3, j) else Out(s3, []);
    AddedPing(cfg, s, Thinking, j.thinking, now);
    AddedPing(cfg, o1.s, Text, j.content, now);
    NoPingInTools(o2.s, ToolsOf(j.calls, o2.s.made, cfg.ids));
    NoPingAtEnd(s3, j);
    assert Chunked(cfg, s, j, now).events == o1.events + o2.events + o3.events + o4.events;
  }

  lemma AddedPing(cfg: Settings, s: Shape, kind: Open, text: string, now: real)
    requires kind != Nothing
    ensures Ping in Added(cfg, s, kind, text, now).events <==>
      kind == Thinking && !cfg.show && s.open == Thinking && now - s.lastSent >= cfg.keepalive
  {
  }

  lemma {:induction false} NoPingInTools(s: Shape, tools: seq<Tool>)
    ensures Ping !in UsedTools(s, tools).events
    decreases |tools|
  {
    if tools != [] {
      NoPingInTools(UsedTool(s, tools[0]).s, tools[1..]);
    }
  }

  lemma NoPingAtEnd(s: Shape, j: Chunk)
    ensures Ping !in Ended(s, j).events
  {
  }

  /** The time of the last chunk that sent something. */
  function LastSent(cfg: Settings, start: real, ts: seq<Timed>): real
    decreases |ts|
  {
    if ts == [] then start
    else
      var n := |ts| - 1;
      if Chunked(cfg, Run(cfg, Fresh(start), ts[..n]).s, ts[n].j, ts[n].now).events != [] then ts[n].now
      else LastSent(cfg, start, ts[..n])
  }

  lemma {:induction false} RunPush(cfg: Settings, s: Shape, ts: seq<Timed>, t: Timed)
    ensures var o := Run(cfg, s, ts);
      Run(cfg, s, ts + [t]) == Out(Chunked(cfg, o.s, t.j, t.now).s, o.events + Chunked(cfg, o.s, t.j, t.now).events)
    decreases |ts|
  {
    hide Chunked;
    if ts == [] {
      assert ts + [t] == [t] && [t][1..] == [];
    } else {
      assert (ts + [t])[1..] == ts[1..] + [t];
      RunPush(cfg, Chunked(cfg, s, ts[0].j, ts[0].now).s, ts[1..], t);
    }
  }

  lemma {:induction false} LastSentIs(cfg: Settings, start: real, ts: seq<Timed>)
    ensures Run(cfg, Fresh(start), ts).s.lastSent == LastSent(cfg, start, ts)
    decreases |ts|
  {
    if ts != [] {
      hide Run;
      var n := |ts| - 1;
      var s := Run(cfg, Fresh(start), ts[..n]).s;
      LastSentIs(cfg, start, ts[..n]);
      assert ts == ts[..n] + [ts[n]];
      RunPush(cfg, Fresh(start), ts[..n], ts[n]);
      SentAt(cfg, s, ts[n].j, ts[n].now);
    } else {
      assert Run(cfg, Fresh(start), []).s == Fresh(start);
    }
  }

  lemma SentAt(cfg: Settings, s: Shape, j: Chunk, now: real)
    ensures var o := Chunked(cfg, s, j, now); o.s.lastSent == if o.events != [] then now else s.lastSent
  {
    hide ToolsOf, Missing, Ended, Added;
    var o1 := if j.thinking != "" then Added(cfg, s, Thinking, j.thinking, now) else Out(s, []);
    var o2 := if j.content != "" then Added(cfg, o1.s, Text, j.content, now) else Out(o1.s, []);
    ToolsKeepSent(o2.s, ToolsOf(j.calls, o2.s.made, cfg.ids));
    AddedKeepsSent(cfg, s, Thinking, j.thinking, now);
    AddedKeepsSent(cfg, o1.s, Text, j.content, now);
    EndKeepsSent(UsedTools(o2.s, ToolsOf(j.calls, o2.s.made, cfg.ids)).s.(made := o2.s.made + Missing(j.calls)), j);
  }

  lemma AddedKeepsSent(cfg: Settings, s: Shape, kind: Open, text: string, now: real)
    requires kind != Nothing
    ensures Added(cfg, s, kind, text, now).s.lastSent == s.lastSent
  {
  }

  lemma EndKeepsSent(s: Shape, j: Chunk)
    ensures Ended(s, j).s.lastSent == s.lastSent
  {
  }

  lemma {:induction false} ToolsKeepSent(s: Shape, tools: seq<Tool>)
    ensures UsedTools(s, tools).s.lastSent == s.lastSent
    decreases |tools|
  {
    if tools != [] {
      ToolsKeepSent(UsedTool(s, tools[0]).s, tools[1..]);
    }
  }

  /** However long a model thinks, a thinking chunk that comes keepalive seconds or more after the last thing sent is heard. */
  lemma ThinkingIsHeard(cfg: Settings, start: real, ts: seq<Timed>, j: Chunk, now: real)
    requires j.thinking != "" && now - LastSent(cfg, start, ts) >= cfg.keepalive
    ensures Chunked(cfg, Run(cfg, Fresh(start), ts).s, j, now).events != []
  {
    LastSentIs(cfg, start, ts);
    hide Run, LastSent, UsedTools, ToolsOf, Missing, Ended;
  }
}
