/** What a client rebuilds from AnthropicShape's stream: the pieces of the node with adjacent pieces of one kind merged, and the
    final chunk's stop reason and counters. */
module AnthropicReplay {
  import opened Common
  import opened AnthropicStream
  import opened AnthropicGrammar

  // ---- the client ----

  datatype Ending = Ending(stop: StopReason, usage: Usage)

  datatype Client = Client(content: seq<Content>, ending: Option<Ending>)

  function EmptyContent(kind: Kind): Content {
    match kind
    case ThinkingKind => ThinkingContent("")
    case TextKind => TextContent("")
    case ToolKind(id, name) => ToolContent(Tool(id, name, ""))
  }

  /** Deltas go to the block their index names. */
  function Feed(c: Client, e: Event): Client {
    match e
    case BlockStart(_, kind) => c.(content := c.content + [EmptyContent(kind)])
    case ThinkingDelta(i, text) =>
      if 0 <= i < |c.content| && c.content[i].ThinkingContent?
      then c.(content := c.content[i := ThinkingContent(c.content[i].thinking + text)]) else c
    case TextDelta(i, text) =>
      if 0 <= i < |c.content| && c.content[i].TextContent?
      then c.(content := c.content[i := TextContent(c.content[i].text + text)]) else c
    case InputDelta(i, input) =>
      if 0 <= i < |c.content| && c.content[i].ToolContent?
      then c.(content := c.content[i := ToolContent(c.content[i].tool.(input := c.content[i].tool.input + input))]) else c
    case MessageDelta(stop, usage) => c.(ending := Some(Ending(stop, usage)))
    case _ => c
  }

  function FeedAll(c: Client, es: seq<Event>): Client
    decreases |es|
  {
    if es == [] then c else FeedAll(Feed(c, es[0]), es[1..])
  }

  lemma {:induction false} FeedConcat(c: Client, a: seq<Event>, b: seq<Event>)
    ensures FeedAll(c, a + b) == FeedAll(FeedAll(c, a), b)
    decreases |a|
  {
    if a == [] {
      assert a + b == b;
    } else {
      assert (a + b)[1..] == a[1..] + b;
      FeedConcat(Feed(c, a[0]), a[1..], b);
    }
  }

  lemma FeedSome(c: Client, a: Event, b: Event)
    ensures FeedAll(c, []) == c
    ensures FeedAll(c, [a]) == Feed(c, a)
    ensures FeedAll(c, [a, b]) == Feed(Feed(c, a), b)
  {
    assert [a, b][1..] == [b];
    assert FeedAll(Feed(c, a), [b]) == Feed(Feed(c, a), b);
  }

  // ---- the pieces of the node ----

  datatype Piece = Think(text: string) | Say(text: string) | Use(tool: Tool)

  function Uses(tools: seq<Tool>): (ps: seq<Piece>)
    ensures |ps| == |tools|
  {
    seq(|tools|, i requires 0 <= i < |tools| => Use(tools[i]))
  }

  function PiecesOf(j: Chunk, made: nat, ids: Ids): seq<Piece> {
    (if j.thinking != "" then [Think(j.thinking)] else [])
    + (if j.content != "" then [Say(j.content)] else [])
    + Uses(ToolsOf(j.calls, made, ids))
  }

  function AllPieces(ts: seq<Timed>, made: nat, ids: Ids): seq<Piece>
    decreases |ts|
  {
    if ts == [] then []
    else PiecesOf(ts[0].j, made, ids) + AllPieces(ts[1..], made + Missing(ts[0].j.calls), ids)
  }

  /** A piece joins the last block if that has its kind, or else starts the next one. */
  function Merge(show: bool, cs: seq<Content>, p: Piece): seq<Content> {
    var n := |cs|;
    match p
    case Think(text) =>
      var seen := if show then text else "";
      if n > 0 && cs[n - 1].ThinkingContent? then cs[n - 1 := ThinkingContent(cs[n - 1].thinking + seen)]
      else cs + [ThinkingContent(seen)]
    case Say(text) =>
      if n > 0 && cs[n - 1].TextContent? then cs[n - 1 := TextContent(cs[n - 1].text + text)]
      else cs + [TextContent(text)]
    case Use(tool) => cs + [ToolContent(tool)]
  }

  function MergeAll(show: bool, cs: seq<Content>, ps: seq<Piece>): seq<Content>
    decreases |ps|
  {
    if ps == [] then cs else MergeAll(show, Merge(show, cs, ps[0]), ps[1..])
  }

  lemma {:induction false} MergeConcat(show: bool, cs: seq<Content>, a: seq<Piece>, b: seq<Piece>)
    ensures MergeAll(show, cs, a + b) == MergeAll(show, MergeAll(show, cs, a), b)
    decreases |a|
  {
    if a == [] {
      assert a + b == b;
    } else {
      assert (a + b)[1..] == a[1..] + b;
      MergeConcat(show, Merge(show, cs, a[0]), a[1..], b);
    }
  }

  lemma MergeSome(show: bool, cs: seq<Content>, p: Piece)
    ensures MergeAll(show, cs, []) == cs
    ensures MergeAll(show, cs, [p]) == Merge(show, cs, p)
  {
  }

  // ---- the client follows the shape ----

  function OpenOf(cs: seq<Content>): Open {
    if cs == [] || cs[|cs| - 1].ToolContent? then Nothing
    else if cs[|cs| - 1].ThinkingContent? then Thinking else Text
  }

  predicate HasTool(cs: seq<Content>) { exists i :: 0 <= i < |cs| && cs[i].ToolContent? }

  predicate Follows(s: Shape, cs: seq<Content>) {
    !s.finished && s.index == |cs| - 1 && s.open == OpenOf(cs) && s.sawTools == HasTool(cs)
  }

  lemma ClosingFeeds(c: Client, open: Open, index: int)
    ensures FeedAll(c, ClosingOf(open, index)) == c
  {
    FeedSome(c, SignatureDelta(index), BlockStop(index));
    FeedSome(c, BlockStop(index), BlockStop(index));
  }

  lemma StartedFeeds(c: Client, s: Shape, kind: Kind)
    ensures FeedAll(c, Started(s, kind).events) == c.(content := c.content + [EmptyContent(kind)])
  {
    var start := BlockStart(s.index + 1, kind);
    ClosingFeeds(c, s.open, s.index);
    FeedConcat(c, ClosingOf(s.open, s.index), [start]);
    FeedSome(c, start, start);
  }

  function PieceOf(kind: Open, text: string): Piece { if kind == Thinking then Think(text) else Say(text) }

  /** The block the shape opens for a piece, still empty, or the open one of that kind. */
  function Opened(cs: seq<Content>, kind: Open): seq<Content>
    requires kind != Nothing
  {
    if OpenOf(cs) == kind then cs else cs + [EmptyContent(KindOf(kind))]
  }

  lemma OpenedMerges(show: bool, cs: seq<Content>, kind: Open, text: string)
    requires kind != Nothing
    ensures var to, merged := Opened(cs, kind), Merge(show, cs, PieceOf(kind, text));
      && (kind == Thinking && !show ==> merged == to)
      && (kind == Text || show ==> Feed(Client(to, None), DeltaOf(kind, |to| - 1, text)).content == merged)
  {
    var to := Opened(cs, kind);
    var merged := Merge(show, cs, PieceOf(kind, text));
    assert "" + text == text;
    if kind == Thinking {
      assert to[|to| - 1].thinking + "" == to[|to| - 1].thinking;
    }
    assert |merged| == |to|;
  }

  lemma MergeFollows(show: bool, s: Shape, cs: seq<Content>, kind: Open, text: string)
    requires kind != Nothing && Follows(s, cs)
    ensures Follows(s.(open := kind, index := |Opened(cs, kind)| - 1), Merge(show, cs, PieceOf(kind, text)))
  {
  }

  lemma AddedFeeds(cfg: Settings, s: Shape, kind: Open, text: string, now: real, cs: seq<Content>)
    requires kind != Nothing && Follows(s, cs)
    ensures var o, merged := Added(cfg, s, kind, text, now), Merge(cfg.show, cs, PieceOf(kind, text));
      FeedAll(Client(cs, None), o.events) == Client(merged, None) && Follows(o.s, merged) && o.s.made == s.made
  {
    hide Feed, FeedAll, Merge, HasTool;
    var c := Client(cs, None);
    var o := if s.open == kind then Out(s, []) else Started(s, KindOf(kind));
    var to := Client(Opened(cs, kind), None);
    StartedFeeds(c, s, KindOf(kind));
    var delta := DeltaOf(kind, o.s.index, text);
    FeedConcat(c, o.events, [delta]);
    FeedSome(to, delta, delta);
    FeedSome(c, Ping, Ping);
    PingFeeds(c);
    OpenedMerges(cfg.show, cs, kind, text);
    MergeFollows(cfg.show, s, cs, kind, text);
    DeltaKeepsEnding(to, delta);
  }

  lemma PingFeeds(c: Client)
    ensures Feed(c, Ping) == c
  {
  }

  lemma DeltaKeepsEnding(c: Client, e: Event)
    requires !e.MessageDelta?
    ensures Feed(c, e).ending == c.ending
  {
  }

  lemma SameTools(cs: seq<Content>, merged: seq<Content>)
    requires |cs| <= |merged| <= |cs| + 1
    requires forall i :: 0 <= i < |cs| - 1 ==> merged[i] == cs[i]
    requires cs != [] ==> cs[|cs| - 1].ToolContent? == merged[|cs| - 1].ToolContent?
    requires |merged| > |cs| ==> !merged[|cs|].ToolContent?
    ensures HasTool(merged) == HasTool(cs)
  {
  }

  lemma UsedToolFeeds(s: Shape, t: Tool, cs: seq<Content>)
    requires Follows(s, cs)
    ensures var o, merged := UsedTool(s, t), cs + [ToolContent(t)];
      FeedAll(Client(cs, None), o.events) == Client(merged, None) && Follows(o.s, merged) && o.s.made == s.made
  {
    var c := Client(cs, None);
    var s0 := s.(sawTools := true);
    var o := Started(s0, ToolKind(t.id, t.name));
    var c1 := c.(content := cs + [ToolContent(Tool(t.id, t.name, ""))]);
    StartedFeeds(c, s0, ToolKind(t.id, t.name));
    var input, stop := InputDelta(o.s.index, t.input), BlockStop(o.s.index);
    FeedConcat(c, o.events, [input, stop]);
    FeedSome(c1, input, stop);
    assert "" + t.input == t.input;
    var merged := cs + [ToolContent(t)];
    assert Feed(c1, input).content == merged;
    assert merged[|cs|].ToolContent?;
  }

  lemma {:induction false} UsedToolsFeeds(show: bool, s: Shape, tools: seq<Tool>, cs: seq<Content>)
    requires Follows(s, cs)
    ensures var o, merged := UsedTools(s, tools), MergeAll(show, cs, Uses(tools));
      FeedAll(Client(cs, None), o.events) == Client(merged, None) && Follows(o.s, merged) && o.s.made == s.made
    decreases |tools|
  {
    if tools == [] {
      FeedSome(Client(cs, None), Ping, Ping);
    } else {
      hide FeedAll, Follows;
      var o := UsedTool(s, tools[0]);
      var next := cs + [ToolContent(tools[0])];
      UsedToolFeeds(s, tools[0], cs);
      UsedToolsFeeds(show, o.s, tools[1..], next);
      FeedConcat(Client(cs, None), o.events, UsedTools(o.s, tools[1..]).events);
      assert Uses(tools)[1..] == Uses(tools[1..]);
      assert Merge(show, cs, Uses(tools)[0]) == next;
    }
  }

  lemma EndedFeeds(s: Shape, j: Chunk, cs: seq<Content>)
    requires Follows(s, cs)
    ensures FeedAll(Client(cs, None), Ended(s, j).events) == Client(cs, Some(Ending(StopOf(j, HasTool(cs)), UsageOf(j))))
  {
    var c := Client(cs, None);
    var delta := MessageDelta(StopOf(j, s.sawTools), UsageOf(j));
    ClosingFeeds(c, s.open, s.index);
    FeedConcat(c, ClosingOf(s.open, s.index), [delta, MessageStop]);
    FeedSome(c, delta, MessageStop);
  }

  lemma ChunkFeeds(cfg: Settings, s: Shape, j: Chunk, now: real, cs: seq<Content>)
    requires Follows(s, cs)
    ensures var o, merged := Chunked(cfg, s, j, now), MergeAll(cfg.show, cs, PiecesOf(j, s.made, cfg.ids));
      && o.s.made == s.made + Missing(j.calls)
      && (!j.done ==> Follows(o.s, merged))
      && (j.done ==> o.s.finished && o.s.open == Nothing)
      && FeedAll(Client(cs, None), o.events)
         == Client(merged, if j.done then Some(Ending(StopOf(j, HasTool(merged)), UsageOf(j))) else None)
  {
    hide Added, UsedTools, ToolsOf, Missing, FeedAll, Feed, Merge, MergeAll, HasTool, OpenOf, Ended, StopOf, UsageOf, Uses;
    var c, tools := Client(cs, None), ToolsOf(j.calls, s.made, cfg.ids);
    var p1 := if j.thinking != "" then [Think(j.thinking)] else [];
    var p2 := if j.content != "" then [Say(j.content)] else [];
    var o1 := if j.thinking != "" then Added(cfg, s, Thinking, j.thinking, now) else Out(s, []);
    var cs1 := MergeAll(cfg.show, cs, p1);
    MergeSome(cfg.show, cs, Think(j.thinking));
    FeedSome(c, Ping, Ping);
    if j.thinking != "" {
      AddedFeeds(cfg, s, Thinking, j.thinking, now, cs);
    }
    var o2 := if j.content != "" then Added(cfg, o1.s, Text, j.content, now) else Out(o1.s, []);
    var cs2 := MergeAll(cfg.show, cs1, p2);
    MergeSome(cfg.show, cs1, Say(j.content));
    FeedSome(Client(cs1, None), Ping, Ping);
    if j.content != "" {
      AddedFeeds(cfg, o1.s, Text, j.content, now, cs1);
    }
    var o3 := UsedTools(o2.s, tools);
    var cs3 := MergeAll(cfg.show, cs2, Uses(tools));
    UsedToolsFeeds(cfg.show, o2.s, tools, cs2);
    MergeConcat(cfg.show, cs, p1, p2);
    MergeConcat(cfg.show, cs, p1 + p2, Uses(tools));
    FeedConcat(c, o1.events, o2.events);
    FeedConcat(c, o1.events + o2.events, o3.events);
    var s3 := o3.s.(made := o2.s.made + Missing(j.calls));
    var o4 := if j.done then Ended(s3, j) else Out(s3, []);
    FeedSome(Client(cs3, None), Ping, Ping);
    EndedFeeds(s3, j, cs3);
    EndedCloses(s3, j);
    FeedConcat(c, o1.events + o2.events + o3.events, o4.events);
  }

  lemma EndedCloses(s: Shape, j: Chunk)
    ensures var o := Ended(s, j); o.s == s.(finished := true, open := Nothing)
  {
  }

  // ---- whole streams ----

  /** The chunk whose counters and reason the stream ends with. */
  function Final(ts: seq<Timed>): Chunk
    decreases |ts|
  {
    if ts == [] then EMPTY_CHUNK else if ts[0].j.done then ts[0].j else Final(ts[1..])
  }

  lemma {:induction false} SilentRest(ts: seq<Timed>, made: nat, ids: Ids)
    requires forall k :: 0 <= k < |ts| ==> !Audible(ts[k].j)
    ensures AllPieces(ts, made, ids) == []
    decreases |ts|
  {
    if ts != [] {
      assert !Audible(ts[0].j);
      SilentRest(ts[1..], made, ids);
    }
  }

  /** What the stream from here on, with its tail, leaves with a client that holds `cs`. */
  lemma {:induction false} RunFeeds(cfg: Settings, s: Shape, ts: seq<Timed>, cs: seq<Content>)
    requires Follows(s, cs) && QuietAfterDone(ts)
    ensures var o, merged := Run(cfg, s, ts), MergeAll(cfg.show, cs, AllPieces(ts, s.made, cfg.ids));
      FeedAll(Client(cs, None), o.events + TailOf(o.s).events)
      == Client(merged, Some(Ending(StopOf(Final(ts), HasTool(merged)), UsageOf(Final(ts)))))
    decreases |ts|
  {
    hide Chunked, FeedAll, Feed, Merge, HasTool, OpenOf, Ended, StopOf, UsageOf, PiecesOf, Missing;
    var c, o := Client(cs, None), Run(cfg, s, ts);
    if ts == [] {
      FollowsRuns(s, cs);
      assert o.events + TailOf(o.s).events == TailOf(o.s).events;
      EndedFeeds(s, EMPTY_CHUNK, cs);
    } else {
      var j := ts[0].j;
      var o1 := Chunked(cfg, s, j, ts[0].now);
      var pieces := PiecesOf(j, s.made, cfg.ids);
      var cs1 := MergeAll(cfg.show, cs, pieces);
      var rest := Run(cfg, o1.s, ts[1..]);
      var tail := TailOf(rest.s).events;
      ChunkFeeds(cfg, s, j, ts[0].now, cs);
      QuietSplit(ts);
      MergeConcat(cfg.show, cs, pieces, AllPieces(ts[1..], o1.s.made, cfg.ids));
      FeedConcat(c, o1.events, rest.events + tail);
      assert o1.events + (rest.events + tail) == o.events + TailOf(o.s).events;
      if j.done {
        FinishedRun(cfg, o1.s, ts[1..]);
        SilentRest(ts[1..], o1.s.made, cfg.ids);
        FeedSome(Client(cs1, Some(Ending(StopOf(j, HasTool(cs1)), UsageOf(j)))), Ping, Ping);
        assert rest.events + tail == [];
      } else {
        RunFeeds(cfg, o1.s, ts[1..], cs1);
      }
    }
  }

  lemma FollowsRuns(s: Shape, cs: seq<Content>)
    requires Follows(s, cs)
    ensures !s.finished
  {
  }

  predicate HasUse(ps: seq<Piece>) { exists i :: 0 <= i < |ps| && ps[i].Use? }

  lemma {:induction false} MergeKeepsTools(show: bool, cs: seq<Content>, ps: seq<Piece>)
    ensures HasTool(MergeAll(show, cs, ps)) == (HasTool(cs) || HasUse(ps))
    decreases |ps|
  {
    if ps != [] {
      var next := Merge(show, cs, ps[0]);
      MergeKeepsTools(show, next, ps[1..]);
      if ps[0].Use? {
        assert next[|cs|].ToolContent?;
      } else {
        SameTools(cs, next);
      }
      assert forall i :: 0 < i < |ps| ==> ps[i] == ps[1..][i - 1];
      assert forall i :: 0 <= i < |ps[1..]| ==> ps[1..][i] == ps[i + 1];
    }
  }

  /** A client ends up with the merged pieces of the node, and with the stop reason and the counters of its final chunk. */
  lemma ReplayIsMerged(cfg: Settings, start: real, ts: seq<Timed>)
    requires QuietAfterDone(ts)
    ensures var ps := AllPieces(ts, 0, cfg.ids);
      FeedAll(Client([], None), Stream(cfg, start, ts))
      == Client(MergeAll(cfg.show, [], ps), Some(Ending(StopOf(Final(ts), HasUse(ps)), UsageOf(Final(ts)))))
  {
    hide Run, Feed, FeedAll, AllPieces, MergeAll, Final;
    var s, c := Fresh(start), Client([], None);
    var run := Run(cfg, s, ts);
    StartFeeds(c);
    FeedConcat(c, [MessageStart], run.events + TailOf(run.s).events);
    assert [MessageStart] + (run.events + TailOf(run.s).events) == Stream(cfg, start, ts);
    RunFeeds(cfg, s, ts, []);
    MergeKeepsTools(cfg.show, [], AllPieces(ts, 0, cfg.ids));
  }

  lemma StartFeeds(c: Client)
    ensures FeedAll(c, [MessageStart]) == c
  {
  }
}
