/** The event grammar of the Anthropic Messages API as an automaton that reads a stream the way a client would, and the proof
    that AnthropicShape's streams are exactly in that grammar as long as the node stays quiet after its final chunk. */
module AnthropicGrammar {
  import opened Common
  import opened AnthropicStream

  // ---- whole streams ----

  /** A chunk and the clock reading while it is formatted. */
  datatype Timed = Timed(j: Chunk, now: real)

  function Run(cfg: Settings, s: Shape, ts: seq<Timed>): Out
    decreases |ts|
  {
    if ts == [] then Out(s, [])
    else
      var o := Chunked(cfg, s, ts[0].j, ts[0].now);
      var rest := Run(cfg, o.s, ts[1..]);
      Out(rest.s, o.events + rest.events)
  }

  /** head(), chunk() for every chunk of the node, tail(). */
  function Stream(cfg: Settings, start: real, ts: seq<Timed>): seq<Event> {
    var run := Run(cfg, Fresh(start), ts);
    [MessageStart] + run.events + TailOf(run.s).events
  }

  predicate Audible(j: Chunk) { j.thinking != "" || j.content != "" || j.calls != [] }

  /** Nothing to format comes after the first final chunk. */
  predicate QuietAfterDone(ts: seq<Timed>) {
    forall i, k :: 0 <= i < k < |ts| && ts[i].j.done ==> !Audible(ts[k].j)
  }

  // ---- the grammar ----

  /** Where a client is in the stream; `complete` of an open block: the signature or the input has come. */
  datatype Reader =
    | Waiting
    | Between(next: int)
    | Inside(index: int, kind: Kind, complete: bool)
    | Counted
    | Over
    | Broken

  function Read(r: Reader, e: Event): Reader {
    match e
    case MessageStart => if r == Waiting then Between(0) else Broken
    case Ping => if r.Between? || r.Inside? || r.Counted? then r else Broken
    case BlockStart(i, kind) => if r == Between(i) then Inside(i, kind, false) else Broken
    case ThinkingDelta(i, _) => if r == Inside(i, ThinkingKind, false) then r else Broken
    case TextDelta(i, _) => if r == Inside(i, TextKind, false) then r else Broken
    case SignatureDelta(i) => if r == Inside(i, ThinkingKind, false) then r.(complete := true) else Broken
    case InputDelta(i, _) => if r.Inside? && r.index == i && r.kind.ToolKind? && !r.complete then r.(complete := true) else Broken
    case BlockStop(i) => if r.Inside? && r.index == i && (r.kind.TextKind? || r.complete) then Between(i + 1) else Broken
    case MessageDelta(_, _) => if r.Between? then Counted else Broken
    case MessageStop => if r == Counted then Over else Broken
  }

  function ReadAll(r: Reader, es: seq<Event>): Reader
    decreases |es|
  {
    if es == [] then r else ReadAll(Read(r, es[0]), es[1..])
  }

  lemma {:induction false} ReadConcat(r: Reader, a: seq<Event>, b: seq<Event>)
    ensures ReadAll(r, a + b) == ReadAll(ReadAll(r, a), b)
    decreases |a|
  {
    if a == [] {
      assert a + b == b;
    } else {
      assert (a + b)[1..] == a[1..] + b;
      ReadConcat(Read(r, a[0]), a[1..], b);
    }
  }

  lemma {:induction false} OverStaysOrBreaks(es: seq<Event>)
    ensures ReadAll(Broken, es) == Broken
    ensures es != [] ==> ReadAll(Over, es) == Broken
  {
    if es != [] {
      OverStaysOrBreaks(es[1..]);
    }
  }

  // ---- the shape keeps the reader in step ----

  function ReaderOf(s: Shape): Reader {
    if s.finished then Over
    else if s.open == Nothing then Between(s.index + 1)
    else Inside(s.index, KindOf(s.open), false)
  }

  lemma ReadSome(r: Reader, a: Event, b: Event)
    ensures ReadAll(r, [a]) == Read(r, a)
    ensures ReadAll(r, [a, b]) == Read(Read(r, a), b)
  {
    assert [a, b][1..] == [b];
    assert ReadAll(Read(r, a), [b]) == Read(Read(r, a), b);
  }

  lemma ClosingReads(s: Shape)
    requires !s.finished
    ensures ReadAll(ReaderOf(s), ClosingOf(s.open, s.index)) == Between(s.index + 1)
  {
    ReadSome(ReaderOf(s), SignatureDelta(s.index), BlockStop(s.index));
    ReadSome(ReaderOf(s), BlockStop(s.index), BlockStop(s.index));
  }

  lemma StartedReads(s: Shape, kind: Kind)
    requires !s.finished
    ensures ReadAll(ReaderOf(s), Started(s, kind).events) == Inside(s.index + 1, kind, false)
  {
    ClosingReads(s);
    var start := BlockStart(s.index + 1, kind);
    ReadConcat(ReaderOf(s), ClosingOf(s.open, s.index), [start]);
    ReadSome(Between(s.index + 1), start, start);
  }

  lemma AddedReads(cfg: Settings, s: Shape, kind: Open, text: string, now: real)
    requires kind != Nothing && !s.finished
    ensures var o := Added(cfg, s, kind, text, now); !o.s.finished && ReadAll(ReaderOf(s), o.events) == ReaderOf(o.s)
  {
    var o := if s.open == kind then Out(s, []) else Started(s, KindOf(kind));
    var s1 := o.s.(open := kind);
    if s.open != kind {
      StartedReads(s, KindOf(kind));
    }
    assert ReadAll(ReaderOf(s), o.events) == ReaderOf(s1);
    var delta := DeltaOf(kind, s1.index, text);
    ReadConcat(ReaderOf(s), o.events, [delta]);
    ReadSome(ReaderOf(s1), delta, delta);
    ReadSome(ReaderOf(s), Ping, Ping);
  }

  lemma UsedToolReads(s: Shape, t: Tool)
    requires !s.finished
    ensures var o := UsedTool(s, t); !o.s.finished && ReadAll(ReaderOf(s), o.events) == ReaderOf(o.s)
  {
    var s0 := s.(sawTools := true);
    var o := Started(s0, ToolKind(t.id, t.name));
    StartedReads(s0, ToolKind(t.id, t.name));
    var input, stop := InputDelta(o.s.index, t.input), BlockStop(o.s.index);
    ReadConcat(ReaderOf(s), o.events, [input, stop]);
    ReadSome(Inside(o.s.index, ToolKind(t.id, t.name), false), input, stop);
  }

  lemma {:induction false} UsedToolsReads(s: Shape, tools: seq<Tool>)
    requires !s.finished
    ensures var o := UsedTools(s, tools); !o.s.finished && ReadAll(ReaderOf(s), o.events) == ReaderOf(o.s)
    decreases |tools|
  {
    if tools != [] {
      var o := UsedTool(s, tools[0]);
      UsedToolReads(s, tools[0]);
      UsedToolsReads(o.s, tools[1..]);
      ReadConcat(ReaderOf(s), o.events, UsedTools(o.s, tools[1..]).events);
    }
  }

  lemma EndedReads(s: Shape, j: Chunk)
    requires !s.finished
    ensures ReadAll(ReaderOf(s), Ended(s, j).events) == Over
  {
    ClosingReads(s);
    var delta := MessageDelta(StopOf(j, s.sawTools), UsageOf(j));
    ReadConcat(ReaderOf(s), ClosingOf(s.open, s.index), [delta, MessageStop]);
    ReadSome(Between(s.index + 1), delta, MessageStop);
  }

  /** One chunk moves a client from where the shape was to where the shape is. */
  lemma ChunkReads(cfg: Settings, s: Shape, j: Chunk, now: real)
    requires !s.finished
    ensures var o := Chunked(cfg, s, j, now);
      ReadAll(ReaderOf(s), o.events) == ReaderOf(o.s) && o.s.finished == j.done && (j.done ==> o.s.open == Nothing)
  {
    hide Added, UsedTools, ToolsOf, Missing, Read, ReadAll;
    var o1 := if j.thinking != "" then Added(cfg, s, Thinking, j.thinking, now) else Out(s, []);
    if j.thinking != "" {
      AddedReads(cfg, s, Thinking, j.thinking, now);
    }
    var o2 := if j.content != "" then Added(cfg, o1.s, Text, j.content, now) else Out(o1.s, []);
    if j.content != "" {
      AddedReads(cfg, o1.s, Text, j.content, now);
    }
    var o3 := UsedTools(o2.s, ToolsOf(j.calls, o2.s.made, cfg.ids));
    UsedToolsReads(o2.s, ToolsOf(j.calls, o2.s.made, cfg.ids));
    var s3 := o3.s.(made := o2.s.made + Missing(j.calls));
    var o4 := if j.done then Ended(s3, j) else Out(s3, []);
    ReadNothing(ReaderOf(s));
    ReadNothing(ReaderOf(o1.s));
    ReadNothing(ReaderOf(s3));
    EndedReads(s3, j);
    ReadConcat(ReaderOf(s), o1.events, o2.events);
    ReadConcat(ReaderOf(s), o1.events + o2.events, o3.events);
    ReadConcat(ReaderOf(s), o1.events + o2.events + o3.events, o4.events);
  }

  lemma ReadNothing(r: Reader)
    ensures ReadAll(r, []) == r
  {
  }

  /** A finished shape answers every audible chunk with a new event, and no other. */
  lemma FinishedChunk(cfg: Settings, s: Shape, j: Chunk, now: real)
    requires s.finished && s.open == Nothing
    ensures var o := Chunked(cfg, s, j, now);
      (Audible(j) <==> o.events != []) && (!Audible(j) ==> o.s == s)
  {
  }

  lemma {:induction false} FinishedRun(cfg: Settings, s: Shape, ts: seq<Timed>)
    requires s.finished && s.open == Nothing
    ensures ReadAll(Over, Run(cfg, s, ts).events) == Over <==> forall k :: 0 <= k < |ts| ==> !Audible(ts[k].j)
    ensures ReadAll(Over, Run(cfg, s, ts).events) == Over ==> Run(cfg, s, ts) == Out(s, [])
    ensures ReadAll(Over, Run(cfg, s, ts).events) in {Over, Broken}
    decreases |ts|
  {
    if ts != [] {
      hide Chunked;
      var o := Chunked(cfg, s, ts[0].j, ts[0].now);
      FinishedChunk(cfg, s, ts[0].j, ts[0].now);
      var rest := Run(cfg, o.s, ts[1..]);
      OverStaysOrBreaks(o.events + rest.events);
      if !Audible(ts[0].j) {
        FinishedRun(cfg, s, ts[1..]);
        assert o.events + rest.events == rest.events;
        assert forall k :: 1 <= k < |ts| ==> ts[k] == ts[1..][k - 1];
      }
    }
  }

  lemma {:induction false} RunReads(cfg: Settings, s: Shape, ts: seq<Timed>)
    requires !s.finished
    ensures var o := Run(cfg, s, ts);
      if QuietAfterDone(ts)
      then ReadAll(ReaderOf(s), o.events) == ReaderOf(o.s)
      else ReadAll(ReaderOf(s), o.events) == Broken && o.s.finished
    decreases |ts|
  {
    if ts != [] {
      hide Chunked, Read, ReadAll;
      ReadNothing(ReaderOf(s));
      var o := Chunked(cfg, s, ts[0].j, ts[0].now);
      ChunkReads(cfg, s, ts[0].j, ts[0].now);
      ReadConcat(ReaderOf(s), o.events, Run(cfg, o.s, ts[1..]).events);
      QuietSplit(ts);
      if ts[0].j.done {
        FinishedRun(cfg, o.s, ts[1..]);
        FinishedStays(cfg, o.s, ts[1..]);
      } else {
        RunReads(cfg, o.s, ts[1..]);
      }
    }
  }

  lemma QuietSplit(ts: seq<Timed>)
    requires ts != []
    ensures QuietAfterDone(ts) <==>
      QuietAfterDone(ts[1..]) && (ts[0].j.done ==> forall k :: 0 <= k < |ts[1..]| ==> !Audible(ts[1..][k].j))
  {
  }

  lemma {:induction false} ToolsKeepFinished(s: Shape, tools: seq<Tool>)
    ensures UsedTools(s, tools).s.finished == s.finished
    decreases |tools|
  {
    if tools != [] {
      ToolsKeepFinished(UsedTool(s, tools[0]).s, tools[1..]);
    }
  }

  lemma ChunkKeepsFinished(cfg: Settings, s: Shape, j: Chunk, now: real)
    requires s.finished
    ensures Chunked(cfg, s, j, now).s.finished
  {
    hide ToolsOf, Missing;
    var o1 := if j.thinking != "" then Added(cfg, s, Thinking, j.thinking, now) else Out(s, []);
    var o2 := if j.content != "" then Added(cfg, o1.s, Text, j.content, now) else Out(o1.s, []);
    ToolsKeepFinished(o2.s, ToolsOf(j.calls, o2.s.made, cfg.ids));
  }

  lemma {:induction false} FinishedStays(cfg: Settings, s: Shape, ts: seq<Timed>)
    requires s.finished
    ensures Run(cfg, s, ts).s.finished
    decreases |ts|
  {
    if ts != [] {
      hide Chunked;
      ChunkKeepsFinished(cfg, s, ts[0].j, ts[0].now);
      FinishedStays(cfg, Chunked(cfg, s, ts[0].j, ts[0].now).s, ts[1..]);
    }
  }

  /** A stream is in the grammar exactly if nothing audible follows the node's final chunk. */
  lemma GrammarIff(cfg: Settings, start: real, ts: seq<Timed>)
    ensures ReadAll(Waiting, Stream(cfg, start, ts)) == Over <==> QuietAfterDone(ts)
  {
    hide Run, Read;
    var s := Fresh(start);
    var run := Run(cfg, s, ts);
    var tail := TailOf(run.s).events;
    StartReads();
    ReadConcat(Waiting, [MessageStart], run.events);
    ReadConcat(Waiting, [MessageStart] + run.events, tail);
    RunReads(cfg, s, ts);
    OverStaysOrBreaks(tail);
    if QuietAfterDone(ts) && !run.s.finished {
      EndedReads(run.s, EMPTY_CHUNK);
    }
  }

  lemma StartReads()
    ensures ReadAll(Waiting, [MessageStart]) == Between(0)
  {
  }
}
