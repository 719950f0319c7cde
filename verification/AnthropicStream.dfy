/** router/skirnir_router/anthropic_api.py: AnthropicShape, which turns the chunks of an Ollama answer into the event stream
    of the Anthropic Messages API, and the whole answer into one message. Tool inputs are JSON texts. */
module AnthropicStream {
  import opened Common

  type Json = string

  // ---- the answer that comes in ----

  /** A native tool call; `id` is empty when the model gave none. */
  datatype Call = Call(id: string, name: string, input: Json)

  /** One chunk of /api/chat; empty strings and lists are missing fields. */
  datatype Chunk = Chunk(thinking: string, content: string, calls: seq<Call>,
                         done: bool, doneReason: string, promptTokens: nat, evalTokens: nat)

  const EMPTY_CHUNK: Chunk := Chunk("", "", [], false, "", 0, 0)

  // ---- what goes out ----

  datatype Kind = ThinkingKind | TextKind | ToolKind(id: string, name: string)
  datatype StopReason = EndTurn | MaxTokens | ToolUse
  datatype Usage = Usage(input: nat, output: nat)

  datatype Event =
    | MessageStart
    | Ping
    | BlockStart(index: int, kind: Kind)
    | ThinkingDelta(index: int, text: string)
    | TextDelta(index: int, text: string)
    | SignatureDelta(index: int)
    | InputDelta(index: int, input: Json)
    | BlockStop(index: int)
    | MessageDelta(stop: StopReason, usage: Usage)
    | MessageStop

  function StopOf(j: Chunk, hasTools: bool): StopReason {
    if hasTools then ToolUse else if j.doneReason == "length" then MaxTokens else EndTurn
  }

  function UsageOf(j: Chunk): Usage { Usage(j.promptTokens, j.evalTokens) }

  // ---- tool_blocks ----

  datatype Tool = Tool(id: string, name: string, input: Json)

  /** tool_id(): the n-th id the router makes up. */
  type Ids = nat -> string

  /** How many ids the calls without their own take. */
  function Missing(calls: seq<Call>): nat {
    if calls == [] then 0 else (if calls[0].id == "" then 1 else 0) + Missing(calls[1..])
  }

  function ToolsOf(calls: seq<Call>, made: nat, ids: Ids): (tools: seq<Tool>)
    ensures |tools| == |calls|
  {
    if calls == [] then []
    else
      var c := calls[0];
      if c.id == "" then [Tool(ids(made), c.name, c.input)] + ToolsOf(calls[1..], made + 1, ids)
      else [Tool(c.id, c.name, c.input)] + ToolsOf(calls[1..], made, ids)
  }

  // ---- the shape as a value ----

  datatype Open = Nothing | Thinking | Text

  datatype Shape = Shape(index: int, open: Open, sawTools: bool, finished: bool, made: nat, lastSent: real)

  datatype Settings = Settings(show: bool, keepalive: real, ids: Ids)

  datatype Out = Out(s: Shape, events: seq<Event>)

  function Fresh(now: real): Shape { Shape(-1, Nothing, false, false, 0, now) }

  function ClosingOf(open: Open, index: int): seq<Event> {
    match open
    case Nothing => []
    case Thinking => [SignatureDelta(index), BlockStop(index)]
    case Text => [BlockStop(index)]
  }

  function Closed(s: Shape): Out { Out(s.(open := Nothing), ClosingOf(s.open, s.index)) }

  function Started(s: Shape, kind: Kind): Out {
    Out(s.(open := Nothing, index := s.index + 1), ClosingOf(s.open, s.index) + [BlockStart(s.index + 1, kind)])
  }

  function KindOf(open: Open): Kind
    requires open != Nothing
  {
    if open == Thinking then ThinkingKind else TextKind
  }

  function DeltaOf(open: Open, index: int, text: string): Event {
    if open == Thinking then ThinkingDelta(index, text) else TextDelta(index, text)
  }

  function Added(cfg: Settings, s: Shape, kind: Open, text: string, now: real): Out
    requires kind != Nothing
  {
    var o := if s.open == kind then Out(s, []) else Started(s, KindOf(kind));
    var s1 := o.s.(open := kind);
    if kind == Thinking && !cfg.show then
      Out(s1, if o.events == [] && now - s.lastSent >= cfg.keepalive then [Ping] else o.events)
    else Out(s1, o.events + [DeltaOf(kind, s1.index, text)])
  }

  function UsedTool(s: Shape, t: Tool): Out {
    var o := Started(s.(sawTools := true), ToolKind(t.id, t.name));
    Out(o.s, o.events + [InputDelta(o.s.index, t.input), BlockStop(o.s.index)])
  }

  function UsedTools(s: Shape, tools: seq<Tool>): Out
    decreases |tools|
  {
    if tools == [] then Out(s, [])
    else
      var o := UsedTool(s, tools[0]);
      var rest := UsedTools(o.s, tools[1..]);
      Out(rest.s, o.events + rest.events)
  }

  function Ended(s: Shape, j: Chunk): Out {
    Out(s.(open := Nothing, finished := true),
        ClosingOf(s.open, s.index) + [MessageDelta(StopOf(j, s.sawTools), UsageOf(j)), MessageStop])
  }

  function Chunked(cfg: Settings, s: Shape, j: Chunk, now: real): Out {
    var o1 := if j.thinking != "" then Added(cfg, s, Thinking, j.thinking, now) else Out(s, []);
    var o2 := if j.content != "" then Added(cfg, o1.s, Text, j.content, now) else Out(o1.s, []);
    var o3 := UsedTools(o2.s, ToolsOf(j.calls, o2.s.made, cfg.ids));
    var s3 := o3.s.(made := o2.s.made + Missing(j.calls));
    var o4 := if j.done && !s3.finished then Ended(s3, j) else Out(s3, []);
    var events := o1.events + o2.events + o3.events + o4.events;
    Out(if events != [] then o4.s.(lastSent := now) else o4.s, events)
  }

  function TailOf(s: Shape): Out {
    if s.finished then Out(s, []) else Ended(s, EMPTY_CHUNK)
  }

  // ---- message(): the answer in one piece ----

  datatype Content = ThinkingContent(thinking: string) | TextContent(text: string) | ToolContent(tool: Tool)

  datatype Message = Message(content: seq<Content>, stop: StopReason, usage: Usage)

  function ToolContents(tools: seq<Tool>): seq<Content> {
    seq(|tools|, i requires 0 <= i < |tools| => ToolContent(tools[i]))
  }

  function MessageOf(cfg: Settings, j: Chunk, made: nat): Message {
    var tools := ToolsOf(j.calls, made, cfg.ids);
    Message(
      (if j.thinking != "" then [ThinkingContent(if cfg.show then j.thinking else "")] else [])
      + (if j.content != "" then [TextContent(j.content)] else [])
      + ToolContents(tools),
      StopOf(j, tools != []), UsageOf(j))
  }

  // ---- the object ----

  class AnthropicShape {
    const cfg: Settings
    var index: int
    var open: Open
    var sawTools: bool
    var finished: bool
    var made: nat
    var lastSent: real

    ghost function View(): Shape
      reads this
    {
      Shape(index, open, sawTools, finished, made, lastSent)
    }

    constructor (cfg: Settings, now: real)
      ensures View() == Fresh(now) && this.cfg == cfg
    {
      this.cfg := cfg;
      index, open, sawTools, finished, made, lastSent := -1, Nothing, false, false, 0, now;
    }

    method Head() returns (out: seq<Event>)
      ensures out == [MessageStart]
    {
      return [MessageStart];
    }

    method Close() returns (out: seq<Event>)
      modifies this`open
      ensures Out(View(), out) == Closed(old(View()))
    {
      if open == Nothing {
        return [];
      }
      out := [];
      if open == Thinking {
        out := out + [SignatureDelta(index)];
      }
      out := out + [BlockStop(index)];
      open := Nothing;
    }

    method Start(kind: Kind) returns (out: seq<Event>)
      modifies this`open, this`index
      ensures Out(View(), out) == Started(old(View()), kind)
    {
      out := Close();
      index := index + 1;
      out := out + [BlockStart(index, kind)];
    }

    method Delta(kind: Open, text: string, now: real) returns (out: seq<Event>)
      requires kind != Nothing
      modifies this`open, this`index
      ensures Out(View(), out) == Added(cfg, old(View()), kind, text, now)
    {
      out := [];
      if open != kind {
        out := Start(KindOf(kind));
        open := kind;
      }
      if kind == Thinking && !cfg.show {
        if out == [] && now - lastSent >= cfg.keepalive {
          out := [Ping];
        }
        return;
      }
      out := out + [DeltaOf(kind, index, text)];
    }

    method UseTool(t: Tool) returns (out: seq<Event>)
      modifies this`open, this`index, this`sawTools
      ensures Out(View(), out) == UsedTool(old(View()), t)
    {
      sawTools := true;
      out := Start(ToolKind(t.id, t.name));
      out := out + [InputDelta(index, t.input)];
      out := out + [BlockStop(index)];
    }

    method End(j: Chunk) returns (out: seq<Event>)
      modifies this`open, this`finished
      ensures Out(View(), out) == Ended(old(View()), j)
    {
      finished := true;
      out := Close();
      out := out + [MessageDelta(StopOf(j, sawTools), UsageOf(j))];
      out := out + [MessageStop];
    }

    method UseTools(tools: seq<Tool>) returns (out: seq<Event>)
      modifies this`open, this`index, this`sawTools
      ensures Out(View(), out) == UsedTools(old(View()), tools)
    {
      out := [];
      for i := 0 to |tools|
        invariant unchanged(`finished) && unchanged(`made) && unchanged(`lastSent)
        invariant var rest := UsedTools(View(), tools[i..]);
          Out(rest.s, out + rest.events) == UsedTools(old(View()), tools)
      {
        assert tools[i..][1..] == tools[i + 1..];
        ghost var before := out;
        var events := UseTool(tools[i]);
        out := out + events;
        ghost var rest := UsedTools(View(), tools[i + 1..]);
        assert before + (events + rest.events) == out + rest.events;
      }
    }

    method Chunk(j: Chunk, now: real) returns (out: seq<Event>)
      modifies this
      ensures Out(View(), out) == Chunked(cfg, old(View()), j, now)
    {
      hide Added, UsedTools, Ended, ToolsOf, Missing;
      out := [];
      if j.thinking != "" {
        out := Delta(Thinking, j.thinking, now);
      }
      ghost var o1 := Out(View(), out);
      if j.content != "" {
        var events := Delta(Text, j.content, now);
        out := out + events;
      }
      ghost var o2 := if j.content != "" then Added(cfg, o1.s, Text, j.content, now) else Out(o1.s, []);
      assert View() == o2.s && out == o1.events + o2.events;
      var tools := ToolsOf(j.calls, made, cfg.ids);
      var events := UseTools(tools);
      made := made + Missing(j.calls);
      out := out + events;
      ghost var o3 := UsedTools(o2.s, ToolsOf(j.calls, o2.s.made, cfg.ids));
      ghost var s3 := o3.s.(made := o2.s.made + Missing(j.calls));
      assert View() == s3 && out == o1.events + o2.events + o3.events;
      if j.done && !finished {
        events := End(j);
        out := out + events;
      }
      ghost var o4 := if j.done && !s3.finished then Ended(s3, j) else Out(s3, []);
      assert View() == o4.s && out == o1.events + o2.events + o3.events + o4.events;
      if out != [] {
        lastSent := now;
      }
    }

    method Tail() returns (out: seq<Event>)
      modifies this`open, this`finished
      ensures Out(View(), out) == TailOf(old(View()))
    {
      if finished {
        return [];
      }
      out := End(EMPTY_CHUNK);
    }
  }
}
