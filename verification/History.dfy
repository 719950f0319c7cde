/** Conversation histories: the Anthropic form in, Ollama's native form (router/skirnir_router/anthropic_api.py:
    messages_to_native, to_native), and the Anthropic form again for a cloud provider (router/skirnir_router/cloud.py: _an_body).
    Empty strings are missing fields; a tool's input is a JSON text. */
module History {
  import opened Common

  // ---- the three forms ----

  /** An image's source: only base64 with data is taken. */
  datatype Source = Base64(data: string) | Unsupported

  datatype Item = TextItem(text: string) | ImageItem(source: Source) | OtherItem

  datatype ResultContent = Text(text: string) | Items(items: seq<Item>)

  datatype Block =
    | TextBlock(text: string)
    | ImageBlock(source: Source)
    | ToolUse(id: string, name: string, input: string)
    | ToolResult(id: string, content: ResultContent, isError: bool)
    | Thinking
    | Unknown

  /** Malformed: neither text nor a list; `shown` is how the system text would print it. */
  datatype Content = Plain(text: string) | Blocks(blocks: seq<Block>) | Malformed(shown: string)

  datatype Message = Message(role: string, content: Content)

  datatype NativeCall = NativeCall(id: string, name: string, args: string)

  datatype Native = Native(role: string, content: string, images: seq<string>, calls: seq<NativeCall>, toolCallId: string, toolName: string)

  datatype Part =
    | TextPart(text: string)
    | ImagePart(data: string)
    | UsePart(id: string, name: string, args: string)
    | ResultPart(id: string, text: string)

  datatype AnMessage = AnMessage(role: string, parts: seq<Part>)

  // ---- text ----

  const GAP := "\n\n"

  function Joined(texts: seq<string>): string
    decreases |texts|
  {
    if texts == [] then "" else if |texts| == 1 then texts[0] else Joined(texts[..|texts| - 1]) + GAP + texts[|texts| - 1]
  }

  function Decimal(n: nat): string {
    if n < 10 then ["0123456789"[n]] else Decimal(n / 10) + ["0123456789"[n % 10]]
  }

  /** The id for the n-th pending call. */
  function ToolId(n: nat): string { "toolu_" + Decimal(n) }

  // ---- text_of, image_data, _tool_result ----

  function TextsOf(bs: seq<Block>): seq<string>
    decreases |bs|
  {
    if bs == [] then []
    else TextsOf(bs[..|bs| - 1]) + (if bs[|bs| - 1].TextBlock? then [bs[|bs| - 1].text] else [])
  }

  function TextOf(c: Content): string {
    match c
    case Plain(text) => text
    case Blocks(bs) => Joined(TextsOf(bs))
    case Malformed(shown) => shown
  }

  function ItemTexts(items: seq<Item>): seq<string>
    decreases |items|
  {
    if items == [] then []
    else ItemTexts(items[..|items| - 1]) + (if items[|items| - 1].TextItem? then [items[|items| - 1].text] else [])
  }

  predicate Readable(s: Source) { s.Base64? && s.data != "" }

  function ItemImages(items: seq<Item>): Option<seq<string>>
    decreases |items|
  {
    if items == [] then Some([])
    else
      match ItemImages(items[..|items| - 1])
      case None => None
      case Some(images) =>
        var last := items[|items| - 1];
        if !last.ImageItem? then Some(images)
        else if Readable(last.source) then Some(images + [last.source.data])
        else None
  }

  function ResultOf(b: Block, names: map<string, string>, keepIds: bool): Option<Native>
    requires b.ToolResult?
  {
    var text := if b.content.Text? then b.content.text else Joined(ItemTexts(b.content.items));
    match if b.content.Text? then Some([]) else ItemImages(b.content.items)
    case None => None
    case Some(images) =>
      Some(Native("tool", if b.isError then "Error: " + text else text, images, [],
                  if keepIds then b.id else "", if b.id in names then names[b.id] else ""))
  }

  // ---- messages_to_native ----

  /** What one turn's blocks have given so far. */
  datatype Turn = Turn(texts: seq<string>, images: seq<string>, calls: seq<NativeCall>, results: seq<Native>, names: map<string, string>)

  function Taken(t: Turn, role: string, b: Block, keepIds: bool): Option<Turn> {
    match b
    case TextBlock(text) => Some(t.(texts := t.texts + [text]))
    case ImageBlock(source) => if Readable(source) then Some(t.(images := t.images + [source.data])) else None
    case ToolUse(id, name, input) =>
      if role == "assistant" then Some(t.(names := t.names[id := name], calls := t.calls + [NativeCall("", name, input)])) else None
    case ToolResult(_, _, _) =>
      if role != "user" then None
      else match ResultOf(b, t.names, keepIds) { case None => None case Some(n) => Some(t.(results := t.results + [n])) }
    case Thinking => Some(t)
    case Unknown => None
  }

  function TurnOf(bs: seq<Block>, role: string, names: map<string, string>, keepIds: bool): Option<Turn>
    decreases |bs|
  {
    if bs == [] then Some(Turn([], [], [], [], names))
    else
      match TurnOf(bs[..|bs| - 1], role, names, keepIds)
      case None => None
      case Some(t) => Taken(t, role, bs[|bs| - 1], keepIds)
  }

  function Emitted(t: Turn, role: string): seq<Native> {
    t.results
    + (if role == "assistant" then [Native("assistant", Joined(t.texts), [], t.calls, "", "")]
       else if t.texts != [] || t.images != [] || t.results == [] then [Native("user", Joined(t.texts), t.images, [], "", "")]
       else [])
  }

  datatype Progress = Progress(out: seq<Native>, names: map<string, string>)

  function Converted(p: Progress, m: Message, keepIds: bool): Option<Progress> {
    if m.role == "system" then
      var text := TextOf(m.content);
      Some(if text != "" then p.(out := p.out + [Native("system", text, [], [], "", "")]) else p)
    else if m.role != "user" && m.role != "assistant" then None
    else
      match m.content
      case Plain(text) => Some(p.(out := p.out + [Native(m.role, text, [], [], "", "")]))
      case Malformed(_) => None
      case Blocks(bs) =>
        match TurnOf(bs, m.role, p.names, keepIds)
        case None => None
        case Some(t) => Some(Progress(p.out + Emitted(t, m.role), t.names))
  }

  function ConvertedAll(ms: seq<Message>, keepIds: bool): Option<Progress>
    decreases |ms|
  {
    if ms == [] then Some(Progress([], map[]))
    else
      match ConvertedAll(ms[..|ms| - 1], keepIds)
      case None => None
      case Some(p) => Converted(p, ms[|ms| - 1], keepIds)
  }

  lemma {:induction false} FailureStays(ms: seq<Message>, k: nat, keepIds: bool)
    requires k <= |ms| && ConvertedAll(ms[..k], keepIds).None?
    ensures ConvertedAll(ms, keepIds).None?
    decreases |ms|
  {
    if k < |ms| {
      assert ms[..|ms| - 1][..k] == ms[..k];
      FailureStays(ms[..|ms| - 1], k, keepIds);
    } else {
      assert ms[..k] == ms;
    }
  }

  lemma {:induction false} BlockFailureStays(bs: seq<Block>, k: nat, role: string, names: map<string, string>, keepIds: bool)
    requires k <= |bs| && TurnOf(bs[..k], role, names, keepIds).None?
    ensures TurnOf(bs, role, names, keepIds).None?
    decreases |bs|
  {
    if k < |bs| {
      assert bs[..|bs| - 1][..k] == bs[..k];
      BlockFailureStays(bs[..|bs| - 1], k, role, names, keepIds);
    } else {
      assert bs[..k] == bs;
    }
  }

  /** None is the 400. */
  method MessagesToNative(ms: seq<Message>, keepIds: bool) returns (r: Option<seq<Native>>)
    ensures r.None? <==> ConvertedAll(ms, keepIds).None?
    ensures r.Some? ==> r.value == ConvertedAll(ms, keepIds).value.out
  {
    hide Taken, Emitted, TextOf;
    var out: seq<Native> := [];
    var names: map<string, string> := map[];
    for i := 0 to |ms|
      invariant ConvertedAll(ms[..i], keepIds) == Some(Progress(out, names))
    {
      var m := ms[i];
      assert ms[..i + 1][..i] == ms[..i];
      ghost var next := Converted(Progress(out, names), m, keepIds);
      assert ConvertedAll(ms[..i + 1], keepIds) == next;
      if m.role == "system" {
        var text := TextOf(m.content);
        if text != "" {
          out := out + [Native("system", text, [], [], "", "")];
        }
      } else if m.role != "user" && m.role != "assistant" {
        FailureStays(ms, i + 1, keepIds);
        return None;
      } else {
        match m.content {
          case Plain(text) => out := out + [Native(m.role, text, [], [], "", "")];
          case Malformed(_) =>
            FailureStays(ms, i + 1, keepIds);
            return None;
          case Blocks(bs) =>
            var t := ReadTurn(bs, m.role, names, keepIds);
            if t.None? {
              FailureStays(ms, i + 1, keepIds);
              return None;
            }
            out := out + Emitted(t.value, m.role);
            names := t.value.names;
        }
      }
    }
    assert ms[..|ms|] == ms;
    return Some(out);
  }

  /** The loop over one turn's blocks. */
  method ReadTurn(bs: seq<Block>, role: string, names: map<string, string>, keepIds: bool) returns (r: Option<Turn>)
    ensures r == TurnOf(bs, role, names, keepIds)
  {
    var t := Turn([], [], [], [], names);
    for j := 0 to |bs|
      invariant TurnOf(bs[..j], role, names, keepIds) == Some(t)
    {
      assert bs[..j + 1][..j] == bs[..j];
      var next := Taken(t, role, bs[j], keepIds);
      if next.None? {
        BlockFailureStays(bs, j + 1, role, names, keepIds);
        return None;
      }
      t := next.value;
    }
    assert bs[..|bs|] == bs;
    return Some(t);
  }

  /** The messages of to_native: the system text, with the hint for a forced tool, comes first. */
  function WithSystem(system: Content, hint: string, ms: seq<Native>): seq<Native> {
    var text := TextOf(system);
    var all := if hint == "" then text else if text != "" then text + GAP + hint else hint;
    if all != "" then [Native("system", all, [], [], "", "")] + ms else ms
  }

  // ---- _an_body ----

  datatype Conv = Conv(system: seq<string>, out: seq<AnMessage>, pending: seq<string>)

  const EMPTY: Conv := Conv([], [], [])

  function ImageParts(images: seq<string>): (ps: seq<Part>)
    ensures |ps| == |images| && forall i :: 0 <= i < |ps| ==> ps[i] == ImagePart(images[i])
  {
    seq(|images|, i requires 0 <= i < |images| => ImagePart(images[i]))
  }

  /** The ids the calls get, given how many are pending. */
  function IdsOf(calls: seq<NativeCall>, pending: nat): (ids: seq<string>)
    ensures |ids| == |calls|
    decreases |calls|
  {
    if calls == [] then []
    else
      var n := |calls| - 1;
      IdsOf(calls[..n], pending) + [if calls[n].id != "" then calls[n].id else ToolId(pending + n + 1)]
  }

  function UseParts(calls: seq<NativeCall>, ids: seq<string>): (ps: seq<Part>)
    requires |ids| == |calls|
    ensures |ps| == |calls|
  {
    seq(|calls|, i requires 0 <= i < |calls| => UsePart(ids[i], calls[i].name, calls[i].args))
  }

  function PartsOf(m: Native, pending: nat): seq<Part> {
    var parts := (if m.content != "" then [TextPart(m.content)] else []) + ImageParts(m.images)
      + (if m.role == "assistant" then UseParts(m.calls, IdsOf(m.calls, pending)) else []);
    if parts == [] then [TextPart(" ")] else parts
  }

  /** Into the last message if that has the role, or else a new one. */
  function Attached(out: seq<AnMessage>, role: string, parts: seq<Part>): seq<AnMessage> {
    var n := |out|;
    if n > 0 && out[n - 1].role == role then out[n - 1 := AnMessage(role, out[n - 1].parts + parts)]
    else out + [AnMessage(role, parts)]
  }

  function Put(c: Conv, m: Native): Conv {
    if m.role == "system" then c.(system := c.system + [m.content])
    else if m.role == "tool" then
      var own := m.toolCallId == "" && c.pending != [];
      var id := if m.toolCallId != "" then m.toolCallId else if c.pending != [] then c.pending[0] else ToolId(1);
      Conv(c.system, c.out + [AnMessage("user", [ResultPart(id, m.content)])], if own then c.pending[1..] else c.pending)
    else
      Conv(c.system, Attached(c.out, m.role, PartsOf(m, |c.pending|)),
           if m.role == "assistant" then c.pending + IdsOf(m.calls, |c.pending|) else c.pending)
  }

  function PutAll(ms: seq<Native>): Conv
    decreases |ms|
  {
    if ms == [] then EMPTY else Put(PutAll(ms[..|ms| - 1]), ms[|ms| - 1])
  }

  method AnBody(ms: seq<Native>) returns (system: string, out: seq<AnMessage>)
    ensures system == Joined(PutAll(ms).system)
    ensures out == PutAll(ms).out
  {
    hide PutAll, PartsOf, IdsOf, Joined;
    var systems: seq<string> := [];
    var pending: seq<string> := [];
    out := [];
    PutFirst(ms);
    for i := 0 to |ms|
      invariant PutAll(ms[..i]) == Conv(systems, out, pending)
    {
      var m := ms[i];
      PutNext(ms, i);
      if m.role == "system" {
        systems := systems + [m.content];
        continue;
      }
      if m.role == "tool" {
        var id := m.toolCallId;
        if id == "" {
          if pending != [] {
            id, pending := pending[0], pending[1..];
          } else {
            id := ToolId(1);
          }
        }
        out := out + [AnMessage("user", [ResultPart(id, m.content)])];
        continue;
      }
      var parts := PartsOf(m, |pending|);
      if m.role == "assistant" {
        pending := pending + IdsOf(m.calls, |pending|);
      }
      if |out| > 0 && out[|out| - 1].role == m.role {
        out := out[|out| - 1 := AnMessage(m.role, out[|out| - 1].parts + parts)];
      } else {
        out := out + [AnMessage(m.role, parts)];
      }
    }
    assert ms[..|ms|] == ms;
    system := Joined(systems);
  }

  lemma PutFirst(ms: seq<Native>)
    ensures PutAll(ms[..0]) == EMPTY
  {
  }

  lemma PutNext(ms: seq<Native>, i: nat)
    requires i < |ms|
    ensures PutAll(ms[..i + 1]) == Put(PutAll(ms[..i]), ms[i])
  {
    assert ms[..i + 1][..i] == ms[..i];
  }

  lemma PutLast(ms: seq<Native>, m: Native)
    ensures PutAll(ms + [m]) == Put(PutAll(ms), m)
  {
  }
}
