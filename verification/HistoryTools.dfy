/** What becomes of the tool calls and results of a history, which histories are refused, and how texts are joined. */
module HistoryTools {
  import opened Common
  import opened History

  // ---- texts ----

  /** Texts are joined with an empty line between them, none is lost, and a single one stays as it is. */
  lemma {:induction false} JoinedIs(a: seq<string>, b: seq<string>, text: string)
    requires a != [] && b != []
    ensures Joined(a + b) == Joined(a) + "\n\n" + Joined(b)
    ensures Joined([text]) == text && Joined([]) == ""
    decreases |b|
  {
    var n := |b| - 1;
    assert (a + b)[..|a| + n] == a + b[..n] && (a + b)[|a| + n] == b[n];
    if n == 0 {
      assert a + b[..n] == a;
    } else {
      JoinedIs(a, b[..n], text);
      assert Joined(a) + "\n\n" + Joined(b[..n]) + "\n\n" + b[n] == Joined(a) + "\n\n" + (Joined(b[..n]) + "\n\n" + b[n]);
    }
  }

  /** The value of a text of decimal digits. */
  function Value(text: string): int
    decreases |text|
  {
    if text == "" then 0 else 10 * Value(text[..|text| - 1]) + (text[|text| - 1] as int - '0' as int)
  }

  /** The id of the n-th pending call is toolu_ and n in decimal. */
  lemma {:induction false} IdIsDecimal(n: nat)
    ensures Decimal(n) != "" && Value(Decimal(n)) == n && ToolId(n) == "toolu_" + Decimal(n)
    ensures forall i :: 0 <= i < |Decimal(n)| ==> '0' <= Decimal(n)[i] <= '9'
    ensures n > 0 ==> Decimal(n)[0] != '0'
    decreases n
  {
    var d := n % 10;
    assert "0123456789"[d] as int == '0' as int + d;
    if n < 10 {
      assert Decimal(n)[..0] == "";
    } else {
      IdIsDecimal(n / 10);
      assert Decimal(n)[..|Decimal(n)| - 1] == Decimal(n / 10);
    }
  }

  // ---- which histories are refused ----

  predicate FineItems(items: seq<Item>) {
    forall i :: 0 <= i < |items| && items[i].ImageItem? ==> items[i].source.Base64? && items[i].source.data != ""
  }

  /** A block the router takes from this role. */
  predicate FineBlock(b: Block, role: string) {
    match b
    case TextBlock(_) => true
    case Thinking => true
    case ImageBlock(source) => source.Base64? && source.data != ""
    case ToolUse(_, _, _) => role == "assistant"
    case ToolResult(_, content, _) => role == "user" && (content.Items? ==> FineItems(content.items))
    case Unknown => false
  }

  predicate FineMessage(m: Message) {
    || m.role == "system"
    || ((m.role == "user" || m.role == "assistant")
        && (m.content.Plain? || (m.content.Blocks? && forall i :: 0 <= i < |m.content.blocks| ==> FineBlock(m.content.blocks[i], m.role))))
  }

  lemma {:induction false} ItemImagesIff(items: seq<Item>)
    ensures ItemImages(items).Some? <==> FineItems(items)
    decreases |items|
  {
    if items != [] {
      var n := |items| - 1;
      ItemImagesIff(items[..n]);
      assert FineItems(items) <==> FineItems(items[..n]) && (items[n].ImageItem? ==> items[n].source.Base64? && items[n].source.data != "");
    }
  }

  lemma {:induction false} TurnIff(bs: seq<Block>, role: string, names: map<string, string>, keepIds: bool)
    ensures TurnOf(bs, role, names, keepIds).Some? <==> forall i :: 0 <= i < |bs| ==> FineBlock(bs[i], role)
    decreases |bs|
  {
    if bs != [] {
      var n := |bs| - 1;
      TurnIff(bs[..n], role, names, keepIds);
      if bs[n].ToolResult? && bs[n].content.Items? {
        ItemImagesIff(bs[n].content.items);
      }
      hide FineItems, ItemImages;
      assert (forall i :: 0 <= i < |bs| ==> FineBlock(bs[i], role)) <==>
        (forall i :: 0 <= i < n ==> FineBlock(bs[..n][i], role)) && FineBlock(bs[n], role);
    }
  }

  /** A history is refused exactly if some message has another role, no text or blocks for content, or a block that is not taken from
      its role. */
  lemma {:induction false} ConvertsIff(h: seq<Message>, keepIds: bool)
    ensures ConvertedAll(h, keepIds).Some? <==> forall i :: 0 <= i < |h| ==> FineMessage(h[i])
    decreases |h|
  {
    if h != [] {
      hide FineBlock, TurnOf;
      var n := |h| - 1;
      ConvertsIff(h[..n], keepIds);
      var p := ConvertedAll(h[..n], keepIds);
      if p.Some? && h[n].content.Blocks? {
        TurnIff(h[n].content.blocks, h[n].role, p.value.names, keepIds);
      }
      assert (forall i :: 0 <= i < |h| ==> FineMessage(h[i])) <==>
        (forall i :: 0 <= i < n ==> FineMessage(h[..n][i])) && FineMessage(h[n]);
    }
  }

  // ---- results ----

  /** A result becomes a tool message with its text, marked if it is an error, the name of the tool it answers if that is known, and
      the client's id only where ids are kept. */
  lemma ResultIs(b: Block, names: map<string, string>, keepIds: bool)
    requires b.ToolResult? && FineBlock(b, "user")
    ensures ResultOf(b, names, keepIds).Some?
    ensures var r := ResultOf(b, names, keepIds).value;
      var text := if b.content.Text? then b.content.text else Joined(ItemTexts(b.content.items));
      && r.role == "tool" && r.calls == []
      && r.content == (if b.isError then "Error: " else "") + text
      && r.toolCallId == (if keepIds then b.id else "")
      && (b.id in names ==> r.toolName == names[b.id]) && (b.id !in names ==> r.toolName == "")
      && (b.content.Text? ==> r.images == [])
      && (b.content.Items? ==> ItemImages(b.content.items) == Some(r.images))
  {
    if b.content.Items? {
      ItemImagesIff(b.content.items);
    }
  }

  /** The j-th image of a result is that of its j-th image item, as it came. */
  lemma {:induction false} ResultImagesAre(items: seq<Item>, k: nat)
    requires FineItems(items) && k < |items| && items[k].ImageItem?
    ensures ItemImages(items).Some? && ItemImages(items[..k]).Some?
    ensures var j := |ItemImages(items[..k]).value|; j < |ItemImages(items).value| && ItemImages(items).value[j] == items[k].source.data
    decreases |items|
  {
    var n := |items| - 1;
    assert FineItems(items[..n]) && FineItems(items[..k]);
    ItemImagesIff(items);
    ItemImagesIff(items[..k]);
    if k < n {
      ResultImagesAre(items[..n], k);
      assert items[..n][..k] == items[..k];
    }
  }

  /** A user turn's results come in order, before its own text, each named by the calls of the turns before. */
  lemma {:induction false} ResultsInOrder(bs: seq<Block>, names: map<string, string>, keepIds: bool, k: nat)
    requires TurnOf(bs, "user", names, keepIds).Some? && k < |bs| && bs[k].ToolResult?
    ensures TurnOf(bs[..k], "user", names, keepIds).Some?
    ensures var t, j := TurnOf(bs, "user", names, keepIds).value, |TurnOf(bs[..k], "user", names, keepIds).value.results|;
      j < |t.results| && ResultOf(bs[k], names, keepIds) == Some(t.results[j]) && t.names == names
    decreases |bs|
  {
    hide ResultOf;
    var n := |bs| - 1;
    UserTurnNames(bs[..n], names, keepIds);
    if k < n {
      ResultsInOrder(bs[..n], names, keepIds, k);
      assert bs[..n][..k] == bs[..k];
    }
  }

  lemma {:induction false} UserTurnNames(bs: seq<Block>, names: map<string, string>, keepIds: bool)
    ensures var t := TurnOf(bs, "user", names, keepIds); t.Some? ==> t.value.names == names && t.value.calls == []
    decreases |bs|
  {
    if bs != [] {
      hide ResultOf;
      UserTurnNames(bs[..|bs| - 1], names, keepIds);
    }
  }

  /** A turn's messages: first its results, and then one message of its own with all its text - from an assistant always, with its
      calls; from a user unless there were only results. */
  lemma EmittedIs(t: Turn, role: string)
    requires role == "user" || role == "assistant"
    ensures var out := Emitted(t, role);
      && t.results <= out && |out| <= |t.results| + 1
      && (|out| == |t.results| <==> role == "user" && t.results != [] && t.texts == [] && t.images == [])
      && (|out| > |t.results| ==> var m := out[|t.results|];
            m.role == role && m.content == Joined(t.texts) && m.images == (if role == "user" then t.images else [])
            && m.calls == (if role == "assistant" then t.calls else []))
  {
  }

  // ---- calls ----

  /** An assistant turn's calls come in order with name and input unchanged and without an id. */
  lemma {:induction false} CallsInOrder(bs: seq<Block>, names: map<string, string>, keepIds: bool, k: nat)
    requires TurnOf(bs, "assistant", names, keepIds).Some? && k < |bs| && bs[k].ToolUse?
    ensures TurnOf(bs[..k], "assistant", names, keepIds).Some?
    ensures var t, j := TurnOf(bs, "assistant", names, keepIds).value, |TurnOf(bs[..k], "assistant", names, keepIds).value.calls|;
      j < |t.calls| && t.calls[j] == NativeCall("", bs[k].name, bs[k].input)
    decreases |bs|
  {
    hide ResultOf;
    var n := |bs| - 1;
    if k < n {
      CallsInOrder(bs[..n], names, keepIds, k);
      assert bs[..n][..k] == bs[..k];
    }
  }

  /** A result is named by the last call with its id. */
  lemma {:induction false} LastCallNames(bs: seq<Block>, names: map<string, string>, keepIds: bool, k: nat)
    requires TurnOf(bs, "assistant", names, keepIds).Some? && k < |bs| && bs[k].ToolUse?
    requires forall i :: k < i < |bs| && bs[i].ToolUse? ==> bs[i].id != bs[k].id
    ensures var t := TurnOf(bs, "assistant", names, keepIds).value; bs[k].id in t.names && t.names[bs[k].id] == bs[k].name
    decreases |bs|
  {
    hide ResultOf;
    var n := |bs| - 1;
    if k < n {
      LastCallNames(bs[..n], names, keepIds, k);
    }
  }

  /** The k-th block of the i-th message is the last call with this id. */
  predicate LastUse(h: seq<Message>, id: string, i: nat, k: nat) {
    && UseAt(h, id, i, k)
    && (forall l :: k < l < |h[i].content.blocks| ==> !UseAt(h, id, i, l))
    && (forall j, l :: i < j < |h| && h[j].content.Blocks? && 0 <= l < |h[j].content.blocks| ==> !UseAt(h, id, j, l))
  }

  predicate UseAt(h: seq<Message>, id: string, i: nat, k: nat) {
    && i < |h| && h[i].role == "assistant" && h[i].content.Blocks? && k < |h[i].content.blocks|
    && h[i].content.blocks[k].ToolUse? && h[i].content.blocks[k].id == id
  }

  lemma TurnNames(h: seq<Message>, keepIds: bool)
    requires h != [] && ConvertedAll(h, keepIds).Some?
    ensures var n := |h| - 1;
      && ConvertedAll(h[..n], keepIds).Some?
      && var was, p := ConvertedAll(h[..n], keepIds).value, ConvertedAll(h, keepIds).value;
      && was.out <= p.out
      && (h[n].role != "system" && h[n].content.Blocks? ==>
            var t := TurnOf(h[n].content.blocks, h[n].role, was.names, keepIds);
            t.Some? && p.names == t.value.names && p.out == was.out + Emitted(t.value, h[n].role))
      && (h[n].role == "system" || !h[n].content.Blocks? ==> p.names == was.names)
  {
  }

  /** Names are remembered over the whole history: those of the last call with the id. */
  lemma {:induction false} HistoryNames(h: seq<Message>, keepIds: bool, id: string, i: nat, k: nat)
    requires ConvertedAll(h, keepIds).Some? && LastUse(h, id, i, k)
    ensures var names := ConvertedAll(h, keepIds).value.names; id in names && names[id] == h[i].content.blocks[k].name
    decreases |h|
  {
    var n := |h| - 1;
    TurnNames(h, keepIds);
    hide TurnOf, ConvertedAll, Emitted;
    var was := ConvertedAll(h[..n], keepIds).value.names;
    if i == n {
      var bs := h[n].content.blocks;
      forall l | k < l < |bs| && bs[l].ToolUse? ensures bs[l].id != id {
        assert !UseAt(h, id, i, l);
      }
      LastCallNames(bs, was, keepIds, k);
    } else {
      forall j, l | 0 <= j < n && h[j].content.Blocks? && 0 <= l < |h[j].content.blocks| ensures UseAt(h[..n], id, j, l) == UseAt(h, id, j, l) {
      }
      assert LastUse(h[..n], id, i, k);
      HistoryNames(h[..n], keepIds, id, i, k);
      if h[n].role != "system" && h[n].content.Blocks? {
        var bs := h[n].content.blocks;
        NoUseInTurn(h, id, n, bs, keepIds);
        NamesStay(bs, h[n].role, was, keepIds, id);
      }
    }
  }

  /** Only an assistant's turn has calls. */
  lemma NoUseInTurn(h: seq<Message>, id: string, n: nat, bs: seq<Block>, keepIds: bool)
    requires n < |h| && h[n].role != "system" && h[n].content == Blocks(bs) && ConvertedAll(h, keepIds).Some?
    requires forall l :: 0 <= l < |bs| ==> !UseAt(h, id, n, l)
    ensures forall l :: 0 <= l < |bs| && bs[l].ToolUse? ==> bs[l].id != id
  {
    ConvertsIff(h, keepIds);
    hide ConvertedAll;
    assert FineMessage(h[n]);
    forall l | 0 <= l < |bs| && bs[l].ToolUse? ensures bs[l].id != id {
      assert FineBlock(bs[l], h[n].role);
      assert !UseAt(h, id, n, l);
    }
  }

  /** The result for this block is among the messages, and names this tool. */
  ghost predicate Named(out: seq<Native>, b: Block, keepIds: bool, name: string) {
    exists r :: r in out && r.role == "tool" && r.toolName == name && b.ToolResult? && IsResult(r, b, keepIds)
  }

  predicate IsResult(r: Native, b: Block, keepIds: bool)
    requires b.ToolResult?
  {
    ResultOf(b, map[b.id := r.toolName], keepIds) == Some(r)
  }

  /** So a result in the last turn becomes a tool message that names the tool whose call it answers, wherever in the history that
      was. */
  lemma ResultNamesItsTool(front: seq<Message>, bs: seq<Block>, keepIds: bool, k: nat, i: nat, c: nat)
    requires ConvertedAll(front + [Message("user", Blocks(bs))], keepIds).Some?
    requires k < |bs| && bs[k].ToolResult? && LastUse(front, bs[k].id, i, c)
    ensures Named(ConvertedAll(front + [Message("user", Blocks(bs))], keepIds).value.out, bs[k], keepIds, front[i].content.blocks[c].name)
  {
    var h, n := front + [Message("user", Blocks(bs))], |front|;
    assert h[..n] == front && h[n] == Message("user", Blocks(bs));
    TurnNames(h, keepIds);
    HistoryNames(front, keepIds, bs[k].id, i, c);
    var was := ConvertedAll(front, keepIds).value;
    var out := ConvertedAll(h, keepIds).value.out;
    hide ConvertedAll, LastUse;
    ResultsInOrder(bs, was.names, keepIds, k);
    var t := TurnOf(bs, "user", was.names, keepIds).value;
    var j := |TurnOf(bs[..k], "user", was.names, keepIds).value.results|;
    hide TurnOf;
    EmittedIs(t, "user");
    assert Emitted(t, "user")[j] == t.results[j];
    hide Emitted;
    ResultIsNamed(bs[k], was.names, keepIds, t.results[j]);
    assert t.results[j] in out;
  }

  lemma ResultIsNamed(b: Block, names: map<string, string>, keepIds: bool, r: Native)
    requires b.ToolResult? && ResultOf(b, names, keepIds) == Some(r) && b.id in names
    ensures r.role == "tool" && r.toolName == names[b.id] && IsResult(r, b, keepIds)
  {
  }

  /** The names of other ids stay. */
  lemma {:induction false} NamesStay(bs: seq<Block>, role: string, names: map<string, string>, keepIds: bool, id: string)
    requires forall i :: 0 <= i < |bs| && bs[i].ToolUse? ==> bs[i].id != id
    ensures var t := TurnOf(bs, role, names, keepIds);
      t.Some? ==> (id in t.value.names <==> id in names) && (id in names ==> t.value.names[id] == names[id])
    decreases |bs|
  {
    if bs != [] {
      hide ResultOf;
      NamesStay(bs[..|bs| - 1], role, names, keepIds, id);
    }
  }

  /** The provider gets the calls of an assistant message last, in order, with name and arguments unchanged; the text comes first,
      the images next. */
  lemma CallsArePassedOn(m: Native, pending: nat, i: nat)
    requires m.role == "assistant" && i < |m.calls|
    ensures var ps := PartsOf(m, pending); var n := |ps| - |m.calls|;
      && n == (if m.content != "" then 1 else 0) + |m.images| && ps[n + i].UsePart?
      && ps[n + i].name == m.calls[i].name && ps[n + i].args == m.calls[i].args
      && (m.calls[i].id != "" ==> ps[n + i].id == m.calls[i].id)
      && (m.content != "" ==> ps[0] == TextPart(m.content))
  {
    if m.calls[i].id != "" {
      IdsKept(m.calls, pending, i);
    }
    hide IdsOf;
  }

  lemma {:induction false} IdsKept(calls: seq<NativeCall>, pending: nat, i: nat)
    requires i < |calls| && calls[i].id != ""
    ensures IdsOf(calls, pending)[i] == calls[i].id
    decreases |calls|
  {
    if i < |calls| - 1 {
      IdsKept(calls[..|calls| - 1], pending, i);
    }
  }

  /** And each tool message as one result in a user message of its own, with its text unchanged. */
  lemma ResultIsPassedOn(ms: seq<Native>, m: Native)
    requires m.role == "tool"
    ensures var was, out := PutAll(ms).out, PutAll(ms + [m]).out;
      && |out| == |was| + 1 && out[..|was|] == was && out[|was|].role == "user"
      && |out[|was|].parts| == 1 && out[|was|].parts[0].ResultPart? && out[|was|].parts[0].text == m.content
  {
    PutLast(ms, m);
  }

  /** The system text comes first, with the hint for a forced tool behind it; without either there is no system message. */
  lemma SystemComesFirst(system: Content, hint: string, ms: seq<Native>)
    ensures var out, text := WithSystem(system, hint, ms), TextOf(system);
      if text == "" && hint == "" then out == ms
      else |out| == |ms| + 1 && out[1..] == ms && out[0].role == "system"
           && out[0].content == (if text == "" then hint else if hint == "" then text else text + "\n\n" + hint)
  {
  }
}
