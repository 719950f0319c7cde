/** Merging loses nothing, a streamed answer equals the answer in one piece, and hidden thinking changes no block. */
module AnthropicUnary {
  import opened Common
  import opened AnthropicStream
  import opened AnthropicGrammar
  import opened AnthropicReplay

  // ---- merging is lossless and maximal, and the only way to be so ----

  /** One letter of thinking or text, or one tool call. */
  datatype Atom = Letter(thinking: bool, c: char) | Called(tool: Tool)

  function Rank(c: Content): nat { if c.ThinkingContent? then 0 else if c.TextContent? then 1 else 2 }

  function PieceRank(p: Piece): nat { if p.Think? then 0 else if p.Say? then 1 else 2 }

  function AtomRank(a: Atom): nat { if a.Called? then 2 else if a.thinking then 0 else 1 }

  function Letters(thinking: bool, text: string): (r: seq<Atom>)
    ensures |r| == |text| && forall i :: 0 <= i < |r| ==> r[i] == Letter(thinking, text[i])
  {
    seq(|text|, i requires 0 <= i < |text| => Letter(thinking, text[i]))
  }

  function ContentAtoms(c: Content): (r: seq<Atom>)
    ensures forall i :: 0 <= i < |r| ==> AtomRank(r[i]) == Rank(c)
  {
    match c
    case ThinkingContent(text) => Letters(true, text)
    case TextContent(text) => Letters(false, text)
    case ToolContent(tool) => [Called(tool)]
  }

  function PieceAtoms(p: Piece): seq<Atom> {
    match p
    case Think(text) => Letters(true, text)
    case Say(text) => Letters(false, text)
    case Use(tool) => [Called(tool)]
  }

  function Spelled(cs: seq<Content>): seq<Atom>
    decreases |cs|
  {
    if cs == [] then [] else Spelled(cs[..|cs| - 1]) + ContentAtoms(cs[|cs| - 1])
  }

  function SpelledPieces(ps: seq<Piece>): seq<Atom>
    decreases |ps|
  {
    if ps == [] then [] else SpelledPieces(ps[..|ps| - 1]) + PieceAtoms(ps[|ps| - 1])
  }

  /** No block is empty and no two neighbours could be one block. */
  predicate Tidy(cs: seq<Content>) {
    && (forall i :: 0 <= i < |cs| ==> ContentAtoms(cs[i]) != [])
    && (forall i :: 0 <= i < |cs| - 1 ==> Rank(cs[i]) == Rank(cs[i + 1]) ==> Rank(cs[i]) == 2)
  }

  predicate Solid(ps: seq<Piece>) {
    forall i :: 0 <= i < |ps| ==> PieceAtoms(ps[i]) != []
  }

  function Merged(show: bool, ps: seq<Piece>): seq<Content> { MergeAll(show, [], ps) }

  lemma MergedLast(show: bool, ps: seq<Piece>)
    requires ps != []
    ensures Merged(show, ps) == Merge(show, Merged(show, ps[..|ps| - 1]), ps[|ps| - 1])
  {
    var n := |ps| - 1;
    assert ps == ps[..n] + [ps[n]];
    MergeConcat(show, [], ps[..n], [ps[n]]);
    MergeSome(show, Merged(show, ps[..n]), ps[n]);
  }

  lemma SpelledPush(cs: seq<Content>, c: Content)
    ensures Spelled(cs + [c]) == Spelled(cs) + ContentAtoms(c)
  {
  }

  /** The last block grows by the piece. */
  lemma GrownAtoms(c: Content, p: Piece)
    requires (c.ThinkingContent? && p.Think?) || (c.TextContent? && p.Say?)
    ensures ContentAtoms(if p.Think? then ThinkingContent(c.thinking + p.text) else TextContent(c.text + p.text))
         == ContentAtoms(c) + PieceAtoms(p)
  {
  }

  lemma MergeSpells(cs: seq<Content>, p: Piece)
    ensures Spelled(Merge(true, cs, p)) == Spelled(cs) + PieceAtoms(p)
  {
    hide Spelled, ContentAtoms, PieceAtoms;
    var next, n := Merge(true, cs, p), |cs| - 1;
    if |next| == |cs| {
      var front := cs[..n];
      assert cs == front + [cs[n]] && next == front + [next[n]];
      SpelledPush(front, cs[n]);
      SpelledPush(front, next[n]);
      GrownAtoms(cs[n], p);
      assert Spelled(front) + (ContentAtoms(cs[n]) + PieceAtoms(p)) == Spelled(cs) + PieceAtoms(p);
    } else {
      assert next == cs + [next[|cs|]];
      SpelledPush(cs, next[|cs|]);
      NewAtoms(p);
    }
  }

  lemma NewAtoms(p: Piece)
    ensures ContentAtoms(match p case Think(t) => ThinkingContent(t) case Say(t) => TextContent(t) case Use(t) => ToolContent(t))
         == PieceAtoms(p)
  {
  }

  lemma MergeTidies(cs: seq<Content>, p: Piece)
    requires Tidy(cs) && PieceAtoms(p) != []
    ensures Tidy(Merge(true, cs, p))
  {
    var next, n := Merge(true, cs, p), |cs| - 1;
    if |next| == |cs| {
      GrownAtoms(cs[n], p);
      assert Rank(next[n]) == Rank(cs[n]);
    } else {
      NewAtoms(p);
      assert forall i :: 0 <= i < |cs| ==> next[i] == cs[i];
    }
  }

  /** The client's blocks spell what the pieces spell, and are as long as they can be. */
  lemma {:induction false} MergedIsTidy(ps: seq<Piece>)
    requires Solid(ps)
    ensures Spelled(Merged(true, ps)) == SpelledPieces(ps)
    ensures Tidy(Merged(true, ps))
    decreases |ps|
  {
    if ps != [] {
      hide Merge, Tidy, Spelled, PieceAtoms;
      var n := |ps| - 1;
      MergedLast(true, ps);
      MergedIsTidy(ps[..n]);
      MergeSpells(Merged(true, ps[..n]), ps[n]);
      MergeTidies(Merged(true, ps[..n]), ps[n]);
    } else {
      assert Tidy([]);
    }
  }

  lemma LastAtom(cs: seq<Content>)
    requires Tidy(cs) && cs != []
    ensures var s := Spelled(cs); s != [] && AtomRank(s[|s| - 1]) == Rank(cs[|cs| - 1])
  {
  }

  /** Where the last block begins shows in the atoms: they change their rank there. */
  lemma LastBlockShows(cs: seq<Content>)
    requires Tidy(cs) && cs != []
    ensures var last, s := cs[|cs| - 1], Spelled(cs); var n := |ContentAtoms(last)|;
      && 0 < n <= |s|
      && (Rank(last) == 2 ==> n == 1)
      && (forall k :: |s| - n <= k < |s| ==> AtomRank(s[k]) == Rank(last))
      && (n < |s| && Rank(last) != 2 ==> AtomRank(s[|s| - n - 1]) != Rank(last))
  {
  }

  lemma LastLengths(a: seq<Content>, b: seq<Content>)
    requires Tidy(a) && Tidy(b) && a != [] && b != [] && Spelled(a) == Spelled(b)
    ensures |ContentAtoms(a[|a| - 1])| == |ContentAtoms(b[|b| - 1])|
  {
    hide Spelled, ContentAtoms, Tidy, AtomRank, Rank;
    LastBlockShows(a);
    LastBlockShows(b);
    var s := Spelled(a);
    assert AtomRank(s[|s| - 1]) == Rank(a[|a| - 1]) == Rank(b[|b| - 1]);
  }

  lemma SplitSame(p: seq<Atom>, x: seq<Atom>, q: seq<Atom>, y: seq<Atom>)
    requires p + x == q + y && |x| == |y|
    ensures p == q && x == y
  {
    assert p == (p + x)[..|p|] == (q + y)[..|q|] == q;
    assert x == (p + x)[|p|..] == (q + y)[|q|..] == y;
  }

  /** There is only one tidy list of blocks for a text, so merging has no choice. */
  lemma {:induction false} TidyIsUnique(a: seq<Content>, b: seq<Content>)
    requires Tidy(a) && Tidy(b) && Spelled(a) == Spelled(b)
    ensures a == b
    decreases |a|
  {
    if a == [] || b == [] {
      if a != [] { LastAtom(a); }
      if b != [] { LastAtom(b); }
    } else {
      hide ContentAtoms;
      var m, n := |a| - 1, |b| - 1;
      LastLengths(a, b);
      SplitSame(Spelled(a[..m]), ContentAtoms(a[m]), Spelled(b[..n]), ContentAtoms(b[n]));
      SameAtoms(a[m], b[n]);
      TidyFront(a);
      TidyFront(b);
      hide Tidy, Spelled;
      TidyIsUnique(a[..m], b[..n]);
      assert a == a[..m] + [a[m]] && b == b[..n] + [b[n]];
    }
  }

  lemma TidyFront(cs: seq<Content>)
    requires Tidy(cs) && cs != []
    ensures Tidy(cs[..|cs| - 1])
  {
  }

  lemma SameAtoms(x: Content, y: Content)
    requires ContentAtoms(x) == ContentAtoms(y) && ContentAtoms(x) != []
    ensures x == y
  {
    var atoms := ContentAtoms(x);
    assert AtomRank(atoms[0]) == Rank(x) == Rank(y);
    match x {
      case ThinkingContent(text) =>
        assert forall i :: 0 <= i < |text| ==> atoms[i].c == text[i] == y.thinking[i];
        assert text == y.thinking;
      case TextContent(text) =>
        assert forall i :: 0 <= i < |text| ==> atoms[i].c == text[i] == y.text[i];
        assert text == y.text;
      case ToolContent(_) =>
    }
  }

  // ---- the answer in one piece ----

  function ThinkText(ps: seq<Piece>): string
    decreases |ps|
  {
    if ps == [] then ""
    else ThinkText(ps[..|ps| - 1]) + (if ps[|ps| - 1].Think? then ps[|ps| - 1].text else "")
  }

  function SayText(ps: seq<Piece>): string
    decreases |ps|
  {
    if ps == [] then ""
    else SayText(ps[..|ps| - 1]) + (if ps[|ps| - 1].Say? then ps[|ps| - 1].text else "")
  }

  function ToolsIn(ps: seq<Piece>): seq<Tool>
    decreases |ps|
  {
    if ps == [] then []
    else ToolsIn(ps[..|ps| - 1]) + (if ps[|ps| - 1].Use? then [ps[|ps| - 1].tool] else [])
  }

  function Unary(show: bool, thinking: string, text: string, tools: seq<Tool>): seq<Content> {
    (if thinking != "" then [ThinkingContent(if show then thinking else "")] else [])
    + (if text != "" then [TextContent(text)] else [])
    + ToolContents(tools)
  }

  /** First thinking, then text, then tool calls. */
  predicate Ordered(ps: seq<Piece>) {
    forall i :: 0 <= i < |ps| - 1 ==> PieceRank(ps[i]) <= PieceRank(ps[i + 1])
  }

  predicate OrderedContent(cs: seq<Content>) {
    forall i :: 0 <= i < |cs| - 1 ==> Rank(cs[i]) <= Rank(cs[i + 1])
  }

  lemma {:induction false} TextsUpTo(ps: seq<Piece>, top: nat)
    requires Ordered(ps) && Solid(ps) && (ps != [] ==> PieceRank(ps[|ps| - 1]) <= top)
    ensures top < 2 ==> ToolsIn(ps) == []
    ensures top < 1 ==> SayText(ps) == "" && (ThinkText(ps) != "" <==> ps != [])
    ensures ps != [] && ps[|ps| - 1].Say? ==> SayText(ps) != ""
    ensures ps != [] && ps[|ps| - 1].Think? ==> ThinkText(ps) != ""
    ensures ps != [] && ps[|ps| - 1].Use? ==> ToolsIn(ps) != []
    ensures (ps == [] || !ps[|ps| - 1].Use?) ==> ToolsIn(ps) == []
    ensures (ps == [] || ps[|ps| - 1].Think?) ==> SayText(ps) == ""
    decreases |ps|
  {
    if ps != [] {
      var n := |ps| - 1;
      assert n > 0 ==> PieceRank(ps[n - 1]) <= PieceRank(ps[n]);
      TextsUpTo(ps[..n], PieceRank(ps[n]));
      assert PieceAtoms(ps[n]) != [];
    }
  }

  lemma {:induction false} OrderedIsUnary(show: bool, ps: seq<Piece>)
    requires Ordered(ps) && Solid(ps)
    ensures Merged(show, ps) == Unary(show, ThinkText(ps), SayText(ps), ToolsIn(ps))
    decreases |ps|
  {
    if ps != [] {
      var n := |ps| - 1;
      var front, last := ps[..n], ps[n];
      var think, say, tools := ThinkText(front), SayText(front), ToolsIn(front);
      OrderedIsUnary(show, front);
      MergedLast(show, ps);
      assert n > 0 ==> PieceRank(ps[n - 1]) <= PieceRank(last);
      TextsUpTo(front, PieceRank(last));
      assert PieceAtoms(last) != [];
      UnaryGrows(show, think, say, tools, last);
    }
  }

  lemma UnaryGrows(show: bool, think: string, say: string, tools: seq<Tool>, last: Piece)
    requires PieceAtoms(last) != []
    requires !last.Use? ==> tools == []
    requires last.Think? ==> say == ""
    ensures Merge(show, Unary(show, think, say, tools), last)
         == Unary(show, think + (if last.Think? then last.text else ""), say + (if last.Say? then last.text else ""),
                  tools + (if last.Use? then [last.tool] else []))
  {
    assert think + "" == think && say + "" == say && tools + [] == tools;
    match last {
      case Think(text) => ThinkingGrows(show, think, text);
      case Say(text) => TextGrows(show, think, say, text);
      case Use(tool) => assert ToolContents(tools + [tool]) == ToolContents(tools) + [ToolContent(tool)];
    }
  }

  lemma ThinkingGrows(show: bool, think: string, text: string)
    requires text != ""
    ensures Merge(show, Unary(show, think, "", []), Think(text)) == Unary(show, think + text, "", [])
  {
    assert "" + "" == "";
    assert ToolContents([]) == [];
    if think == "" {
      assert think + text == text;
    }
  }

  lemma TextGrows(show: bool, think: string, say: string, text: string)
    requires text != ""
    ensures Merge(show, Unary(show, think, say, []), Say(text)) == Unary(show, think, say + text, [])
  {
    assert ToolContents([]) == [];
    var front := if think != "" then [ThinkingContent(if show then think else "")] else [];
    if say == "" {
      assert say + text == text;
      assert Unary(show, think, say, []) == front;
    } else {
      assert Unary(show, think, say, []) == front + [TextContent(say)];
      assert (front + [TextContent(say)])[|front| := TextContent(say + text)] == front + [TextContent(say + text)];
    }
  }

  lemma MergeRanks(show: bool, cs: seq<Content>, p: Piece)
    ensures var next := Merge(show, cs, p);
      && next != [] && Rank(next[|next| - 1]) == PieceRank(p)
      && (OrderedContent(next) <==> OrderedContent(cs) && (cs != [] ==> Rank(cs[|cs| - 1]) <= PieceRank(p)))
  {
  }

  lemma {:induction false} RanksSurvive(show: bool, ps: seq<Piece>)
    ensures var cs := Merged(show, ps);
      && (OrderedContent(cs) <==> Ordered(ps))
      && (cs == [] <==> ps == [])
      && (ps != [] ==> Rank(cs[|cs| - 1]) == PieceRank(ps[|ps| - 1]))
    decreases |ps|
  {
    if ps != [] {
      hide Merged, Merge, Ordered, OrderedContent, Rank, PieceRank;
      var n := |ps| - 1;
      RanksSurvive(show, ps[..n]);
      MergedLast(show, ps);
      OrderedLast(ps);
      MergeRanks(show, Merged(show, ps[..n]), ps[n]);
    }
  }

  lemma OrderedLast(ps: seq<Piece>)
    requires ps != []
    ensures var n := |ps| - 1;
      Ordered(ps) <==> Ordered(ps[..n]) && (n > 0 ==> PieceRank(ps[n - 1]) <= PieceRank(ps[n]))
  {
  }

  // ---- coalescing the chunks ----

  function Thinkings(ts: seq<Timed>): string
    decreases |ts|
  {
    if ts == [] then "" else ts[0].j.thinking + Thinkings(ts[1..])
  }

  function Texts(ts: seq<Timed>): string
    decreases |ts|
  {
    if ts == [] then "" else ts[0].j.content + Texts(ts[1..])
  }

  function CallsOf(ts: seq<Timed>): seq<Call>
    decreases |ts|
  {
    if ts == [] then [] else ts[0].j.calls + CallsOf(ts[1..])
  }

  /** The answer a node that does not stream would have given. */
  function Coalesced(ts: seq<Timed>): Chunk {
    Chunk(Thinkings(ts), Texts(ts), CallsOf(ts), true, Final(ts).doneReason, Final(ts).promptTokens, Final(ts).evalTokens)
  }

  lemma {:induction false} ThinkTextConcat(a: seq<Piece>, b: seq<Piece>)
    ensures ThinkText(a + b) == ThinkText(a) + ThinkText(b)
    decreases |b|
  {
    if b == [] {
      assert a + b == a;
    } else {
      assert (a + b)[..|a| + |b| - 1] == a + b[..|b| - 1];
      ThinkTextConcat(a, b[..|b| - 1]);
    }
  }

  lemma {:induction false} SayTextConcat(a: seq<Piece>, b: seq<Piece>)
    ensures SayText(a + b) == SayText(a) + SayText(b)
    decreases |b|
  {
    if b == [] {
      assert a + b == a;
    } else {
      assert (a + b)[..|a| + |b| - 1] == a + b[..|b| - 1];
      SayTextConcat(a, b[..|b| - 1]);
    }
  }

  lemma {:induction false} ToolsInConcat(a: seq<Piece>, b: seq<Piece>)
    ensures ToolsIn(a + b) == ToolsIn(a) + ToolsIn(b)
    decreases |b|
  {
    if b == [] {
      assert a + b == a;
    } else {
      assert (a + b)[..|a| + |b| - 1] == a + b[..|b| - 1];
      ToolsInConcat(a, b[..|b| - 1]);
    }
  }

  lemma TextsConcat(a: seq<Piece>, b: seq<Piece>)
    ensures ThinkText(a + b) == ThinkText(a) + ThinkText(b)
    ensures SayText(a + b) == SayText(a) + SayText(b)
    ensures ToolsIn(a + b) == ToolsIn(a) + ToolsIn(b)
  {
    hide ThinkText, SayText, ToolsIn;
    ThinkTextConcat(a, b);
    SayTextConcat(a, b);
    ToolsInConcat(a, b);
  }

  lemma {:induction false} UsesAreTools(tools: seq<Tool>)
    ensures ThinkText(Uses(tools)) == "" && SayText(Uses(tools)) == "" && ToolsIn(Uses(tools)) == tools
    decreases |tools|
  {
    if tools != [] {
      var n := |tools| - 1;
      assert Uses(tools)[..n] == Uses(tools[..n]);
      UsesAreTools(tools[..n]);
    }
  }

  lemma OnePiece(p: Piece)
    ensures ThinkText([p]) == (if p.Think? then p.text else "")
    ensures SayText([p]) == (if p.Say? then p.text else "")
    ensures ToolsIn([p]) == (if p.Use? then [p.tool] else [])
    ensures ThinkText([]) == "" && SayText([]) == "" && ToolsIn([]) == []
  {
  }

  lemma ChunkTexts(j: Chunk, made: nat, ids: Ids)
    ensures var ps := PiecesOf(j, made, ids);
      ThinkText(ps) == j.thinking && SayText(ps) == j.content && ToolsIn(ps) == ToolsOf(j.calls, made, ids)
  {
    hide ThinkText, SayText, ToolsIn, ToolsOf, Uses;
    var p1 := if j.thinking != "" then [Think(j.thinking)] else [];
    var p2 := if j.content != "" then [Say(j.content)] else [];
    var tools := ToolsOf(j.calls, made, ids);
    OnePiece(Think(j.thinking));
    OnePiece(Say(j.content));
    UsesAreTools(tools);
    TextsConcat(p1, p2);
    TextsConcat(p1 + p2, Uses(tools));
  }

  lemma {:induction false} ToolsConcat(a: seq<Call>, b: seq<Call>, made: nat, ids: Ids)
    ensures ToolsOf(a + b, made, ids) == ToolsOf(a, made, ids) + ToolsOf(b, made + Missing(a), ids)
    decreases |a|
  {
    if a == [] {
      assert a + b == b;
    } else {
      assert (a + b)[1..] == a[1..] + b;
      ToolsConcat(a[1..], b, if a[0].id == "" then made + 1 else made, ids);
    }
  }

  lemma RunParts(ts: seq<Timed>, made: nat, ids: Ids)
    requires ts != []
    ensures var j, more := ts[0].j, ts[1..];
      && AllPieces(ts, made, ids) == PiecesOf(j, made, ids) + AllPieces(more, made + Missing(j.calls), ids)
      && Thinkings(ts) == j.thinking + Thinkings(more) && Texts(ts) == j.content + Texts(more)
      && CallsOf(ts) == j.calls + CallsOf(more)
  {
    hide PiecesOf, Missing;
  }

  /** The pieces of one chunk before those of the others. */
  lemma ChunkBefore(j: Chunk, made: nat, ids: Ids, rest: seq<Piece>, calls: seq<Call>)
    requires ToolsIn(rest) == ToolsOf(calls, made + Missing(j.calls), ids)
    ensures var ps := PiecesOf(j, made, ids) + rest;
      && ThinkText(ps) == j.thinking + ThinkText(rest) && SayText(ps) == j.content + SayText(rest)
      && ToolsIn(ps) == ToolsOf(j.calls + calls, made, ids)
  {
    hide *;
    ChunkTexts(j, made, ids);
    TextsConcat(PiecesOf(j, made, ids), rest);
    ToolsConcat(j.calls, calls, made, ids);
  }

  /** The texts and the calls of all chunks are those of the pieces. */
  predicate SameTexts(ps: seq<Piece>, ts: seq<Timed>, made: nat, ids: Ids) {
    ThinkText(ps) == Thinkings(ts) && SayText(ps) == Texts(ts) && ToolsIn(ps) == ToolsOf(CallsOf(ts), made, ids)
  }

  lemma NoTexts(made: nat, ids: Ids)
    ensures SameTexts(AllPieces([], made, ids), [], made, ids)
  {
    OnePiece(Think(""));
  }

  lemma MoreTexts(ts: seq<Timed>, made: nat, ids: Ids)
    requires ts != []
    requires var next := made + Missing(ts[0].j.calls); SameTexts(AllPieces(ts[1..], next, ids), ts[1..], next, ids)
    ensures SameTexts(AllPieces(ts, made, ids), ts, made, ids)
  {
    hide ThinkText, SayText, ToolsIn, ToolsOf, Missing, AllPieces, PiecesOf, Thinkings, Texts, CallsOf;
    RunParts(ts, made, ids);
    ChunkBefore(ts[0].j, made, ids, AllPieces(ts[1..], made + Missing(ts[0].j.calls), ids), CallsOf(ts[1..]));
  }

  lemma {:induction false} RunTexts(ts: seq<Timed>, made: nat, ids: Ids)
    ensures SameTexts(AllPieces(ts, made, ids), ts, made, ids)
    decreases |ts|
  {
    hide *;
    if ts == [] {
      NoTexts(made, ids);
    } else {
      RunTexts(ts[1..], made + Missing(ts[0].j.calls), ids);
      MoreTexts(ts, made, ids);
    }
  }

  lemma {:induction false} RunIsSolid(ts: seq<Timed>, made: nat, ids: Ids)
    ensures Solid(AllPieces(ts, made, ids))
    decreases |ts|
  {
    if ts != [] {
      var next := made + Missing(ts[0].j.calls);
      RunIsSolid(ts[1..], next, ids);
      assert Solid(PiecesOf(ts[0].j, made, ids));
    }
  }

  lemma {:induction false} ToolsShow(ps: seq<Piece>)
    ensures HasUse(ps) <==> ToolsIn(ps) != []
    decreases |ps|
  {
    if ps != [] {
      var n := |ps| - 1;
      ToolsShow(ps[..n]);
      if HasUse(ps) && !ps[n].Use? {
        var i :| 0 <= i < |ps| && ps[i].Use?;
        assert ps[..n][i].Use?;
      }
      if HasUse(ps[..n]) {
        var i :| 0 <= i < n && ps[..n][i].Use?;
        assert ps[i].Use?;
      }
    }
  }

  lemma UnaryIsOrdered(show: bool, thinking: string, text: string, tools: seq<Tool>)
    ensures OrderedContent(Unary(show, thinking, text, tools))
  {
  }

  /** The rebuilt stop reason and counters always equal the answer in one piece; the blocks do exactly if the node sent
      thinking, then text, then tool calls. */
  lemma StreamEqualsUnaryIff(cfg: Settings, start: real, ts: seq<Timed>)
    requires QuietAfterDone(ts)
    ensures var client, whole := FeedAll(Client([], None), Stream(cfg, start, ts)), MessageOf(cfg, Coalesced(ts), 0);
      && client.ending == Some(Ending(whole.stop, whole.usage))
      && (client.content == whole.content <==> Ordered(AllPieces(ts, 0, cfg.ids)))
  {
    hide FeedAll, Stream, AllPieces, Merged, OrderedContent, Ordered, Final, ToolsOf, ToolsIn, ThinkText, SayText, HasUse, MergeAll;
    var ps := AllPieces(ts, 0, cfg.ids);
    ReplayIsMerged(cfg, start, ts);
    MergedIs(cfg.show, ps);
    RunTexts(ts, 0, cfg.ids);
    RunIsSolid(ts, 0, cfg.ids);
    ToolsShow(ps);
    RanksSurvive(cfg.show, ps);
    UnaryIsOrdered(cfg.show, ThinkText(ps), SayText(ps), ToolsIn(ps));
    if Ordered(ps) {
      OrderedIsUnary(cfg.show, ps);
    }
  }

  lemma MergedIs(show: bool, ps: seq<Piece>)
    ensures Merged(show, ps) == MergeAll(show, [], ps)
  {
  }

  // ---- hidden thinking ----

  /** The stream without pings and thinking text. */
  function Skeleton(es: seq<Event>): seq<Event>
    decreases |es|
  {
    if es == [] then []
    else (if es[0].Ping? || es[0].ThinkingDelta? then [] else [es[0]]) + Skeleton(es[1..])
  }

  lemma {:induction false} SkeletonConcat(a: seq<Event>, b: seq<Event>)
    ensures Skeleton(a + b) == Skeleton(a) + Skeleton(b)
    decreases |a|
  {
    if a == [] {
      assert a + b == b;
    } else {
      assert (a + b)[1..] == a[1..] + b;
      SkeletonConcat(a[1..], b);
    }
  }

  /** The same shape, whatever was sent last. */
  predicate Alike(a: Shape, b: Shape) { a.(lastSent := b.lastSent) == b }

  lemma AddedAlike(shown: Settings, hidden: Settings, a: Shape, b: Shape, kind: Open, text: string, now: real)
    requires kind != Nothing && Alike(a, b)
    ensures var x, y := Added(shown, a, kind, text, now), Added(hidden, b, kind, text, now);
      Alike(x.s, y.s) && Skeleton(x.events) == Skeleton(y.events)
  {
    hide Skeleton, ClosingOf;
    AddedSkeleton(shown, a, kind, text, now);
    AddedSkeleton(hidden, b, kind, text, now);
  }

  /** What the block of a piece needs, whether its text is sent or not. */
  lemma AddedSkeleton(cfg: Settings, s: Shape, kind: Open, text: string, now: real)
    requires kind != Nothing
    ensures var o := if s.open == kind then Out(s, []) else Started(s, KindOf(kind));
      Skeleton(Added(cfg, s, kind, text, now).events)
      == Skeleton(o.events) + (if kind == Thinking then [] else [DeltaOf(kind, o.s.index, text)])
  {
    hide Skeleton, ClosingOf;
    var o := if s.open == kind then Out(s, []) else Started(s, KindOf(kind));
    var delta := DeltaOf(kind, o.s.index, text);
    SkeletonConcat(o.events, [delta]);
    OneSkeleton(delta);
    OneSkeleton(Ping);
  }

  lemma OneSkeleton(e: Event)
    ensures Skeleton([e]) == if e.Ping? || e.ThinkingDelta? then [] else [e]
    ensures Skeleton([]) == []
  {
  }

  lemma {:induction false} ToolsAlike(a: Shape, b: Shape, tools: seq<Tool>)
    requires Alike(a, b)
    ensures var x, y := UsedTools(a, tools), UsedTools(b, tools); Alike(x.s, y.s) && x.events == y.events
    decreases |tools|
  {
    if tools != [] {
      ToolsAlike(UsedTool(a, tools[0]).s, UsedTool(b, tools[0]).s, tools[1..]);
    }
  }

  lemma ChunkAlike(shown: Settings, hidden: Settings, a: Shape, b: Shape, j: Chunk, now: real)
    requires Alike(a, b) && shown.ids == hidden.ids
    ensures var x, y := Chunked(shown, a, j, now), Chunked(hidden, b, j, now);
      Alike(x.s, y.s) && Skeleton(x.events) == Skeleton(y.events)
  {
    hide Added, UsedTools, ToolsOf, Missing, Skeleton, Ended;
    var x1 := if j.thinking != "" then Added(shown, a, Thinking, j.thinking, now) else Out(a, []);
    var y1 := if j.thinking != "" then Added(hidden, b, Thinking, j.thinking, now) else Out(b, []);
    if j.thinking != "" {
      AddedAlike(shown, hidden, a, b, Thinking, j.thinking, now);
    }
    var x2 := if j.content != "" then Added(shown, x1.s, Text, j.content, now) else Out(x1.s, []);
    var y2 := if j.content != "" then Added(hidden, y1.s, Text, j.content, now) else Out(y1.s, []);
    if j.content != "" {
      AddedAlike(shown, hidden, x1.s, y1.s, Text, j.content, now);
    }
    var tools := ToolsOf(j.calls, x2.s.made, shown.ids);
    var x3, y3 := UsedTools(x2.s, tools), UsedTools(y2.s, tools);
    ToolsAlike(x2.s, y2.s, tools);
    var made := x2.s.made + Missing(j.calls);
    EndedAlike(x3.s.(made := made), y3.s.(made := made), j);
    var xs, ys := x3.s.(made := made), y3.s.(made := made);
    var x4 := if j.done && !xs.finished then Ended(xs, j) else Out(xs, []);
    var y4 := if j.done && !ys.finished then Ended(ys, j) else Out(ys, []);
    SkeletonConcat(x1.events, x2.events);
    SkeletonConcat(y1.events, y2.events);
    SkeletonConcat(x1.events + x2.events, x3.events);
    SkeletonConcat(y1.events + y2.events, y3.events);
    SkeletonConcat(x1.events + x2.events + x3.events, x4.events);
    SkeletonConcat(y1.events + y2.events + y3.events, y4.events);
  }

  lemma EndedAlike(a: Shape, b: Shape, j: Chunk)
    requires Alike(a, b)
    ensures var x, y := Ended(a, j), Ended(b, j); Alike(x.s, y.s) && x.events == y.events
  {
  }

  lemma {:induction false} RunAlike(shown: Settings, hidden: Settings, a: Shape, b: Shape, ts: seq<Timed>)
    requires Alike(a, b) && shown.ids == hidden.ids
    ensures var x, y := Run(shown, a, ts), Run(hidden, b, ts);
      Alike(x.s, y.s) && Skeleton(x.events) == Skeleton(y.events)
    decreases |ts|
  {
    if ts != [] {
      hide Chunked, Skeleton, Alike;
      var x, y := Chunked(shown, a, ts[0].j, ts[0].now), Chunked(hidden, b, ts[0].j, ts[0].now);
      ChunkAlike(shown, hidden, a, b, ts[0].j, ts[0].now);
      RunAlike(shown, hidden, x.s, y.s, ts[1..]);
      SkeletonConcat(x.events, Run(shown, x.s, ts[1..]).events);
      SkeletonConcat(y.events, Run(hidden, y.s, ts[1..]).events);
    }
  }

  /** Hiding the thinking takes away the thinking text and nothing else: no block changes its kind, index or content. */
  lemma HidingKeepsBlocks(shown: Settings, hidden: Settings, start: real, ts: seq<Timed>)
    requires shown.ids == hidden.ids
    ensures Skeleton(Stream(shown, start, ts)) == Skeleton(Stream(hidden, start, ts))
  {
    hide Run, Skeleton;
    var s := Fresh(start);
    var x, y := Run(shown, s, ts), Run(hidden, s, ts);
    RunAlike(shown, hidden, s, s, ts);
    EndedAlike(x.s, y.s, EMPTY_CHUNK);
    SkeletonConcat([MessageStart], x.events);
    SkeletonConcat([MessageStart], y.events);
    SkeletonConcat([MessageStart] + x.events, TailOf(x.s).events);
    SkeletonConcat([MessageStart] + y.events, TailOf(y.s).events);
  }

  /** A stream that hides its thinking holds no thinking text at all. */
  lemma {:induction false} HiddenSaysNothing(cfg: Settings, s: Shape, ts: seq<Timed>)
    requires !cfg.show
    ensures forall i :: 0 <= i < |Run(cfg, s, ts).events| ==> !Run(cfg, s, ts).events[i].ThinkingDelta?
    decreases |ts|
  {
    if ts != [] {
      hide Chunked;
      ChunkHides(cfg, s, ts[0].j, ts[0].now);
      HiddenSaysNothing(cfg, Chunked(cfg, s, ts[0].j, ts[0].now).s, ts[1..]);
    }
  }

  predicate NoThinkingText(es: seq<Event>) { forall i :: 0 <= i < |es| ==> !es[i].ThinkingDelta? }

  lemma {:induction false} ToolsHide(s: Shape, tools: seq<Tool>)
    ensures NoThinkingText(UsedTools(s, tools).events)
    decreases |tools|
  {
    if tools != [] {
      ToolsHide(UsedTool(s, tools[0]).s, tools[1..]);
      assert NoThinkingText(UsedTool(s, tools[0]).events);
    }
  }

  lemma NoThinkingTextConcat(a: seq<Event>, b: seq<Event>)
    requires NoThinkingText(a) && NoThinkingText(b)
    ensures NoThinkingText(a + b)
  {
  }

  lemma AddedHides(cfg: Settings, s: Shape, kind: Open, text: string, now: real)
    requires !cfg.show && kind != Nothing
    ensures NoThinkingText(Added(cfg, s, kind, text, now).events)
  {
  }

  lemma EndedHides(s: Shape, j: Chunk)
    ensures NoThinkingText(Ended(s, j).events) && NoThinkingText([])
  {
  }

  lemma ChunkHides(cfg: Settings, s: Shape, j: Chunk, now: real)
    requires !cfg.show
    ensures NoThinkingText(Chunked(cfg, s, j, now).events)
  {
    hide ToolsOf, Missing, UsedTools, Added, Ended, NoThinkingText;
    var o1 := if j.thinking != "" then Added(cfg, s, Thinking, j.thinking, now) else Out(s, []);
    var o2 := if j.content != "" then Added(cfg, o1.s, Text, j.content, now) else Out(o1.s, []);
    var o3 := UsedTools(o2.s, ToolsOf(j.calls, o2.s.made, cfg.ids));
    var s3 := o3.s.(made := o2.s.made + Missing(j.calls));
    var o4 := if j.done && !s3.finished then Ended(s3, j) else Out(s3, []);
    AddedHides(cfg, s, Thinking, j.thinking, now);
    AddedHides(cfg, o1.s, Text, j.content, now);
    ToolsHide(o2.s, ToolsOf(j.calls, o2.s.made, cfg.ids));
    EndedHides(s3, j);
    NoThinkingTextConcat(o1.events, o2.events);
    NoThinkingTextConcat(o1.events + o2.events, o3.events);
    NoThinkingTextConcat(o1.events + o2.events + o3.events, o4.events);
  }
}
