/** router/skirnir_router/cloud.py: openai_exchange, which turns the streamed or the whole answer of an OpenAI-compatible
    endpoint into Ollama's form. Empty strings are missing fields; clock readings are left out. */
module OpenAIStream {
  import opened Common

  // ---- what the endpoint sends ----

  datatype Usage = Usage(prompt: nat, completion: nat)

  /** A delta.tool_calls entry: a part of the call with this index. */
  datatype Fragment = Fragment(index: int, id: string, name: string, args: string)

  datatype Choice = Choice(content: string, thinking: string, calls: seq<Fragment>, finish: string)

  datatype Event = Event(usage: Option<Usage>, choices: seq<Choice>)

  /** A call in the answer in one piece; its arguments are JSON text, or not there. */
  datatype ReplyCall = ReplyCall(id: string, name: string, args: Option<string>)

  datatype Reply = Reply(content: string, thinking: string, calls: seq<ReplyCall>, finish: string, usage: Usage)

  // ---- what the router makes of it ----

  /** Parsed is the JSON value of a text - or, where the text is no JSON, the object that holds it as it is. */
  datatype Json = Empty | Parsed(text: string)

  datatype Call = Call(id: string, name: string, args: Json)

  datatype Piece = Piece(content: string, thinking: string)

  datatype Done = Done(calls: seq<Call>, reason: string, usage: Usage)

  /** A finished Ollama answer. */
  datatype Answer = Answer(content: string, thinking: string, calls: seq<Call>, reason: string, usage: Usage)

  /** The whitespace str.strip() takes off. */
  predicate Space(c: char) {
    || '\U{0009}' <= c <= '\U{000D}' || '\U{001C}' <= c <= '\U{0020}' || c == '\U{0085}' || c == '\U{00A0}' || c == '\U{1680}'
    || '\U{2000}' <= c <= '\U{200A}' || c == '\U{2028}' || c == '\U{2029}' || c == '\U{202F}' || c == '\U{205F}' || c == '\U{3000}'
  }

  predicate Blank(text: string) { forall i :: 0 <= i < |text| ==> Space(text[i]) }

  /** parse_tool_args; the missing text's default, an empty object, parses to the empty object. */
  function ParseArgs(text: Option<string>): Json {
    if text.None? || Blank(text.value) then Empty else Parsed(text.value)
  }

  function ReasonOf(finish: string): string {
    if finish == "length" || finish == "max_tokens" then "length" else "stop"
  }

  // ---- the collected parts ----

  datatype Partial = Partial(id: string, name: string, args: string)

  const NEW: Partial := Partial("", "", "")

  function Extended(p: Partial, f: Fragment): Partial {
    Partial(if f.id != "" then f.id else p.id, p.name + f.name, p.args + f.args)
  }

  function Finished(p: Partial): Call { Call(p.id, p.name, ParseArgs(Some(p.args))) }

  /** What the fragments of one index add up to. */
  function Assembled(fs: seq<Fragment>, index: int): Partial
    decreases |fs|
  {
    if fs == [] then NEW
    else
      var p := Assembled(fs[..|fs| - 1], index);
      if fs[|fs| - 1].index == index then Extended(p, fs[|fs| - 1]) else p
  }

  function Indices(fs: seq<Fragment>): set<int> { set f | f in fs :: f.index }

  function Choices(evs: seq<Event>): seq<Choice>
    decreases |evs|
  {
    if evs == [] then [] else Choices(evs[..|evs| - 1]) + evs[|evs| - 1].choices
  }

  function Fragments(chs: seq<Choice>): seq<Fragment>
    decreases |chs|
  {
    if chs == [] then [] else Fragments(chs[..|chs| - 1]) + chs[|chs| - 1].calls
  }

  function Pieces(chs: seq<Choice>): seq<Piece>
    decreases |chs|
  {
    if chs == [] then []
    else
      var ch := chs[|chs| - 1];
      Pieces(chs[..|chs| - 1])
      + (if ch.content != "" || ch.thinking != "" then [Piece(ch.content, ch.thinking)] else [])
  }

  function FinishOf(chs: seq<Choice>): string
    decreases |chs|
  {
    if chs == [] then "stop"
    else if chs[|chs| - 1].finish != "" then chs[|chs| - 1].finish
    else FinishOf(chs[..|chs| - 1])
  }

  function UsageOf(evs: seq<Event>): Usage
    decreases |evs|
  {
    if evs == [] then Usage(0, 0)
    else if evs[|evs| - 1].usage.Some? then evs[|evs| - 1].usage.value
    else UsageOf(evs[..|evs| - 1])
  }

  /** Choice i has the last finish_reason that is not missing. */
  predicate LastFinish(chs: seq<Choice>, i: nat) {
    i < |chs| && chs[i].finish != "" && forall k :: i < k < |chs| ==> chs[k].finish == ""
  }

  predicate CutOff(finish: string) { finish == "length" || finish == "max_tokens" }

  /** The endpoint's last word is that the answer was cut off. */
  predicate EndsCut(chs: seq<Choice>) { exists i :: 0 <= i < |chs| && LastFinish(chs, i) && CutOff(chs[i].finish) }

  lemma {:induction false} FinishIs(chs: seq<Choice>) returns (i: nat)
    ensures if LastFinish(chs, i) then FinishOf(chs) == chs[i].finish
            else FinishOf(chs) == "stop" && forall k :: 0 <= k < |chs| ==> chs[k].finish == ""
    decreases |chs|
  {
    i := 0;
    if chs != [] {
      var n := |chs| - 1;
      i := n;
      if chs[n].finish == "" {
        i := FinishIs(chs[..n]);
        assert forall k :: 0 <= k < n ==> chs[..n][k] == chs[k];
      }
    }
  }

  /** The reason of a finished answer is "length" exactly if it was cut off, and otherwise "stop". */
  lemma ReasonIs(chs: seq<Choice>)
    ensures ReasonOf(FinishOf(chs)) == if EndsCut(chs) then "length" else "stop"
  {
    var i := FinishIs(chs);
    hide FinishOf;
    forall k: nat | LastFinish(chs, k) ensures k == i && LastFinish(chs, i) {
    }
  }

  /** The counters are those of the last event that has any. */
  lemma {:induction false} UsageIs(evs: seq<Event>, i: nat)
    requires i < |evs| && evs[i].usage.Some? && forall k :: i < k < |evs| ==> evs[k].usage.None?
    ensures UsageOf(evs) == evs[i].usage.value
    decreases |evs|
  {
    if i < |evs| - 1 {
      UsageIs(evs[..|evs| - 1], i);
    }
  }

  /** Arguments are the empty object exactly if their text is missing or all whitespace, and otherwise what their text says. */
  lemma ArgsAre(text: Option<string>)
    ensures ParseArgs(text) == Empty <==> text.None? || forall i :: 0 <= i < |text.value| ==> Space(text.value[i])
    ensures ParseArgs(text) != Empty ==> ParseArgs(text) == Parsed(text.value)
  {
  }

  // ---- sorted(partial) ----

  predicate Ascending(ks: seq<int>) { forall i, j :: 0 <= i < j < |ks| ==> ks[i] < ks[j] }

  lemma {:induction false} LeastOf(s: set<int>) returns (least: int)
    requires s != {}
    ensures least in s && forall k :: k in s ==> least <= k
    decreases |s|
  {
    var x := Pick(s);
    var rest := s - {x};
    assert s == rest + {x};
    least := x;
    if rest != {} {
      var y := LeastOf(rest);
      least := if x < y then x else y;
    }
  }

  method Sorted(keys: set<int>) returns (ks: seq<int>)
    ensures Ascending(ks) && forall k :: k in ks <==> k in keys
  {
    ks := [];
    var rest := keys;
    while rest != {}
      invariant rest <= keys && Ascending(ks)
      invariant forall k :: k in ks <==> k in keys && k !in rest
      invariant forall i, k :: 0 <= i < |ks| && k in rest ==> ks[i] < k
      decreases |rest|
    {
      ghost var least := LeastOf(rest);
      var m :| m in rest && forall k :: k in rest ==> m <= k;
      ks := ks + [m];
      rest := rest - {m};
    }
  }

  /** There is one ascending list of a set. */
  lemma {:induction false} AscendingIsUnique(a: seq<int>, b: seq<int>)
    requires Ascending(a) && Ascending(b) && forall k :: k in a <==> k in b
    ensures a == b
    decreases |a|
  {
    EmptyTogether(a, b);
    if a != [] {
      var m, n := |a| - 1, |b| - 1;
      HighestLast(a, b[n]);
      HighestLast(b, a[m]);
      forall k ensures k in a[..m] <==> k in b[..n] {
        FrontHas(a, k);
        FrontHas(b, k);
      }
      AscendingIsUnique(a[..m], b[..n]);
      assert a == a[..m] + [a[m]] && b == b[..n] + [b[n]];
    }
  }

  lemma EmptyTogether(a: seq<int>, b: seq<int>)
    requires forall k :: k in a <==> k in b
    ensures a == [] <==> b == []
  {
    if a != [] {
      var k := a[0];
      assert k in a;
      assert k in b;
    }
    if b != [] {
      var k := b[0];
      assert k in b;
      assert k in a;
    }
  }

  lemma HighestLast(a: seq<int>, k: int)
    requires Ascending(a) && a != []
    ensures k in a ==> k <= a[|a| - 1]
    ensures a[|a| - 1] in a
  {
  }

  lemma FrontHas(a: seq<int>, k: int)
    requires Ascending(a) && a != []
    ensures k in a[..|a| - 1] <==> k in a && k != a[|a| - 1]
  {
  }

  // ---- the generator ----

  /** The list of calls for an ascending list of indices. */
  function CallsAt(fs: seq<Fragment>, ks: seq<int>): (r: seq<Call>)
    ensures |r| == |ks|
  {
    seq(|ks|, i requires 0 <= i < |ks| => Finished(Assembled(fs, ks[i])))
  }

  predicate Holds(partial: map<int, Partial>, fs: seq<Fragment>) {
    && partial.Keys == Indices(fs)
    && forall i :: i in partial ==> partial[i] == Assembled(fs, i)
  }

  lemma {:induction false} AbsentIsNew(fs: seq<Fragment>, index: int)
    requires index !in Indices(fs)
    ensures Assembled(fs, index) == NEW
    decreases |fs|
  {
    if fs != [] {
      var n := |fs| - 1;
      assert fs[n] in fs;
      assert forall f :: f in fs[..n] ==> f in fs;
      AbsentIsNew(fs[..n], index);
    }
  }

  lemma HoldsNext(partial: map<int, Partial>, fs: seq<Fragment>, f: Fragment)
    requires Holds(partial, fs)
    ensures var p := if f.index in partial then partial[f.index] else NEW;
      Holds(partial[f.index := Extended(p, f)], fs + [f])
  {
    assert (fs + [f])[..|fs|] == fs;
    IndicesPush(fs, f);
    if f.index !in partial {
      AbsentIsNew(fs, f.index);
    }
  }

  method Gen(evs: seq<Event>) returns (pieces: seq<Piece>, done: Done, ghost ks: seq<int>)
    ensures pieces == Pieces(Choices(evs))
    ensures Ascending(ks) && forall k :: k in ks <==> k in Indices(Fragments(Choices(evs)))
    ensures done == Done(CallsAt(Fragments(Choices(evs)), ks), ReasonOf(FinishOf(Choices(evs))), UsageOf(evs))
    ensures done.reason == if EndsCut(Choices(evs)) then "length" else "stop"
  {
    ReasonIs(Choices(evs));
    hide EndsCut, ReasonOf;
    hide Assembled, Extended, Indices, Holds, Fragments, Pieces, FinishOf;
    pieces := [];
    var partial: map<int, Partial> := map[];
    var finish, usage := "stop", Usage(0, 0);
    ghost var chs: seq<Choice> := [];
    ghost var fs: seq<Fragment> := [];
    NothingYet();
    for e := 0 to |evs|
      invariant chs == Choices(evs[..e]) && fs == Fragments(chs)
      invariant pieces == Pieces(chs) && Holds(partial, fs) && finish == FinishOf(chs) && usage == UsageOf(evs[..e])
    {
      var ev := evs[e];
      assert evs[..e + 1][..e] == evs[..e];
      if ev.usage.Some? {
        usage := ev.usage.value;
      }
      ghost var before := chs;
      for c := 0 to |ev.choices|
        invariant chs == before + ev.choices[..c] && fs == Fragments(chs)
        invariant pieces == Pieces(chs) && Holds(partial, fs) && finish == FinishOf(chs)
      {
        var ch := ev.choices[c];
        ghost var next := chs + [ch];
        ChoicePush(chs, ch);
        assert before + ev.choices[..c + 1] == next;
        if ch.content != "" || ch.thinking != "" {
          pieces := pieces + [Piece(ch.content, ch.thinking)];
        }
        partial := Collect(partial, fs, ch.calls);
        fs := fs + ch.calls;
        if ch.finish != "" {
          finish := ch.finish;
        }
        chs := next;
      }
      assert before + ev.choices[..|ev.choices|] == before + ev.choices;
    }
    assert evs[..|evs|] == evs;
    var sorted := Sorted(partial.Keys);
    ks := sorted;
    HoldsKeys(partial, fs);
    var calls: seq<Call> := [];
    for i := 0 to |sorted|
      invariant calls == CallsAt(fs, sorted[..i])
    {
      assert sorted[i] in sorted;
      calls := calls + [Finished(partial[sorted[i]])];
    }
    assert sorted[..|sorted|] == sorted;
    done := Done(calls, ReasonOf(finish), usage);
  }

  /** The innermost loop: one delta's fragments go to their places. */
  method Collect(partial: map<int, Partial>, ghost fs: seq<Fragment>, calls: seq<Fragment>) returns (now: map<int, Partial>)
    requires Holds(partial, fs)
    ensures Holds(now, fs + calls)
  {
    hide Holds, Extended;
    now := partial;
    assert fs + calls[..0] == fs;
    for t := 0 to |calls|
      invariant Holds(now, fs + calls[..t])
    {
      var f := calls[t];
      var p := if f.index in now then now[f.index] else NEW;
      HoldsNext(now, fs + calls[..t], f);
      now := now[f.index := Extended(p, f)];
      assert fs + calls[..t] + [f] == fs + calls[..t + 1];
    }
    assert calls[..|calls|] == calls;
  }

  lemma NothingYet()
    ensures Holds(map[], []) && Fragments([]) == [] && Pieces([]) == [] && FinishOf([]) == "stop"
  {
  }

  lemma ChoicePush(chs: seq<Choice>, ch: Choice)
    ensures Fragments(chs + [ch]) == Fragments(chs) + ch.calls
    ensures Pieces(chs + [ch])
         == if ch.content != "" || ch.thinking != "" then Pieces(chs) + [Piece(ch.content, ch.thinking)] else Pieces(chs)
    ensures FinishOf(chs + [ch]) == if ch.finish != "" then ch.finish else FinishOf(chs)
  {
  }

  lemma HoldsKeys(partial: map<int, Partial>, fs: seq<Fragment>)
    requires Holds(partial, fs)
    ensures partial.Keys == Indices(fs) && forall i :: i in partial ==> partial[i] == Assembled(fs, i)
  {
  }

  // ---- stream equals unary ----

  function UnaryOf(r: Reply): Answer {
    Answer(r.content, r.thinking,
           seq(|r.calls|, i requires 0 <= i < |r.calls| => Call(r.calls[i].id, r.calls[i].name, ParseArgs(r.calls[i].args))),
           ReasonOf(if r.finish == "" then "stop" else r.finish), r.usage)
  }

  function PieceContents(ps: seq<Piece>): string
    decreases |ps|
  {
    if ps == [] then "" else PieceContents(ps[..|ps| - 1]) + ps[|ps| - 1].content
  }

  function PieceThoughts(ps: seq<Piece>): string
    decreases |ps|
  {
    if ps == [] then "" else PieceThoughts(ps[..|ps| - 1]) + ps[|ps| - 1].thinking
  }

  function Coalesced(pieces: seq<Piece>, done: Done): Answer {
    Answer(PieceContents(pieces), PieceThoughts(pieces), done.calls, done.reason, done.usage)
  }

  // ---- how an endpoint may cut its answer ----

  function OnlyIndex(fs: seq<Fragment>, index: int): seq<Fragment>
    decreases |fs|
  {
    if fs == [] then []
    else OnlyIndex(fs[..|fs| - 1], index) + (if fs[|fs| - 1].index == index then [fs[|fs| - 1]] else [])
  }

  function Names(fs: seq<Fragment>): string
    decreases |fs|
  {
    if fs == [] then "" else fs[0].name + Names(fs[1..])
  }

  function Args(fs: seq<Fragment>): string
    decreases |fs|
  {
    if fs == [] then "" else fs[0].args + Args(fs[1..])
  }

  /** At least one part carries the id if there is one, and no part another. */
  predicate IdFits(fs: seq<Fragment>, id: string) {
    && (forall i :: 0 <= i < |fs| ==> fs[i].id == "" || fs[i].id == id)
    && (id != "" ==> exists i :: 0 <= i < |fs| && fs[i].id == id)
  }

  /** The parts, all of one call, spell it. */
  predicate Cuts(fs: seq<Fragment>, call: ReplyCall) {
    fs != [] && IdFits(fs, call.id) && Names(fs) == call.name && Args(fs) == (if call.args.Some? then call.args.value else "")
  }

  function Contents(chs: seq<Choice>): string
    decreases |chs|
  {
    if chs == [] then "" else chs[0].content + Contents(chs[1..])
  }

  function Thoughts(chs: seq<Choice>): string
    decreases |chs|
  {
    if chs == [] then "" else chs[0].thinking + Thoughts(chs[1..])
  }

  /** The events carry the answer: call i under the i-th smallest index, everything cut and interleaved in any way. */
  predicate Streams(evs: seq<Event>, r: Reply, ks: seq<int>) {
    var chs := Choices(evs);
    var fs := Fragments(chs);
    && Contents(chs) == r.content && Thoughts(chs) == r.thinking
    && FinishOf(chs) == (if r.finish == "" then "stop" else r.finish)
    && UsageOf(evs) == r.usage
    && Ascending(ks) && |ks| == |r.calls|
    && (forall i :: 0 <= i < |ks| ==> Cuts(OnlyIndex(fs, ks[i]), r.calls[i]))
    && (forall i :: 0 <= i < |fs| ==> fs[i].index in ks)
  }

  /** The parts of other calls in between do not matter. */
  lemma {:induction false} OthersDoNotMatter(fs: seq<Fragment>, index: int)
    ensures Assembled(fs, index) == Assembled(OnlyIndex(fs, index), index)
    decreases |fs|
  {
    if fs != [] {
      var n := |fs| - 1;
      var only := OnlyIndex(fs[..n], index);
      OthersDoNotMatter(fs[..n], index);
      if fs[n].index == index {
        assert OnlyIndex(fs, index) == only + [fs[n]];
        assert (only + [fs[n]])[..|only|] == only;
      } else {
        assert OnlyIndex(fs, index) == only;
      }
    }
  }

  lemma {:induction false} OnlyThatIndex(fs: seq<Fragment>, index: int)
    ensures forall i :: 0 <= i < |OnlyIndex(fs, index)| ==> OnlyIndex(fs, index)[i].index == index
    decreases |fs|
  {
    if fs != [] {
      OnlyThatIndex(fs[..|fs| - 1], index);
    }
  }

  lemma {:induction false} IndexShows(fs: seq<Fragment>, index: int)
    ensures index in Indices(fs) <==> OnlyIndex(fs, index) != []
    decreases |fs|
  {
    if fs != [] {
      var n := |fs| - 1;
      IndexShows(fs[..n], index);
      IndicesPush(fs[..n], fs[n]);
      assert fs == fs[..n] + [fs[n]];
    }
  }

  lemma IndicesPush(fs: seq<Fragment>, f: Fragment)
    ensures Indices(fs + [f]) == Indices(fs) + {f.index}
  {
  }

  /** Two interleavings of the same parts give the same calls. */
  lemma InterleavingIsFree(fs: seq<Fragment>, gs: seq<Fragment>)
    requires forall k :: OnlyIndex(fs, k) == OnlyIndex(gs, k)
    ensures Indices(fs) == Indices(gs) && forall k :: Assembled(fs, k) == Assembled(gs, k)
  {
    forall k ensures Assembled(fs, k) == Assembled(gs, k) && (k in Indices(fs) <==> k in Indices(gs)) {
      OthersDoNotMatter(fs, k);
      OthersDoNotMatter(gs, k);
      IndexShows(fs, k);
      IndexShows(gs, k);
    }
  }

  lemma {:induction false} NamesPush(fs: seq<Fragment>, f: Fragment)
    ensures Names(fs + [f]) == Names(fs) + f.name
    decreases |fs|
  {
    if fs == [] {
      assert fs + [f] == [f];
    } else {
      assert (fs + [f])[1..] == fs[1..] + [f];
      NamesPush(fs[1..], f);
    }
  }

  lemma {:induction false} ArgsPush(fs: seq<Fragment>, f: Fragment)
    ensures Args(fs + [f]) == Args(fs) + f.args
    decreases |fs|
  {
    if fs == [] {
      assert fs + [f] == [f];
    } else {
      assert (fs + [f])[1..] == fs[1..] + [f];
      ArgsPush(fs[1..], f);
    }
  }

  lemma {:induction false} AssembledSpells(fs: seq<Fragment>, index: int)
    requires forall i :: 0 <= i < |fs| ==> fs[i].index == index
    ensures Assembled(fs, index).name == Names(fs) && Assembled(fs, index).args == Args(fs)
    decreases |fs|
  {
    if fs != [] {
      var n := |fs| - 1;
      AssembledSpells(fs[..n], index);
      assert fs == fs[..n] + [fs[n]];
      NamesPush(fs[..n], fs[n]);
      ArgsPush(fs[..n], fs[n]);
    }
  }

  lemma {:induction false} AssembledId(fs: seq<Fragment>, index: int, id: string)
    requires forall i :: 0 <= i < |fs| ==> fs[i].index == index && (fs[i].id == "" || fs[i].id == id)
    ensures Assembled(fs, index).id == if exists i :: 0 <= i < |fs| && fs[i].id == id then id else ""
    decreases |fs|
  {
    if fs != [] {
      var n := |fs| - 1;
      AssembledId(fs[..n], index, id);
      if exists i :: 0 <= i < |fs| && fs[i].id == id {
        var i :| 0 <= i < |fs| && fs[i].id == id;
        assert i < n ==> fs[..n][i].id == id;
      }
    }
  }

  lemma CutIsAssembled(fs: seq<Fragment>, index: int, call: ReplyCall)
    requires Cuts(OnlyIndex(fs, index), call)
    ensures Finished(Assembled(fs, index)) == Call(call.id, call.name, ParseArgs(call.args))
  {
    var only := OnlyIndex(fs, index);
    OthersDoNotMatter(fs, index);
    OnlyThatIndex(fs, index);
    AssembledSpells(only, index);
    AssembledId(only, index, call.id);
  }

  lemma {:induction false} TextsPush(chs: seq<Choice>, ch: Choice)
    ensures Contents(chs + [ch]) == Contents(chs) + ch.content && Thoughts(chs + [ch]) == Thoughts(chs) + ch.thinking
    decreases |chs|
  {
    if chs == [] {
      assert chs + [ch] == [ch];
    } else {
      assert (chs + [ch])[1..] == chs[1..] + [ch];
      TextsPush(chs[1..], ch);
    }
  }

  lemma PiecesPush(ps: seq<Piece>, p: Piece)
    ensures PieceContents(ps + [p]) == PieceContents(ps) + p.content
    ensures PieceThoughts(ps + [p]) == PieceThoughts(ps) + p.thinking
  {
  }

  /** Nothing is lost in the pieces that are streamed. */
  lemma {:induction false} PiecesCarryTexts(chs: seq<Choice>)
    ensures PieceContents(Pieces(chs)) == Contents(chs) && PieceThoughts(Pieces(chs)) == Thoughts(chs)
    decreases |chs|
  {
    if chs != [] {
      var n := |chs| - 1;
      PiecesCarryTexts(chs[..n]);
      assert chs == chs[..n] + [chs[n]];
      ChoicePush(chs[..n], chs[n]);
      TextsPush(chs[..n], chs[n]);
      PiecesPush(Pieces(chs[..n]), Piece(chs[n].content, chs[n].thinking));
      hide *;
    }
  }

  lemma IndexIsKnown(fs: seq<Fragment>, k: int)
    ensures k in Indices(fs) <==> exists i :: 0 <= i < |fs| && fs[i].index == k
  {
  }

  /** However an endpoint cuts and interleaves its answer, the coalesced stream is the answer in one piece. */
  lemma StreamEqualsUnary(evs: seq<Event>, r: Reply, ks: seq<int>, pieces: seq<Piece>, done: Done, got: seq<int>)
    requires Streams(evs, r, ks)
    requires pieces == Pieces(Choices(evs))
    requires Ascending(got) && forall k :: k in got <==> k in Indices(Fragments(Choices(evs)))
    requires done == Done(CallsAt(Fragments(Choices(evs)), got), ReasonOf(FinishOf(Choices(evs))), UsageOf(evs))
    ensures Coalesced(pieces, done) == UnaryOf(r)
  {
    hide Assembled, OnlyIndex, Cuts, Indices, Pieces, PieceContents, PieceThoughts, Contents, Thoughts;
    var fs := Fragments(Choices(evs));
    PiecesCarryTexts(Choices(evs));
    forall k ensures k in ks <==> k in got {
      IndexIsKnown(fs, k);
      if k in ks {
        var i :| 0 <= i < |ks| && ks[i] == k;
        CutsSomething(fs, k, r.calls[i]);
      }
    }
    AscendingIsUnique(ks, got);
    forall i | 0 <= i < |ks|
      ensures Finished(Assembled(fs, ks[i])) == Call(r.calls[i].id, r.calls[i].name, ParseArgs(r.calls[i].args))
    {
      CutIsAssembled(fs, ks[i], r.calls[i]);
    }
    assert done.calls == UnaryOf(r).calls;
  }

  lemma CutsSomething(fs: seq<Fragment>, index: int, call: ReplyCall)
    requires Cuts(OnlyIndex(fs, index), call)
    ensures index in Indices(fs)
  {
    IndexShows(fs, index);
  }

  /** Fragment j has the last id that is not missing. */
  predicate LastId(fs: seq<Fragment>, j: nat) {
    j < |fs| && fs[j].id != "" && forall k :: j < k < |fs| ==> fs[k].id == ""
  }

  lemma {:induction false} IdIsLast(fs: seq<Fragment>, index: int, j: nat)
    requires forall i :: 0 <= i < |fs| ==> fs[i].index == index
    ensures LastId(fs, j) ==> Assembled(fs, index).id == fs[j].id
    ensures (forall k :: 0 <= k < |fs| ==> fs[k].id == "") ==> Assembled(fs, index).id == ""
    decreases |fs|
  {
    if fs != [] {
      var n := |fs| - 1;
      IdIsLast(fs[..n], index, j);
      assert j < n && LastId(fs, j) ==> LastId(fs[..n], j);
    }
  }

  /** The call of the i-th index: the last id that was sent, the names and the argument texts of its fragments one after the other. */
  lemma CallIs(fs: seq<Fragment>, ks: seq<int>, i: nat, j: nat)
    requires i < |ks|
    ensures var c, only := CallsAt(fs, ks)[i], OnlyIndex(fs, ks[i]);
      && c.name == Names(only) && c.args == ParseArgs(Some(Args(only)))
      && (LastId(only, j) ==> c.id == only[j].id)
      && ((forall k :: 0 <= k < |only| ==> only[k].id == "") ==> c.id == "")
  {
    var only := OnlyIndex(fs, ks[i]);
    OthersDoNotMatter(fs, ks[i]);
    OnlyThatIndex(fs, ks[i]);
    AssembledSpells(only, ks[i]);
    IdIsLast(only, ks[i], j);
    hide OnlyIndex, Names, Args, ParseArgs, Assembled;
  }

  /** The answer in one piece: its reason, and its calls one by one. */
  lemma UnaryIs(r: Reply, i: nat)
    ensures UnaryOf(r).reason == if r.finish == "length" || r.finish == "max_tokens" then "length" else "stop"
    ensures UnaryOf(r).usage == r.usage && UnaryOf(r).content == r.content && UnaryOf(r).thinking == r.thinking
    ensures |UnaryOf(r).calls| == |r.calls|
    ensures i < |r.calls| ==>
      && UnaryOf(r).calls[i].id == r.calls[i].id && UnaryOf(r).calls[i].name == r.calls[i].name
      && (UnaryOf(r).calls[i].args == Empty <==> r.calls[i].args.None? || Blank(r.calls[i].args.value))
  {
  }

  /** The same as a run: the stream of an answer, coalesced. */
  method StreamedAnswer(evs: seq<Event>, ghost r: Reply, ghost ks: seq<int>) returns (a: Answer)
    requires Streams(evs, r, ks)
    ensures a == UnaryOf(r)
  {
    hide *;
    var pieces, done, got := Gen(evs);
    StreamEqualsUnary(evs, r, ks, pieces, done, got);
    a := Coalesced(pieces, done);
  }
}
