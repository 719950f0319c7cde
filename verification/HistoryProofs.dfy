/** What survives the way Anthropic -> native -> Anthropic, and what any converted history looks like. */
module HistoryProofs {
  import opened Common
  import opened History

  // ---- roles ----

  /** Two neighbours have one role only where the second begins with a tool result. */
  predicate Apart(out: seq<AnMessage>) {
    && (forall i :: 0 <= i < |out| ==> out[i].parts != [])
    && (forall i :: 0 <= i < |out| - 1 && out[i].role == out[i + 1].role ==> out[i + 1].parts[0].ResultPart?)
  }

  lemma AttachedApart(out: seq<AnMessage>, role: string, parts: seq<Part>)
    requires Apart(out) && parts != []
    ensures Apart(Attached(out, role, parts))
  {
  }

  lemma ResultApart(out: seq<AnMessage>, id: string, text: string)
    requires Apart(out)
    ensures Apart(out + [AnMessage("user", [ResultPart(id, text)])])
  {
  }

  /** Whatever native messages come in, two adjacent messages share a role only if the second is a tool result. */
  lemma {:induction false} OnlyResultsRepeatRoles(ms: seq<Native>)
    ensures Apart(PutAll(ms).out)
    decreases |ms|
  {
    if ms != [] {
      hide Attached, PartsOf, IdsOf, Apart;
      var c, m := PutAll(ms[..|ms| - 1]), ms[|ms| - 1];
      OnlyResultsRepeatRoles(ms[..|ms| - 1]);
      PartsExist(m, |c.pending|);
      AttachedApart(c.out, m.role, PartsOf(m, |c.pending|));
      if m.role == "tool" {
        var id := if m.toolCallId != "" then m.toolCallId else if c.pending != [] then c.pending[0] else ToolId(1);
        ResultApart(c.out, id, m.content);
      }
    } else {
      assert Apart([]);
    }
  }

  lemma PartsExist(m: Native, pending: nat)
    ensures PartsOf(m, pending) != []
  {
  }

  // ---- the round trip ----

  predicate SimpleBlock(b: Block) { b.TextBlock? || (b.ImageBlock? && Readable(b.source)) || b.Thinking? }

  /** A turn of text, images and thinking only. */
  predicate Simple(m: Message) {
    (m.role == "user" || m.role == "assistant")
    && (m.content.Plain? || (m.content.Blocks? && forall i :: 0 <= i < |m.content.blocks| ==> SimpleBlock(m.content.blocks[i])))
  }

  function ImagesOf(bs: seq<Block>): seq<string>
    decreases |bs|
  {
    if bs == [] then []
    else
      var last := bs[|bs| - 1];
      ImagesOf(bs[..|bs| - 1]) + (if last.ImageBlock? && Readable(last.source) then [last.source.data] else [])
  }

  function ImagesIn(m: Message): seq<string> { if m.content.Blocks? then ImagesOf(m.content.blocks) else [] }

  /** Simple turns, with system messages anywhere. */
  predicate SimpleHistory(h: seq<Message>) { forall i :: 0 <= i < |h| ==> h[i].role == "system" || Simple(h[i]) }

  function Turns(h: seq<Message>): seq<Message>
    decreases |h|
  {
    if h == [] then [] else Turns(h[..|h| - 1]) + (if h[|h| - 1].role == "system" then [] else [h[|h| - 1]])
  }

  function SystemTexts(h: seq<Message>): seq<string>
    decreases |h|
  {
    if h == [] then []
    else
      var m := h[|h| - 1];
      SystemTexts(h[..|h| - 1]) + (if m.role == "system" && TextOf(m.content) != "" then [TextOf(m.content)] else [])
  }

  predicate Alternating(ts: seq<Message>) { forall i :: 0 <= i < |ts| - 1 ==> ts[i].role != ts[i + 1].role }

  function NativeTurn(m: Message): Native {
    Native(m.role, TextOf(m.content), if m.role == "user" then ImagesIn(m) else [], [], "", "")
  }

  function NativeOf(h: seq<Message>): seq<Native>
    decreases |h|
  {
    if h == [] then []
    else
      var m := h[|h| - 1];
      NativeOf(h[..|h| - 1])
      + (if m.role != "system" then [NativeTurn(m)]
         else if TextOf(m.content) != "" then [Native("system", TextOf(m.content), [], [], "", "")]
         else [])
  }

  lemma {:induction false} SimpleTurn(bs: seq<Block>, role: string, names: map<string, string>)
    requires forall i :: 0 <= i < |bs| ==> SimpleBlock(bs[i])
    ensures TurnOf(bs, role, names, false) == Some(Turn(TextsOf(bs), ImagesOf(bs), [], [], names))
    decreases |bs|
  {
    if bs != [] {
      var texts, images := TextsOf(bs[..|bs| - 1]), ImagesOf(bs[..|bs| - 1]);
      SimpleTurn(bs[..|bs| - 1], role, names);
      assert texts + [] == texts && images + [] == images;
    }
  }

  lemma SimpleConverts(p: Progress, m: Message)
    requires Simple(m)
    ensures Converted(p, m, false) == Some(Progress(p.out + [NativeTurn(m)], p.names))
  {
    if m.content.Blocks? {
      var bs := m.content.blocks;
      var t := Turn(TextsOf(bs), ImagesOf(bs), [], [], p.names);
      SimpleTurn(bs, m.role, p.names);
      assert [] + [NativeTurn(m)] == [NativeTurn(m)];
      assert Emitted(t, m.role) == [NativeTurn(m)];
    }
  }

  lemma {:induction false} HistoryConverts(h: seq<Message>)
    requires SimpleHistory(h)
    ensures ConvertedAll(h, false) == Some(Progress(NativeOf(h), map[]))
    decreases |h|
  {
    if h != [] {
      hide Converted;
      var front, m := h[..|h| - 1], h[|h| - 1];
      var p := Progress(NativeOf(front), map[]);
      HistoryConverts(front);
      assert NativeOf(front) + [] == NativeOf(front);
      if m.role == "system" {
        SystemConverts(p, m);
      } else {
        SimpleConverts(p, m);
      }
    }
  }

  lemma SystemConverts(p: Progress, m: Message)
    requires m.role == "system"
    ensures var text := TextOf(m.content);
      Converted(p, m, false) == Some(Progress(if text != "" then p.out + [Native("system", text, [], [], "", "")] else p.out, p.names))
  {
  }

  function Returned(m: Message): AnMessage { AnMessage(m.role, PartsOf(NativeTurn(m), 0)) }

  function ReturnedAll(ts: seq<Message>): (out: seq<AnMessage>)
    ensures |out| == |ts| && forall i :: 0 <= i < |out| ==> out[i] == Returned(ts[i])
  {
    seq(|ts|, i requires 0 <= i < |ts| => Returned(ts[i]))
  }

  lemma {:induction false} HistoryReturns(h: seq<Message>)
    requires SimpleHistory(h) && Alternating(Turns(h))
    ensures PutAll(NativeOf(h)) == Conv(SystemTexts(h), ReturnedAll(Turns(h)), [])
    decreases |h|
  {
    if h == [] {
      assert ReturnedAll([]) == [];
    } else {
      var front, m := h[..|h| - 1], h[|h| - 1];
      var text, was, ts := TextOf(m.content), NativeOf(front), Turns(front);
      assert was + [] == was && ts + [] == ts && SystemTexts(front) + [] == SystemTexts(front);
      if m.role == "system" {
        assert Turns(h) == ts;
        assert NativeOf(h) == if text != "" then was + [Native("system", text, [], [], "", "")] else was;
        hide NativeOf, Turns, Simple, PutAll, ReturnedAll, Alternating, TextOf;
        HistoryReturns(front);
        PutLast(was, Native("system", text, [], [], "", ""));
      } else {
        assert Turns(h) == ts + [m] && NativeOf(h) == was + [NativeTurn(m)] && SystemTexts(h) == SystemTexts(front);
        assert Simple(h[|h| - 1]);
        hide NativeOf, Turns, Simple, PutAll, ReturnedAll, Alternating, SystemTexts, IdsOf, PartsOf, TextOf, Attached;
        AlternatingFront(ts, m);
        HistoryReturns(front);
        PutLast(was, NativeTurn(m));
        TurnReturns(ts, m);
      }
    }
  }

  lemma AlternatingFront(ts: seq<Message>, m: Message)
    ensures Alternating(ts + [m]) ==> Alternating(ts) && (ts != [] ==> ts[|ts| - 1].role != m.role)
  {
    if Alternating(ts + [m]) {
      assert forall i :: 0 <= i < |ts| ==> (ts + [m])[i] == ts[i];
      assert ts != [] ==> (ts + [m])[|ts| - 1].role != (ts + [m])[|ts|].role;
    }
  }

  lemma TurnReturns(ts: seq<Message>, m: Message)
    requires Simple(m) && (ts != [] ==> ts[|ts| - 1].role != m.role)
    ensures ReturnedAll(ts + [m]) == Attached(ReturnedAll(ts), m.role, PartsOf(NativeTurn(m), 0))
    ensures IdsOf(NativeTurn(m).calls, 0) == [] && m.role != "tool"
  {
  }

  // ---- what a client finds in a message that came back ----

  function PartTexts(ps: seq<Part>): seq<string>
    decreases |ps|
  {
    if ps == [] then [] else PartTexts(ps[..|ps| - 1]) + (if ps[|ps| - 1].TextPart? then [ps[|ps| - 1].text] else [])
  }

  function PartImages(ps: seq<Part>): seq<string>
    decreases |ps|
  {
    if ps == [] then [] else PartImages(ps[..|ps| - 1]) + (if ps[|ps| - 1].ImagePart? then [ps[|ps| - 1].data] else [])
  }

  predicate Survives(m: Message, came: AnMessage) {
    came.role == m.role && Joined(PartTexts(came.parts)) == TextOf(m.content) && PartImages(came.parts) == ImagesIn(m)
  }

  /** No image from an assistant, and something for the provider to see: text, or images of a user. */
  predicate Carried(m: Message) {
    && (m.role == "assistant" ==> ImagesIn(m) == [])
    && (TextOf(m.content) != "" || ImagesIn(m) != [])
  }

  lemma {:induction false} ImagePartsRead(first: seq<Part>, images: seq<string>)
    requires forall i :: 0 <= i < |first| ==> first[i].TextPart?
    ensures PartTexts(first + ImageParts(images)) == PartTexts(first)
    ensures PartImages(first + ImageParts(images)) == images
    decreases |images|
  {
    if images == [] {
      assert first + ImageParts(images) == first;
      NoImages(first);
    } else {
      var n := |images| - 1;
      assert (first + ImageParts(images))[..|first| + n] == first + ImageParts(images[..n]);
      ImagePartsRead(first, images[..n]);
      assert images == images[..n] + [images[n]];
    }
  }

  lemma {:induction false} NoImages(ps: seq<Part>)
    requires forall i :: 0 <= i < |ps| ==> ps[i].TextPart?
    ensures PartImages(ps) == []
    decreases |ps|
  {
    if ps != [] {
      NoImages(ps[..|ps| - 1]);
    }
  }

  /** One turn comes back unchanged exactly if it has text or a user's images, and no image of an assistant. */
  lemma TurnSurvivesIff(m: Message)
    requires Simple(m)
    ensures Survives(m, Returned(m)) <==> Carried(m)
  {
    var text, images := TextOf(m.content), if m.role == "user" then ImagesIn(m) else [];
    var first := if text != "" then [TextPart(text)] else [];
    hide TextOf, ImagesIn;
    ImagePartsRead(first, images);
    assert first[..0] == [] || first == [];
    assert PartTexts(first) == if text != "" then [text] else [];
    assert [TextPart(" ")][..0] == [];
    assert PartTexts([TextPart(" ")]) == [" "] && PartImages([TextPart(" ")]) == [];
    var parts := PartsOf(NativeTurn(m), 0);
    assert parts == if first + ImageParts(images) == [] then [TextPart(" ")] else first + ImageParts(images);
  }

  /** A history of alternating user and assistant turns comes back with the same roles in the same order; its system text is the
      system texts in order; and all its texts and images survive exactly if every turn can be carried. */
  lemma RoundTripIff(system: Content, h: seq<Message>)
    requires SimpleHistory(h) && Alternating(Turns(h))
    ensures ConvertedAll(h, false).Some?
    ensures var c, ts := PutAll(WithSystem(system, "", ConvertedAll(h, false).value.out)), Turns(h);
      && |c.out| == |ts| && (forall i :: 0 <= i < |ts| ==> c.out[i].role == ts[i].role)
      && c.system == (if TextOf(system) != "" then [TextOf(system)] else []) + SystemTexts(h)
      && ((forall i :: 0 <= i < |ts| ==> Survives(ts[i], c.out[i])) <==> (forall i :: 0 <= i < |ts| ==> Carried(ts[i])))
  {
    hide Simple, Survives, Carried, Turns, SystemTexts, NativeOf, PutAll, Returned, Converted;
    HistoryConverts(h);
    HistoryReturns(h);
    SystemFirst(TextOf(system), NativeOf(h));
    var ts := Turns(h);
    TurnsAreSimple(h);
    forall i | 0 <= i < |ts| ensures Survives(ts[i], Returned(ts[i])) <==> Carried(ts[i]) {
      TurnSurvivesIff(ts[i]);
    }
    forall i | 0 <= i < |ts| ensures Returned(ts[i]).role == ts[i].role {
      ReturnedRole(ts[i]);
    }
  }

  lemma ReturnedRole(m: Message)
    ensures Returned(m).role == m.role
  {
  }

  lemma {:induction false} TurnsAreSimple(h: seq<Message>)
    requires SimpleHistory(h)
    ensures forall i :: 0 <= i < |Turns(h)| ==> Simple(Turns(h)[i])
    decreases |h|
  {
    if h != [] {
      TurnsAreSimple(h[..|h| - 1]);
    }
  }

  lemma {:induction false} SystemFirst(text: string, ms: seq<Native>)
    ensures var c := PutAll([Native("system", text, [], [], "", "")] + ms);
      c == PutAll(ms).(system := [text] + PutAll(ms).system)
    decreases |ms|
  {
    var first := Native("system", text, [], [], "", "");
    if ms == [] {
      assert [first] + ms == [first];
      PutLast([], first);
      assert [] + [first] == [first];
    } else {
      hide PartsOf, IdsOf, Attached;
      var n := |ms| - 1;
      assert ([first] + ms)[..n + 1] == [first] + ms[..n];
      SystemFirst(text, ms[..n]);
    }
  }

  /** An assistant's image never comes back. */
  lemma AssistantImagesAreLost()
    ensures var m := Message("assistant", Blocks([TextBlock("see"), ImageBlock(Base64("aGk="))]));
      Simple(m) && Returned(m) == AnMessage("assistant", [TextPart("see")])
  {
    var bs := [TextBlock("see"), ImageBlock(Base64("aGk="))];
    assert bs[..1] == [TextBlock("see")] && bs[..1][..0] == [];
    assert TextsOf(bs[..1]) == ["see"];
    assert TextsOf(bs) == ["see"];
    assert IdsOf([], 0) == [];
  }
}
