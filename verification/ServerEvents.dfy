/** router/skirnir_router/cloud.py: _sse, which reads the one-line data fields of a server-sent event stream. */
module ServerEvents {
  import opened Common
  import opened Lines

  /** The whitespace bytes.strip() takes off: tab, line feed, vertical tab, form feed, return, space. */
  predicate Blank(b: Byte) { 9 <= b <= 13 || b == 32 }

  function Stripped(b: Bytes): (r: Bytes)
    decreases |b|
  {
    if b == [] then []
    else if Blank(b[0]) then Stripped(b[1..])
    else if Blank(b[|b| - 1]) then Stripped(b[..|b| - 1])
    else b
  }

  const DATA: Bytes := [100, 97, 116, 97, 58]
  const DONE: Bytes := [91, 68, 79, 78, 69, 93]

  /** json.loads: an object, or None for a ValueError. */
  type Parser<!J> = Bytes -> Option<J>

  datatype Line<J> = Skip | Stop | Yield(item: J)

  function Meaning<J>(parse: Parser<J>, line: Bytes): Line<J> {
    var s := Stripped(line);
    if !(DATA <= s) then Skip
    else
      var data := Stripped(s[5..]);
      if data == DONE then Stop
      else match parse(data) { case Some(item) => Yield(item) case None => Skip }
  }

  /** The objects of the lines before the first [DONE]. */
  function Items<J>(parse: Parser<J>, lines: seq<Bytes>): seq<J>
    decreases |lines|
  {
    if lines == [] then []
    else
      match Meaning(parse, lines[0])
      case Skip => Items(parse, lines[1..])
      case Stop => []
      case Yield(item) => [item] + Items(parse, lines[1..])
  }

  /** What is read depends only on the bytes, never on how they were cut into chunks. */
  method Sse<J>(parse: Parser<J>, chunks: seq<Bytes>) returns (out: seq<J>)
    ensures out == Items(parse, Ended(Concat(chunks)))
  {
    hide Items, Ended, Concat, Stripped, IndexOf, Unfinished;
    out := [];
    var buf: Bytes := [];
    ghost var all := Items(parse, Ended(Concat(chunks)));
    assert chunks[0..] == chunks && [] + Concat(chunks) == Concat(chunks);
    FirstLine([]);
    for k := 0 to |chunks|
      invariant IndexOf(buf) < 0
      invariant all == out + Items(parse, Ended(buf + Concat(chunks[k..])))
    {
      ghost var rest := Concat(chunks[k + 1..]);
      ConcatFirst(chunks[k..]);
      assert chunks[k..][1..] == chunks[k + 1..];
      RegroupBytes(buf, chunks[k], rest);
      buf := buf + chunks[k];
      var more := true;
      while more
        invariant all == out + Items(parse, Ended(buf + rest))
        invariant !more ==> IndexOf(buf) < 0
        decreases more, |buf|
      {
        var i := FindNewline(buf);
        if i < 0 {
          more := false;
        } else {
          FirstOf(buf, rest);
          ItemsFirst(parse, buf[..i], Ended(buf[i + 1..] + rest));
          ghost var todo := Items(parse, Ended(buf[i + 1..] + rest));
          var line := Stripped(buf[..i]);
          buf := buf[i + 1..];
          if DATA <= line {
            var data := Stripped(line[5..]);
            if data == DONE {
              return;
            }
            match parse(data) {
              case Some(item) =>
                Regroup(out, item, todo);
                out := out + [item];
              case None =>
            }
          }
        }
      }
    }
    NothingLeft(parse, buf);
    assert buf + [] == buf;
    ConcatNone();
    assert chunks[|chunks|..] == [];
  }

  lemma RegroupBytes(a: Bytes, b: Bytes, c: Bytes)
    ensures a + (b + c) == a + b + c
  {
  }

  lemma ConcatFirst(chunks: seq<Bytes>)
    requires chunks != []
    ensures Concat(chunks) == chunks[0] + Concat(chunks[1..])
  {
  }

  lemma ConcatNone()
    ensures Concat([]) == []
  {
  }

  lemma NothingLeft<J>(parse: Parser<J>, buf: Bytes)
    requires IndexOf(buf) < 0
    ensures Items(parse, Ended(buf)) == []
  {
  }

  lemma ItemsFirst<J>(parse: Parser<J>, line: Bytes, rest: seq<Bytes>)
    ensures Items(parse, [line] + rest)
         == match Meaning(parse, line)
            case Skip => Items(parse, rest)
            case Stop => []
            case Yield(item) => [item] + Items(parse, rest)
  {
  }

  lemma FirstOf(buf: Bytes, rest: Bytes)
    requires IndexOf(buf) >= 0
    ensures var i := IndexOf(buf); Ended(buf + rest) == [buf[..i]] + Ended(buf[i + 1..] + rest)
  {
    var i := IndexOf(buf);
    assert (buf + rest)[..i] == buf[..i];
    IndexIs(buf + rest, i);
    assert (buf + rest)[i + 1..] == buf[i + 1..] + rest;
  }

  // ---- what a provider may send ----

  lemma {:induction false} ItemsConcat<J>(parse: Parser<J>, a: seq<Bytes>, b: seq<Bytes>)
    ensures Items(parse, a + b)
         == if exists k :: 0 <= k < |a| && Meaning(parse, a[k]).Stop? then Items(parse, a) else Items(parse, a) + Items(parse, b)
    decreases |a|
  {
    if a == [] {
      assert a + b == b;
    } else {
      assert (a + b)[1..] == a[1..] + b;
      ItemsConcat(parse, a[1..], b);
      assert forall k :: 0 < k < |a| ==> a[k] == a[1..][k - 1];
      assert forall k :: 0 <= k < |a| - 1 ==> a[1..][k] == a[k + 1];
    }
  }

  /** Neither what follows a [DONE] line nor an unfinished last line adds anything. */
  lemma NothingAfterDone<J>(parse: Parser<J>, before: Bytes, line: Bytes, after: Bytes)
    requires NEWLINE !in line && Meaning(parse, Unfinished(before) + line).Stop?
    ensures Items(parse, Ended(before + line + [NEWLINE] + after)) == Items(parse, Ended(before))
  {
    hide Items, Ended, Meaning;
    var tail := line + [NEWLINE] + after;
    var open := Unfinished(before);
    assert before + line + [NEWLINE] + after == before + tail;
    EndedConcat(before, tail);
    LineComesFirst(open, line, after);
    StopsThere(parse, Ended(before), open + line, Ended(after));
  }

  lemma LineComesFirst(open: Bytes, line: Bytes, after: Bytes)
    requires NEWLINE !in open && NEWLINE !in line
    ensures Ended(open + (line + [NEWLINE] + after)) == [open + line] + Ended(after)
  {
    hide Ended, Unfinished, IndexOf;
    var all := open + (line + [NEWLINE] + after);
    var k := |open| + |line|;
    assert all == (open + line) + [NEWLINE] + after;
    assert all[..k] == open + line;
    assert all[k + 1..] == after;
    IndexIs(all, k);
    FirstLine(all);
  }

  lemma StopsThere<J>(parse: Parser<J>, a: seq<Bytes>, line: Bytes, rest: seq<Bytes>)
    requires Meaning(parse, line).Stop?
    ensures Items(parse, a + ([line] + rest)) == Items(parse, a)
  {
    hide Meaning;
    ItemsFirst(parse, line, rest);
    ItemsConcat(parse, a, [line] + rest);
    hide Items;
    assert Items(parse, a) + [] == Items(parse, a);
  }

  lemma UnfinishedLineIsDropped<J>(parse: Parser<J>, b: Bytes)
    ensures Items(parse, Ended(b)) == Items(parse, Ended(Glued(Ended(b))))
  {
    var glued := Glued(Ended(b));
    LinesGlue(b);
    GluedEnds(Ended(b));
    EndedConcat(glued, Unfinished(b));
    assert Unfinished(glued) + Unfinished(b) == Unfinished(b);
    assert Ended(glued) + [] == Ended(glued);
  }

  lemma {:induction false} GluedEnds(lines: seq<Bytes>)
    ensures Unfinished(Glued(lines)) == []
    decreases |lines|
  {
    if lines != [] {
      GluedEnds(lines[1..]);
      EndedConcat(lines[0] + [NEWLINE], Glued(lines[1..]));
      EndsClean(lines[0]);
      assert [] + Glued(lines[1..]) == Glued(lines[1..]);
    }
  }

  lemma {:induction false} EndsClean(b: Bytes)
    ensures Unfinished(b + [NEWLINE]) == []
    decreases |b|
  {
    var i := IndexOf(b);
    EndedConcat(b, [NEWLINE]);
    var open := Unfinished(b);
    assert (open + [NEWLINE])[..|open|] == open;
    IndexIs(open + [NEWLINE], |open|);
    assert (open + [NEWLINE])[|open| + 1..] == [];
  }

  // ---- one line ----

  /** Tabs, line ends of any kind, and spaces. */
  predicate White(b: Bytes) { forall i :: 0 <= i < |b| ==> b[i] in {9, 10, 11, 12, 13, 32} }

  /** Nothing to strip. */
  predicate Tight(b: Bytes) { b != [] ==> b[0] !in {9, 10, 11, 12, 13, 32} && b[|b| - 1] !in {9, 10, 11, 12, 13, 32} }

  /** Stripping takes away the white space around, and nothing else. */
  lemma {:induction false} StrippedIs(before: Bytes, b: Bytes, after: Bytes)
    requires White(before) && White(after) && Tight(b)
    ensures Stripped(before + b + after) == b
    decreases |before| + |after|
  {
    var all := before + b + after;
    if before != [] {
      assert all[1..] == before[1..] + b + after;
      StrippedIs(before[1..], b, after);
    } else if b == [] {
      if after != [] {
        assert all[1..] == before + b + after[1..];
        StrippedIs(before, b, after[1..]);
      }
    } else if after != [] {
      var n := |after| - 1;
      assert all[..|all| - 1] == before + b + after[..n];
      StrippedIs(before, b, after[..n]);
    } else {
      assert all == b;
    }
  }

  /** A line of `data:` and its value, with any white space around either: the value [DONE] ends the reading, JSON is yielded, and
      anything else is passed over. */
  lemma DataLine<J>(parse: Parser<J>, before: Bytes, gap: Bytes, value: Bytes, after: Bytes)
    requires White(before) && White(gap) && White(after) && Tight(value)
    ensures var line := before + ([100, 97, 116, 97, 58] + gap + value) + after;
      Meaning(parse, line) == if value == [91, 68, 79, 78, 69, 93] then Stop
                              else if parse(value).Some? then Yield(parse(value).value)
                              else Skip
  {
    var data: Bytes := [100, 97, 116, 97, 58];
    if value != [] {
      StrippedIs(before, data + gap + value, after);
      assert (data + gap + value)[5..] == gap + value + [];
      StrippedIs(gap, value, []);
    } else {
      assert before + (data + gap + value) + after == before + data + (gap + after);
      StrippedIs(before, data, gap + after);
      assert data[5..] == [] + value + [];
      StrippedIs([], value, []);
    }
  }

  /** Every other line is passed over. */
  lemma OtherLine<J>(parse: Parser<J>, before: Bytes, text: Bytes, after: Bytes)
    requires White(before) && White(after) && Tight(text) && !([100, 97, 116, 97, 58] <= text)
    ensures Meaning(parse, before + text + after) == Skip
  {
    StrippedIs(before, text, after);
  }
}
