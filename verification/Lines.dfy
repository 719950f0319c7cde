/** Bytes that arrive in chunks, cut into lines. */
module Lines {
  newtype Byte = x: int | 0 <= x < 256

  type Bytes = seq<Byte>

  const NEWLINE: Byte := 10
  const RETURN: Byte := 13

  /** The chunks one after the other. */
  function Concat(chunks: seq<Bytes>): Bytes
    decreases |chunks|
  {
    if chunks == [] then [] else chunks[0] + Concat(chunks[1..])
  }

  /** The first newline, or -1. */
  function IndexOf(b: Bytes): (i: int)
    ensures i == -1 || 0 <= i < |b|
    ensures i == -1 ==> NEWLINE !in b
    ensures i >= 0 ==> b[i] == NEWLINE && NEWLINE !in b[..i]
    decreases |b|
  {
    if b == [] then -1
    else if b[0] == NEWLINE then 0
    else var i := IndexOf(b[1..]); if i < 0 then -1 else i + 1
  }

  /** The lines that a newline ends, without it. */
  function Ended(b: Bytes): seq<Bytes>
    decreases |b|
  {
    var i := IndexOf(b);
    if i < 0 then [] else [b[..i]] + Ended(b[i + 1..])
  }

  /** What follows the last newline. */
  function Unfinished(b: Bytes): (r: Bytes)
    ensures NEWLINE !in r
    decreases |b|
  {
    var i := IndexOf(b);
    if i < 0 then b else Unfinished(b[i + 1..])
  }

  method FindNewline(b: Bytes) returns (i: int)
    ensures i == IndexOf(b)
  {
    for k := 0 to |b|
      invariant NEWLINE !in b[..k]
    {
      if b[k] == NEWLINE {
        IndexIs(b, k);
        return k;
      }
    }
    assert b[..|b|] == b;
    return -1;
  }

  lemma {:induction false} IndexIs(b: Bytes, k: nat)
    requires k < |b| && b[k] == NEWLINE && NEWLINE !in b[..k]
    ensures IndexOf(b) == k
  {
  }

  /** The first line, and what is left. */
  lemma FirstLine(b: Bytes)
    ensures var i := IndexOf(b);
      if i < 0 then Ended(b) == [] && Unfinished(b) == b
      else Ended(b) == [b[..i]] + Ended(b[i + 1..]) && Unfinished(b) == Unfinished(b[i + 1..])
  {
  }

  lemma Regroup<T>(a: seq<T>, x: T, b: seq<T>)
    ensures a + ([x] + b) == a + [x] + b
  {
  }

  /** Lines do not care what comes after them. */
  lemma {:induction false} EndedConcat(a: Bytes, b: Bytes)
    ensures Ended(a + b) == Ended(a) + Ended(Unfinished(a) + b)
    ensures Unfinished(a + b) == Unfinished(Unfinished(a) + b)
    decreases |a|
  {
    var i := IndexOf(a);
    if i >= 0 {
      assert (a + b)[..i] == a[..i];
      IndexIs(a + b, i);
      assert (a + b)[i + 1..] == a[i + 1..] + b;
      EndedConcat(a[i + 1..], b);
    }
  }

  lemma {:induction false} ConcatSplit(chunks: seq<Bytes>, k: nat)
    requires k <= |chunks|
    ensures Concat(chunks) == Concat(chunks[..k]) + Concat(chunks[k..])
  {
    if k > 0 {
      ConcatSplit(chunks[1..], k - 1);
      assert chunks[..k][1..] == chunks[1..][..k - 1];
      assert chunks[1..][k - 1..] == chunks[k..];
    } else {
      assert chunks[0..] == chunks;
    }
  }

  /** Nothing is lost: the lines with their newlines, and the rest, are the bytes. */
  function Glued(lines: seq<Bytes>): Bytes
    decreases |lines|
  {
    if lines == [] then [] else lines[0] + [NEWLINE] + Glued(lines[1..])
  }

  lemma GluedFirst(line: Bytes, rest: seq<Bytes>)
    ensures Glued([line] + rest) == line + [NEWLINE] + Glued(rest)
  {
  }

  lemma {:induction false} LinesGlue(b: Bytes)
    ensures b == Glued(Ended(b)) + Unfinished(b)
    decreases |b|
  {
    hide Glued, Ended, Unfinished;
    var i := IndexOf(b);
    FirstLine(b);
    if i >= 0 {
      var rest := b[i + 1..];
      LinesGlue(rest);
      GluedFirst(b[..i], Ended(rest));
      assert b == b[..i] + [NEWLINE] + rest;
    } else {
      NoGlue();
    }
  }

  lemma NoGlue()
    ensures Glued([]) == []
  {
  }

  lemma {:induction false} LinesHaveNoNewline(b: Bytes)
    ensures forall k :: 0 <= k < |Ended(b)| ==> NEWLINE !in Ended(b)[k]
    decreases |b|
  {
    var i := IndexOf(b);
    if i >= 0 {
      LinesHaveNoNewline(b[i + 1..]);
    }
  }
}

/** agent/logging.go: childWriter, which cuts a child's output into timestamped log lines. */
module ChildLog {
  import opened Lines

  /** An unfinished line above this length is written out as it is. */
  const LONGEST := 64 * 1024

  /** One trailing carriage return is dropped. */
  function Trimmed(line: Bytes): Bytes {
    if line != [] && line[|line| - 1] == RETURN then line[..|line| - 1] else line
  }

  function TrimmedAll(lines: seq<Bytes>): (r: seq<Bytes>)
    ensures |r| == |lines|
  {
    seq(|lines|, i requires 0 <= i < |lines| => Trimmed(lines[i]))
  }

  /** `logged`: what went to the file, without the timestamps; `seen`: what onLine got. */
  datatype Log = Log(buf: Bytes, logged: seq<Bytes>, seen: seq<Bytes>)

  const EMPTY: Log := Log([], [], [])

  function After(w: Log, p: Bytes): Log {
    var lines, rest := TrimmedAll(Ended(w.buf + p)), Unfinished(w.buf + p);
    if |rest| > LONGEST then Log([], w.logged + lines + [rest], w.seen + lines)
    else Log(rest, w.logged + lines, w.seen + lines)
  }

  class ChildWriter {
    var buf: Bytes
    var logged: seq<Bytes>
    var seen: seq<Bytes>

    ghost function View(): Log
      reads this
    {
      Log(buf, logged, seen)
    }

    constructor ()
      ensures View() == EMPTY
    {
      buf, logged, seen := [], [], [];
    }

    method Write(p: Bytes) returns (n: nat)
      modifies this
      ensures View() == After(old(View()), p)
      ensures |buf| <= 65_536 && n == |p|
    {
      hide Ended, Unfinished, TrimmedAll, IndexOf, Trimmed;
      buf := buf + p;
      ghost var all := buf;
      ghost var lines := TrimmedAll(Ended(all));
      var more := true;
      while more
        invariant old(logged) + lines == logged + TrimmedAll(Ended(buf))
        invariant old(seen) + lines == seen + TrimmedAll(Ended(buf))
        invariant Unfinished(all) == Unfinished(buf)
        invariant !more ==> IndexOf(buf) < 0
        decreases more, |buf|
      {
        FirstLine(buf);
        var i := FindNewline(buf);
        if i < 0 {
          more := false;
        } else {
          ghost var rest := Ended(buf[i + 1..]);
          TrimmedFirst(buf[..i], rest);
          var line := buf[..i];
          if |line| > 0 && line[|line| - 1] == RETURN {
            line := line[..|line| - 1];
          }
          Regroup(logged, line, TrimmedAll(rest));
          Regroup(seen, line, TrimmedAll(rest));
          logged := logged + [line];
          seen := seen + [line];
          buf := buf[i + 1..];
        }
      }
      FirstLine(buf);
      TrimmedNone();
      assert logged == old(logged) + lines && seen == old(seen) + lines;
      if |buf| > LONGEST {
        logged := logged + [buf];
        buf := [];
      }
      return |p|;
    }
  }

  lemma TrimmedNone()
    ensures TrimmedAll([]) == []
  {
  }

  lemma TrimmedFirst(line: Bytes, rest: seq<Bytes>)
    ensures TrimmedAll([line] + rest) == [Trimmed(line)] + TrimmedAll(rest)
    ensures Trimmed(line) == if line != [] && line[|line| - 1] == 13 then line[..|line| - 1] else line
  {
  }

  // ---- whole runs ----

  function Writes(w: Log, ps: seq<Bytes>): Log
    decreases |ps|
  {
    if ps == [] then w else Writes(After(w, ps[0]), ps[1..])
  }

  predicate Fits(ps: seq<Bytes>) { |Unfinished(Concat(ps))| <= 65_536 }

  /** After no write is an unfinished line too long. */
  predicate NoOverflow(ps: seq<Bytes>) {
    forall k :: 0 <= k <= |ps| ==> Fits(ps[..k])
  }

  lemma TrimmedConcat(a: seq<Bytes>, b: seq<Bytes>)
    ensures TrimmedAll(a + b) == TrimmedAll(a) + TrimmedAll(b)
  {
  }

  lemma WritesPush(w: Log, ps: seq<Bytes>, p: Bytes)
    ensures Writes(w, ps + [p]) == After(Writes(w, ps), p)
    decreases |ps|
  {
    if ps == [] {
      assert ps + [p] == [p];
    } else {
      assert (ps + [p])[1..] == ps[1..] + [p];
      WritesPush(After(w, ps[0]), ps[1..], p);
    }
  }

  lemma ConcatPush(ps: seq<Bytes>, p: Bytes)
    ensures Concat(ps + [p]) == Concat(ps) + p
  {
    ConcatSplit(ps + [p], |ps|);
    assert (ps + [p])[..|ps|] == ps && (ps + [p])[|ps|..] == [p];
    assert Concat([p]) == p + [];
  }

  lemma NoOverflowLast(ps: seq<Bytes>)
    requires ps != []
    ensures NoOverflow(ps) <==> NoOverflow(ps[..|ps| - 1]) && Fits(ps)
  {
    hide Fits;
    var n := |ps| - 1;
    assert forall k :: 0 <= k <= n ==> ps[..n][..k] == ps[..k];
    assert ps[..|ps|] == ps;
  }

  /** The file gets one entry for every newline, and more as soon as one unfinished line grew too long. */
  lemma {:induction false} LogCounts(ps: seq<Bytes>)
    ensures var w, all := Writes(EMPTY, ps), Concat(ps);
      && NEWLINE !in w.buf
      && |w.seen| == |Ended(all)| && |w.logged| >= |Ended(all)|
      && (|w.logged| == |Ended(all)| <==> NoOverflow(ps))
      && (NoOverflow(ps) ==> w == Log(Unfinished(all), TrimmedAll(Ended(all)), TrimmedAll(Ended(all))))
    decreases |ps|
  {
    if ps == [] {
      assert ps[..0] == [];
    } else {
      var n := |ps| - 1;
      var front, p := ps[..n], ps[n];
      assert ps == front + [p];
      LogCounts(front);
      WritesPush(EMPTY, front, p);
      ConcatPush(front, p);
      NoOverflowLast(ps);
      var was, all := Writes(EMPTY, front), Concat(front);
      EndedConcat(all, p);
      NewlinesCount(was.buf, Unfinished(all), p);
      TrimmedConcat(Ended(all), Ended(Unfinished(all) + p));
    }
  }

  /** How many lines a write ends does not depend on the unfinished line before it. */
  lemma NewlinesCount(a: Bytes, b: Bytes, p: Bytes)
    requires NEWLINE !in a && NEWLINE !in b
    ensures |Ended(a + p)| == |Ended(b + p)|
  {
    var i := IndexOf(p);
    if i < 0 {
      NoNewline(a, p);
      NoNewline(b, p);
    } else {
      FirstOfBoth(a, p);
      FirstOfBoth(b, p);
    }
  }

  lemma NoNewline(a: Bytes, p: Bytes)
    requires NEWLINE !in a && NEWLINE !in p
    ensures Ended(a + p) == []
  {
  }

  lemma FirstOfBoth(a: Bytes, p: Bytes)
    requires NEWLINE !in a && NEWLINE in p
    ensures var i := IndexOf(p); i >= 0 && Ended(a + p) == [a + p[..i]] + Ended(p[i + 1..])
  {
    var i := IndexOf(p);
    var k := |a| + i;
    assert (a + p)[..k] == a + p[..i];
    assert (a + p)[k + 1..] == p[i + 1..];
    assert (a + p)[k] == NEWLINE;
    IndexIs(a + p, k);
  }

  /** The file holds exactly the newline split of all the output, whatever the chunks, if and only if no unfinished line ever
      exceeds 64 KiB; onLine then sees the same lines. */
  lemma LogIsSplitIff(ps: seq<Bytes>)
    ensures var w, all := Writes(EMPTY, ps), Concat(ps);
      && (w.logged == TrimmedAll(Ended(all)) <==> NoOverflow(ps))
      && (NoOverflow(ps) ==> w.seen == w.logged && w.buf == Unfinished(all))
  {
    LogCounts(ps);
  }

  /** Two ways to cut the same output leave the same log. */
  lemma ChunksDoNotMatter(ps: seq<Bytes>, qs: seq<Bytes>)
    requires Concat(ps) == Concat(qs) && NoOverflow(ps) && NoOverflow(qs)
    ensures Writes(EMPTY, ps) == Writes(EMPTY, qs)
  {
    LogCounts(ps);
    LogCounts(qs);
  }

  /** Whatever comes, the buffer stays bounded and holds no newline. */
  lemma BufferIsBounded(w: Log, ps: seq<Bytes>)
    requires |w.buf| <= 65_536 && NEWLINE !in w.buf
    ensures |Writes(w, ps).buf| <= 65_536 && NEWLINE !in Writes(w, ps).buf
    decreases |ps|
  {
    if ps != [] {
      BufferIsBounded(After(w, ps[0]), ps[1..]);
    }
  }
}
