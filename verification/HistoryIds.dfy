/** The ids that tie tool results to tool calls in a history for an Anthropic provider (router/skirnir_router/cloud.py: _an_body).
    A call without an id gets toolu_<n>, where n counts the calls still waiting; a result without an id takes the id of the call that
    has waited longest, or toolu_1 if none waits. */
module HistoryIds {
  import opened Common
  import opened History

  // ---- numbered ids ----

  lemma {:induction false} DecimalIsInjective(a: nat, b: nat)
    requires Decimal(a) == Decimal(b)
    ensures a == b
    decreases a
  {
    DecimalLong(a);
    DecimalLong(b);
    DigitsDiffer(a % 10, b % 10);
    if a >= 10 && b >= 10 {
      assert Decimal(a)[..|Decimal(a)| - 1] == Decimal(a / 10);
      assert Decimal(b)[..|Decimal(b)| - 1] == Decimal(b / 10);
      DecimalIsInjective(a / 10, b / 10);
    }
  }

  lemma DecimalLong(a: nat)
    ensures var d := Decimal(a); |d| >= 1 && d[|d| - 1] == "0123456789"[a % 10] && (|d| == 1 <==> a < 10)
  {
  }

  lemma DigitsDiffer(a: nat, b: nat)
    requires a < 10 && b < 10
    ensures "0123456789"[a] == "0123456789"[b] ==> a == b
  {
  }

  lemma ToolIdIsInjective(a: nat, b: nat)
    requires ToolId(a) == ToolId(b)
    ensures a == b
  {
    assert Decimal(a) == ToolId(a)[6..] == ToolId(b)[6..] == Decimal(b);
    DecimalIsInjective(a, b);
  }

  lemma {:induction false} IdAt(calls: seq<NativeCall>, pending: nat, i: nat)
    requires i < |calls| && forall j :: 0 <= j < |calls| ==> calls[j].id == ""
    ensures IdsOf(calls, pending)[i] == ToolId(pending + i + 1)
    decreases |calls|
  {
    if i < |calls| - 1 {
      IdAt(calls[..|calls| - 1], pending, i);
    }
  }

  // ---- the ids in the output ----

  /** All parts of all messages, in order. */
  function Flat(out: seq<AnMessage>): seq<Part>
    decreases |out|
  {
    if out == [] then [] else Flat(out[..|out| - 1]) + out[|out| - 1].parts
  }

  function UseIds(ps: seq<Part>): seq<string>
    decreases |ps|
  {
    if ps == [] then [] else UseIds(ps[..|ps| - 1]) + (if ps[|ps| - 1].UsePart? then [ps[|ps| - 1].id] else [])
  }

  function ResultIds(ps: seq<Part>): seq<string>
    decreases |ps|
  {
    if ps == [] then [] else ResultIds(ps[..|ps| - 1]) + (if ps[|ps| - 1].ResultPart? then [ps[|ps| - 1].id] else [])
  }

  lemma {:induction false} IdsConcat(a: seq<Part>, b: seq<Part>)
    ensures UseIds(a + b) == UseIds(a) + UseIds(b)
    decreases |b|
  {
    if b == [] {
      assert a + b == a;
    } else {
      assert (a + b)[..|a| + |b| - 1] == a + b[..|b| - 1];
      IdsConcat(a, b[..|b| - 1]);
    }
  }

  lemma {:induction false} ResultIdsConcat(a: seq<Part>, b: seq<Part>)
    ensures ResultIds(a + b) == ResultIds(a) + ResultIds(b)
    decreases |b|
  {
    if b == [] {
      assert a + b == a;
    } else {
      assert (a + b)[..|a| + |b| - 1] == a + b[..|b| - 1];
      ResultIdsConcat(a, b[..|b| - 1]);
    }
  }

  lemma AttachedFlat(out: seq<AnMessage>, role: string, parts: seq<Part>)
    ensures Flat(Attached(out, role, parts)) == Flat(out) + parts
  {
  }

  lemma {:induction false} PlainParts(ps: seq<Part>)
    requires forall i :: 0 <= i < |ps| ==> ps[i].TextPart? || ps[i].ImagePart?
    ensures UseIds(ps) == [] && ResultIds(ps) == []
    decreases |ps|
  {
    if ps != [] {
      PlainParts(ps[..|ps| - 1]);
    }
  }

  lemma {:induction false} UsePartsIds(calls: seq<NativeCall>, ids: seq<string>)
    requires |ids| == |calls|
    ensures UseIds(UseParts(calls, ids)) == ids && ResultIds(UseParts(calls, ids)) == []
    decreases |calls|
  {
    if calls != [] {
      var n := |calls| - 1;
      assert UseParts(calls, ids)[..n] == UseParts(calls[..n], ids[..n]);
      UsePartsIds(calls[..n], ids[..n]);
      assert ids == ids[..n] + [ids[n]];
    }
  }

  lemma PartsIds(m: Native, pending: nat)
    ensures UseIds(PartsOf(m, pending)) == (if m.role == "assistant" then IdsOf(m.calls, pending) else [])
    ensures ResultIds(PartsOf(m, pending)) == []
  {
    hide UseIds, ResultIds, IdsOf, UseParts;
    var plain := (if m.content != "" then [TextPart(m.content)] else []) + ImageParts(m.images);
    var ids := IdsOf(m.calls, pending);
    var uses := if m.role == "assistant" then UseParts(m.calls, ids) else [];
    PlainParts(plain);
    PlainParts([]);
    PlainParts([TextPart(" ")]);
    UsePartsIds(m.calls, ids);
    IdsConcat(plain, uses);
    ResultIdsConcat(plain, uses);
    if plain + uses == [] {
      assert m.role == "assistant" ==> |ids| == 0;
    }
  }

  lemma NothingYet()
    ensures Flat([]) == [] && UseIds([]) == [] && ResultIds([]) == []
  {
  }

  lemma ResultFlat(out: seq<AnMessage>, part: Part)
    requires part.ResultPart?
    ensures Flat(out + [AnMessage("user", [part])]) == Flat(out) + [part]
    ensures UseIds([part]) == [] && ResultIds([part]) == [part.id]
  {
  }

  // ---- the ids as the input determines them ----

  function CallCount(ms: seq<Native>): nat
    decreases |ms|
  {
    if ms == [] then 0
    else CallCount(ms[..|ms| - 1]) + if ms[|ms| - 1].role == "assistant" then |ms[|ms| - 1].calls| else 0
  }

  /** How many calls a result has taken off the waiting list. */
  function Served(ms: seq<Native>): (n: nat)
    ensures n <= CallCount(ms)
    decreases |ms|
  {
    if ms == [] then 0
    else
      var front, m := ms[..|ms| - 1], ms[|ms| - 1];
      Served(front) + if m.role == "tool" && m.toolCallId == "" && Served(front) < CallCount(front) then 1 else 0
  }

  function Waiting(ms: seq<Native>): nat { CallCount(ms) - Served(ms) }

  function CallIds(ms: seq<Native>): (ids: seq<string>)
    ensures |ids| == CallCount(ms)
    decreases |ms|
  {
    if ms == [] then []
    else
      var front, m := ms[..|ms| - 1], ms[|ms| - 1];
      CallIds(front) + if m.role == "assistant" then IdsOf(m.calls, Waiting(front)) else []
  }

  function AnswerId(front: seq<Native>, m: Native): string {
    if m.toolCallId != "" then m.toolCallId
    else if Served(front) < CallCount(front) then CallIds(front)[Served(front)]
    else ToolId(1)
  }

  function AnswerIds(ms: seq<Native>): seq<string>
    decreases |ms|
  {
    if ms == [] then []
    else
      var front, m := ms[..|ms| - 1], ms[|ms| - 1];
      AnswerIds(front) + if m.role == "tool" then [AnswerId(front, m)] else []
  }

  /** What the converter holds after these messages, as far as ids go. */
  predicate IdsMatch(ms: seq<Native>, c: Conv) {
    && UseIds(Flat(c.out)) == CallIds(ms) && ResultIds(Flat(c.out)) == AnswerIds(ms)
    && c.pending == CallIds(ms)[Served(ms)..]
  }

  lemma ToolIdsMatch(front: seq<Native>, m: Native, c: Conv)
    requires IdsMatch(front, c) && m.role == "tool"
    ensures IdsMatch(front + [m], Put(c, m))
  {
    hide UseIds, ResultIds, Flat;
    var part := ResultPart(AnswerId(front, m), m.content);
    assert (front + [m])[..|front|] == front;
    ResultFlat(c.out, part);
    IdsConcat(Flat(c.out), [part]);
    ResultIdsConcat(Flat(c.out), [part]);
  }

  lemma OtherIdsMatch(front: seq<Native>, m: Native, c: Conv)
    requires IdsMatch(front, c) && m.role != "tool"
    ensures IdsMatch(front + [m], Put(c, m))
  {
    hide UseIds, ResultIds, Flat, IdsOf, PartsOf, Attached;
    assert (front + [m])[..|front|] == front;
    if m.role != "system" {
      var parts := PartsOf(m, |c.pending|);
      AttachedFlat(c.out, m.role, parts);
      PartsIds(m, |c.pending|);
      IdsConcat(Flat(c.out), parts);
      ResultIdsConcat(Flat(c.out), parts);
    }
  }

  /** In every history - ids given or not, calls answered or not, results with or without a call - these are the ids in the output,
      and the waiting list holds those of the calls that no result has taken. */
  lemma {:induction false} IdsAre(ms: seq<Native>)
    ensures IdsMatch(ms, PutAll(ms))
    decreases |ms|
  {
    hide *;
    if ms == [] {
      NothingMatches();
    } else {
      var front, m := ms[..|ms| - 1], ms[|ms| - 1];
      IdsAre(front);
      PutLast(front, m);
      assert front + [m] == ms;
      if m.role == "tool" {
        ToolIdsMatch(front, m, PutAll(front));
      } else {
        OtherIdsMatch(front, m, PutAll(front));
      }
    }
  }

  lemma NothingMatches()
    ensures IdsMatch([], PutAll([]))
  {
    NothingYet();
  }

  lemma {:induction false} LaterIdsFollow(ms: seq<Native>, p: nat)
    requires p <= |ms|
    ensures CallIds(ms[..p]) <= CallIds(ms) && AnswerIds(ms[..p]) <= AnswerIds(ms)
    decreases |ms|
  {
    if p < |ms| {
      LaterIdsFollow(ms[..|ms| - 1], p);
      assert ms[..|ms| - 1][..p] == ms[..p];
    } else {
      assert ms[..p] == ms;
    }
  }

  /** The id of the result at position p. */
  lemma ResultIdIs(ms: seq<Native>, p: nat)
    requires p < |ms| && ms[p].role == "tool"
    ensures var j := |AnswerIds(ms[..p])|; j < |AnswerIds(ms)| && AnswerIds(ms)[j] == AnswerId(ms[..p], ms[p])
  {
    assert ms[..p + 1][..p] == ms[..p];
    LaterIdsFollow(ms, p + 1);
    var upTo := AnswerIds(ms[..p + 1]);
    assert upTo == AnswerIds(ms[..p]) + [AnswerId(ms[..p], ms[p])];
    assert upTo[|upTo| - 1] == AnswerIds(ms)[|upTo| - 1];
  }

  // ---- calls without ids ----

  predicate CallsHaveNoIds(ms: seq<Native>) {
    forall p, i :: 0 <= p < |ms| && 0 <= i < |ms[p].calls| ==> ms[p].calls[i].id == ""
  }

  /** The number each call gets. */
  function Numbers(ms: seq<Native>): (ns: seq<nat>)
    ensures |ns| == CallCount(ms)
    decreases |ms|
  {
    if ms == [] then []
    else
      var front, m := ms[..|ms| - 1], ms[|ms| - 1];
      Numbers(front) + if m.role == "assistant" then CountedFrom(Waiting(front) + 1, |m.calls|) else []
  }

  function CountedFrom(first: nat, n: nat): (ns: seq<nat>)
    ensures |ns| == n && forall i :: 0 <= i < n ==> ns[i] == first + i
    decreases n
  {
    if n == 0 then [] else CountedFrom(first, n - 1) + [first + n - 1]
  }

  /** The message with the k-th call. */
  function PlaceOf(ms: seq<Native>, k: nat): (q: nat)
    requires k < CallCount(ms)
    ensures q < |ms| && CallCount(ms[..q]) <= k
    decreases |ms|
  {
    var front := ms[..|ms| - 1];
    if k < CallCount(front) then
      var q := PlaceOf(front, k);
      assert front[..q] == ms[..q];
      q
    else |ms| - 1
  }

  /** A call's number is its place in the history, less the calls already taken off when its turn came. */
  lemma {:induction false} NumberIs(ms: seq<Native>, k: nat)
    requires k < CallCount(ms)
    ensures Numbers(ms)[k] == k + 1 - Served(ms[..PlaceOf(ms, k)])
    decreases |ms|
  {
    var front := ms[..|ms| - 1];
    if k < CallCount(front) {
      NumberIs(front, k);
      assert front[..PlaceOf(front, k)] == ms[..PlaceOf(front, k)];
    }
  }

  lemma {:induction false} IdIsNumber(ms: seq<Native>, k: nat)
    requires CallsHaveNoIds(ms) && k < CallCount(ms)
    ensures CallIds(ms)[k] == ToolId(Numbers(ms)[k])
    decreases |ms|
  {
    hide IdsOf, ToolId, CountedFrom;
    var front, m := ms[..|ms| - 1], ms[|ms| - 1];
    assert CallsHaveNoIds(front) && (forall i :: 0 <= i < |m.calls| ==> m.calls[i].id == "");
    hide CallsHaveNoIds;
    if k < CallCount(front) {
      IdIsNumber(front, k);
    } else {
      IdAt(m.calls, Waiting(front), k - CallCount(front));
    }
  }

  /** Two calls have one id exactly if as many calls were taken off between their turns as lie between them: ids of one turn differ,
      but a turn of which some, not all, calls were answered shares ids with the next. */
  lemma SameIdIff(ms: seq<Native>, j: nat, k: nat)
    requires CallsHaveNoIds(ms) && j < CallCount(ms) && k < CallCount(ms)
    ensures CallIds(ms)[j] == CallIds(ms)[k] <==> k - j == Served(ms[..PlaceOf(ms, k)]) - Served(ms[..PlaceOf(ms, j)])
  {
    hide CallCount, Served, CallIds, Numbers, PlaceOf, ToolId, CallsHaveNoIds;
    IdIsNumber(ms, j);
    IdIsNumber(ms, k);
    NumberIs(ms, j);
    NumberIs(ms, k);
    if ToolId(Numbers(ms)[j]) == ToolId(Numbers(ms)[k]) {
      ToolIdIsInjective(Numbers(ms)[j], Numbers(ms)[k]);
    }
  }

  /** Exactly when a result without an id, meant for the k-th call, carries that call's id: the call it takes has the same number, or
      no call waits and the k-th has number 1. */
  lemma OwnIdIff(ms: seq<Native>, p: nat, k: nat)
    requires CallsHaveNoIds(ms) && p < |ms| && ms[p].role == "tool" && ms[p].toolCallId == "" && k < CallCount(ms[..p])
    ensures |AnswerIds(ms[..p])| < |AnswerIds(ms)| && k < CallCount(ms)
    ensures var front := ms[..p];
      var taken := if Waiting(front) > 0 then Numbers(front)[Served(front)] else 1;
      AnswerIds(ms)[|AnswerIds(front)|] == CallIds(ms)[k] <==> taken == Numbers(front)[k]
  {
    var front := ms[..p];
    ResultIdIs(ms, p);
    LaterIdsFollow(ms, p);
    assert CallIds(ms)[k] == CallIds(front)[k];
    IdIsNumber(front, k);
    var taken := if Waiting(front) > 0 then Numbers(front)[Served(front)] else 1;
    if Waiting(front) > 0 {
      IdIsNumber(front, Served(front));
    }
    if ToolId(taken) == ToolId(Numbers(front)[k]) {
      ToolIdIsInjective(taken, Numbers(front)[k]);
    }
  }

  /** A result that no call waits for carries toolu_1, the id of the first call of the history if there was one. */
  lemma SurplusResultNamesFirst(ms: seq<Native>, p: nat)
    requires CallsHaveNoIds(ms) && p < |ms| && ms[p].role == "tool" && ms[p].toolCallId == "" && Waiting(ms[..p]) == 0
    ensures |AnswerIds(ms[..p])| < |AnswerIds(ms)| && AnswerIds(ms)[|AnswerIds(ms[..p])|] == ToolId(1)
    ensures CallCount(ms) > 0 ==> CallIds(ms)[0] == ToolId(1)
  {
    hide CallCount, Served, CallIds, AnswerIds, Numbers, PlaceOf, ToolId, CallsHaveNoIds;
    ResultIdIs(ms, p);
    if CallCount(ms) > 0 {
      IdIsNumber(ms, 0);
      NumberIs(ms, 0);
    }
  }

  // ---- histories whose results answer in order ----

  /** Every result has no id of its own, and a call that waits for it. */
  predicate Awaited(ms: seq<Native>) {
    forall p :: 0 <= p < |ms| && ms[p].role == "tool" ==> ms[p].toolCallId == "" && Waiting(ms[..p]) > 0
  }

  lemma AwaitedFront(ms: seq<Native>)
    requires Awaited(ms) && ms != []
    ensures Awaited(ms[..|ms| - 1])
  {
    var front := ms[..|ms| - 1];
    assert forall p :: 0 <= p < |front| ==> front[..p] == ms[..p] && front[p] == ms[p];
  }

  /** Then the j-th result of the history carries the id of its j-th call. */
  lemma {:induction false} ResultsCarryOwnIds(ms: seq<Native>)
    requires Awaited(ms)
    ensures Served(ms) == |AnswerIds(ms)| && AnswerIds(ms) == CallIds(ms)[..Served(ms)]
    decreases |ms|
  {
    if ms != [] {
      var front, m := ms[..|ms| - 1], ms[|ms| - 1];
      AwaitedFront(ms);
      ResultsCarryOwnIds(front);
      assert m.role == "tool" ==> m.toolCallId == "" && Waiting(front) > 0;
    }
  }

  /** And every turn's calls are answered before the next turn with calls. */
  predicate TurnsAnswered(ms: seq<Native>) {
    forall p :: 0 <= p < |ms| && ms[p].role == "assistant" ==> Waiting(ms[..p]) == 0
  }

  /** What waits is then of the last turn. */
  lemma {:induction false} WaitingIsRecent(ms: seq<Native>, k: nat)
    requires TurnsAnswered(ms) && Served(ms) <= k < CallCount(ms)
    ensures CallCount(ms[..PlaceOf(ms, k) + 1]) == CallCount(ms)
    decreases |ms|
  {
    var front := ms[..|ms| - 1];
    assert ms[..|ms|] == ms;
    if k < CallCount(front) {
      assert forall p :: 0 <= p < |front| ==> front[..p] == ms[..p] && front[p] == ms[p];
      WaitingIsRecent(front, k);
      assert front[..PlaceOf(front, k) + 1] == ms[..PlaceOf(front, k) + 1];
    }
  }

  lemma PremisesHoldBefore(ms: seq<Native>, p: nat)
    requires CallsHaveNoIds(ms) && Awaited(ms) && TurnsAnswered(ms) && p <= |ms|
    ensures CallsHaveNoIds(ms[..p]) && Awaited(ms[..p]) && TurnsAnswered(ms[..p])
  {
    var front := ms[..p];
    assert forall q :: 0 <= q < |front| ==> front[..q] == ms[..q] && front[q] == ms[q];
  }

  /** The call that has waited longest is of the last turn, and no other waiting call has its id. */
  lemma OldestIsRecent(ms: seq<Native>, k: nat)
    requires CallsHaveNoIds(ms) && TurnsAnswered(ms) && Served(ms) < k < CallCount(ms)
    ensures CallIds(ms)[k] != CallIds(ms)[Served(ms)]
  {
    hide CallCount, Served, CallIds, TurnsAnswered, CallsHaveNoIds, PlaceOf;
    WaitingIsRecent(ms, Served(ms));
    SameTurn(ms, Served(ms), k);
    SameIdIff(ms, Served(ms), k);
  }

  /** If each turn's calls are answered in call order before the next turn, and no ids are given, each result carries its own call's
      id - the j-th result that of the j-th call, which is of the last turn - and no other waiting call has that id. */
  lemma TurnsCarryOwnIds(ms: seq<Native>, p: nat)
    requires CallsHaveNoIds(ms) && Awaited(ms) && TurnsAnswered(ms) && p < |ms| && ms[p].role == "tool"
    ensures var front := ms[..p]; var j := |AnswerIds(front)|;
      && j == Served(front) < CallCount(front) && j < |AnswerIds(ms)| && CallCount(front) <= CallCount(ms)
      && AnswerIds(ms)[j] == CallIds(ms)[j]
      && CallCount(front[..PlaceOf(front, j) + 1]) == CallCount(front)
      && (forall k :: j < k < CallCount(front) ==> CallIds(ms)[k] != CallIds(ms)[j])
  {
    var front := ms[..p];
    var j := Served(front);
    assert Waiting(front) > 0 && ms[p].toolCallId == "";
    PremisesHoldBefore(ms, p);
    hide CallCount, Served, CallIds, AnswerIds, TurnsAnswered, CallsHaveNoIds, Awaited, PlaceOf;
    ResultsCarryOwnIds(front);
    ResultIdIs(ms, p);
    LaterIdsFollow(ms, p);
    WaitingIsRecent(front, j);
    forall k | j < k < CallCount(front) ensures CallIds(ms)[k] != CallIds(ms)[j] {
      OldestIsRecent(front, k);
    }
  }

  /** Two calls with no turn with calls between them are of one turn. */
  lemma {:induction false} SameTurn(ms: seq<Native>, j: nat, k: nat)
    requires j < k < CallCount(ms) && CallCount(ms[..PlaceOf(ms, j) + 1]) == CallCount(ms)
    ensures PlaceOf(ms, k) == PlaceOf(ms, j)
    decreases |ms|
  {
    var front := ms[..|ms| - 1];
    if j < CallCount(front) {
      var q := PlaceOf(front, j);
      assert front[..q + 1] == ms[..q + 1];
      CountGrows(front, q + 1);
      SameTurn(front, j, k);
    }
  }

  lemma {:induction false} CountGrows(ms: seq<Native>, p: nat)
    requires p <= |ms|
    ensures CallCount(ms[..p]) <= CallCount(ms)
    decreases |ms|
  {
    if p < |ms| {
      assert ms[..|ms| - 1][..p] == ms[..p];
      CountGrows(ms[..|ms| - 1], p);
    } else {
      assert ms[..p] == ms;
    }
  }

  // ---- histories in which calls stay unanswered ----

  /** The turn at q has a call i, and i + 1 results without ids follow it at once. */
  predicate AnsweredAtOnce(ms: seq<Native>, q: nat, i: nat) {
    && q + 1 + i < |ms| && ms[q].role == "assistant" && i < |ms[q].calls|
    && forall r :: q < r <= q + 1 + i ==> ms[r].role == "tool" && ms[r].toolCallId == ""
  }

  lemma ResultStep(ms: seq<Native>, m: Native)
    requires m.role == "tool" && m.toolCallId == "" && Waiting(ms) > 0
    ensures var next := ms + [m];
      CallCount(next) == CallCount(ms) && Served(next) == Served(ms) + 1 && |AnswerIds(next)| == |AnswerIds(ms)| + 1
  {
    assert (ms + [m])[..|ms|] == ms;
  }

  lemma TurnStep(ms: seq<Native>, m: Native)
    requires m.role == "assistant"
    ensures var next := ms + [m];
      CallCount(next) == CallCount(ms) + |m.calls| && Served(next) == Served(ms) && |AnswerIds(next)| == |AnswerIds(ms)|
  {
    assert (ms + [m])[..|ms|] == ms;
  }

  lemma {:induction false} ResultsTakeInOrder(ms: seq<Native>, q: nat, i: nat)
    requires AnsweredAtOnce(ms, q, i)
    ensures var front, upTo := ms[..q], ms[..q + 1 + i];
      && CallCount(upTo) == CallCount(front) + |ms[q].calls| && Served(upTo) == Served(front) + i
      && |AnswerIds(upTo)| == |AnswerIds(front)| + i
    decreases i
  {
    hide CallCount, Served, AnswerIds;
    assert ms[..q + i] + [ms[q + i]] == ms[..q + 1 + i];
    if i > 0 {
      ResultsTakeInOrder(ms, q, i - 1);
      ResultStep(ms[..q + i], ms[q + i]);
    } else {
      TurnStep(ms[..q], ms[q]);
    }
  }

  /** If calls still wait when a turn with calls comes, its results are that many calls late: the i-th carries the id of the call so
      many places before its own. */
  lemma UnansweredCallsShiftIds(ms: seq<Native>, q: nat, i: nat)
    requires AnsweredAtOnce(ms, q, i)
    ensures var front := ms[..q]; var j, own := |AnswerIds(front)| + i, CallCount(front) + i;
      && j < |AnswerIds(ms)| && own < CallCount(ms) && AnswerIds(ms)[j] == CallIds(ms)[own - Waiting(front)]
  {
    hide AnswerIds, Served, CallCount;
    ResultsTakeInOrder(ms, q, i);
    ResultIdIs(ms, q + 1 + i);
    LaterIdsFollow(ms, q + 1 + i);
  }

  /** That is the result's own id after all exactly if the two calls have one number. */
  lemma ShiftedIdIsOwnIff(ms: seq<Native>, q: nat, i: nat)
    requires AnsweredAtOnce(ms, q, i) && CallsHaveNoIds(ms)
    ensures var front := ms[..q]; var j, own := |AnswerIds(front)| + i, CallCount(front) + i; var late := own - Waiting(front);
      && j < |AnswerIds(ms)| && own < CallCount(ms)
      && (AnswerIds(ms)[j] == CallIds(ms)[own]
          <==> Waiting(front) == Served(ms[..PlaceOf(ms, own)]) - Served(ms[..PlaceOf(ms, late)]))
  {
    hide AnswerIds, Served, CallCount, CallIds, PlaceOf, CallsHaveNoIds;
    var own := CallCount(ms[..q]) + i;
    UnansweredCallsShiftIds(ms, q, i);
    SameIdIff(ms, own - Waiting(ms[..q]), own);
  }

  /** Two calls, one of them answered, and a third: the second and the third both wait as toolu_2. */
  lemma PartlyAnsweredTurnsCollide(x: NativeCall, y: NativeCall, z: NativeCall)
    requires x.id == "" && y.id == "" && z.id == ""
    ensures var ms := [Native("assistant", "", [], [x, y], "", ""), Native("tool", "", [], [], "", ""), Native("assistant", "", [], [z], "", "")];
      CallCount(ms) == 3 && Served(ms) == 1 && CallIds(ms)[1] == CallIds(ms)[2] == ToolId(2)
  {
    var a, t, b := Native("assistant", "", [], [x, y], "", ""), Native("tool", "", [], [], "", ""), Native("assistant", "", [], [z], "", "");
    hide IdsOf, ToolId;
    assert [a][..0] == [] && [a, t][..1] == [a] && [a, t, b][..2] == [a, t];
    assert Waiting([a]) == 2 && Waiting([a, t]) == 1;
    assert CallIds([a]) == IdsOf(a.calls, 0) && CallIds([a, t]) == CallIds([a]) + [];
    assert CallIds([a, t, b]) == CallIds([a, t]) + IdsOf(b.calls, 1);
    IdAt(a.calls, 0, 1);
    IdAt(b.calls, 1, 0);
  }

  // ---- results that keep the client's ids ----

  predicate ResultsHaveIds(ms: seq<Native>) { forall p :: 0 <= p < |ms| && ms[p].role == "tool" ==> ms[p].toolCallId != "" }

  lemma {:induction false} KeptIdsTakeNothing(ms: seq<Native>)
    requires ResultsHaveIds(ms)
    ensures Served(ms) == 0
    decreases |ms|
  {
    if ms != [] {
      KeptIdsTakeNothing(ms[..|ms| - 1]);
    }
  }

  /** Then the calls are numbered through, and a result names a call of the output exactly if the client's id is one of those
      numbers - and its own call, the k-th, exactly if it is that call's. */
  lemma KeptIdNamesIff(ms: seq<Native>, p: nat)
    requires CallsHaveNoIds(ms) && ResultsHaveIds(ms) && p < |ms| && ms[p].role == "tool"
    ensures |AnswerIds(ms[..p])| < |AnswerIds(ms)| && AnswerIds(ms)[|AnswerIds(ms[..p])|] == ms[p].toolCallId
    ensures forall k :: 0 <= k < CallCount(ms) ==> CallIds(ms)[k] == ToolId(k + 1)
    ensures ms[p].toolCallId in CallIds(ms) <==> exists n :: 1 <= n <= CallCount(ms) && ms[p].toolCallId == ToolId(n)
  {
    hide CallCount, Served, CallIds, AnswerIds, Numbers, PlaceOf, ToolId, CallsHaveNoIds;
    ResultIdIs(ms, p);
    forall k | 0 <= k < CallCount(ms) ensures CallIds(ms)[k] == ToolId(k + 1) {
      IdIsNumber(ms, k);
      NumberIs(ms, k);
      KeptIdsTakeNothing(ms[..PlaceOf(ms, k)]);
    }
    if exists n :: 1 <= n <= CallCount(ms) && ms[p].toolCallId == ToolId(n) {
      var n :| 1 <= n <= CallCount(ms) && ms[p].toolCallId == ToolId(n);
      assert CallIds(ms)[n - 1] == ms[p].toolCallId;
    }
  }

  // ---- what messages_to_native hands over ----

  predicate AllResultsNamed(h: seq<Message>) {
    forall i, j :: 0 <= i < |h| && h[i].content.Blocks? && 0 <= j < |h[i].content.blocks| && h[i].content.blocks[j].ToolResult? ==>
      h[i].content.blocks[j].id != ""
  }

  /** No id on a call; on a result only in a routing session, and then the client's. */
  predicate Plain(n: Native, keepIds: bool, named: bool) {
    && (forall i :: 0 <= i < |n.calls| ==> n.calls[i].id == "")
    && (n.role == "tool" ==> (!keepIds ==> n.toolCallId == "") && (keepIds && named ==> n.toolCallId != ""))
  }

  predicate PlainAll(ns: seq<Native>, keepIds: bool, named: bool) { forall i :: 0 <= i < |ns| ==> Plain(ns[i], keepIds, named) }

  lemma {:induction false} TurnIsPlain(bs: seq<Block>, role: string, names: map<string, string>, keepIds: bool, named: bool)
    requires named ==> forall j :: 0 <= j < |bs| && bs[j].ToolResult? ==> bs[j].id != ""
    ensures var t := TurnOf(bs, role, names, keepIds);
      t.Some? ==> PlainAll(t.value.results, keepIds, named) && forall i :: 0 <= i < |t.value.calls| ==> t.value.calls[i].id == ""
    decreases |bs|
  {
    if bs != [] {
      TurnIsPlain(bs[..|bs| - 1], role, names, keepIds, named);
    }
  }

  lemma {:induction false} NativeIsPlain(h: seq<Message>, keepIds: bool, named: bool)
    requires named ==> AllResultsNamed(h)
    ensures var p := ConvertedAll(h, keepIds); p.Some? ==> PlainAll(p.value.out, keepIds, named)
    decreases |h|
  {
    if h != [] {
      var front, m := h[..|h| - 1], h[|h| - 1];
      NativeIsPlain(front, keepIds, named);
      var p := ConvertedAll(front, keepIds);
      if p.Some? && m.content.Blocks? {
        TurnIsPlain(m.content.blocks, m.role, p.value.names, keepIds, named);
      }
    }
  }

  /** So a converted history meets the premise on the calls always; without a session that on the results' missing ids, and in a
      session whose results are all named that on their ids. */
  lemma ConvertedHistoriesQualify(h: seq<Message>, keepIds: bool)
    requires ConvertedAll(h, keepIds).Some?
    ensures var ms := ConvertedAll(h, keepIds).value.out;
      && CallsHaveNoIds(ms)
      && (!keepIds ==> forall p :: 0 <= p < |ms| && ms[p].role == "tool" ==> ms[p].toolCallId == "")
      && (keepIds && AllResultsNamed(h) ==> ResultsHaveIds(ms))
  {
    NativeIsPlain(h, keepIds, false);
    NativeIsPlain(h, keepIds, AllResultsNamed(h));
  }
}
