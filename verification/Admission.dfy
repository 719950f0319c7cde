/** router/skirnir_router/admission.py: the priority queue with aging in front of a full node. Times are reals. */
module Admission {
  import opened Common

  /** A request as the queue knows it; it keeps its first queueing time when it comes back after a recheck. */
  datatype Request = Request(id: nat, prio: nat, tEnq: real)

  /** An entry of WAITING: on which node, for which model ("" = none), and whether its future is done. */
  datatype Waiter = Waiter(req: Request, node: string, model: string, woken: bool)

  /** What release() can see of a node: running requests and limits (0 = none), in all and per model. */
  datatype Node = Node(name: string, inflight: nat, maxInflight: nat, running: map<string, nat>, maxParallel: map<string, nat>)

  predicate Saturated(n: Node, model: string) {
    n.inflight >= n.maxInflight
    || (var limit := if model != "" && model in n.maxParallel then n.maxParallel[model] else 0;
        limit > 0 && (if model in n.running then n.running[model] else 0) >= limit)
  }

  datatype Key = Key(rank: real, tEnq: real)

  /** interactive = 0, normal = 1, batch = 2; one class up for every `aging` seconds of waiting. */
  function RankKey(r: Request, now: real, aging: real): Key
    requires aging > 0.0
  {
    Key(r.prio as real - (now - r.tEnq) / aging, r.tEnq)
  }

  predicate Less(a: Key, b: Key) { a.rank < b.rank || (a.rank == b.rank && a.tEnq < b.tEnq) }

  predicate Candidate(w: Waiter, n: Node) { w.node == n.name && !w.woken && !Saturated(n, w.model) }

  /** The place of the best candidate: min() takes the first of equals. */
  predicate IsBest(ws: seq<Waiter>, n: Node, now: real, aging: real, i: nat)
    requires aging > 0.0
  {
    && i < |ws| && Candidate(ws[i], n)
    && (forall k :: 0 <= k < |ws| && Candidate(ws[k], n) ==>
      !Less(RankKey(ws[k].req, now, aging), RankKey(ws[i].req, now, aging)))
    && (forall k :: 0 <= k < i && Candidate(ws[k], n) ==>
      Less(RankKey(ws[i].req, now, aging), RankKey(ws[k].req, now, aging)))
  }

  predicate NoCandidate(ws: seq<Waiter>, n: Node) { forall k :: 0 <= k < |ws| ==> !Candidate(ws[k], n) }

  function Without(ws: seq<Waiter>, id: nat): seq<Waiter>
    decreases |ws|
  {
    if ws == [] then [] else if ws[0].req.id == id then ws[1..] else [ws[0]] + Without(ws[1..], id)
  }

  class Queue {
    const aging: real
    const maxQueue: nat
    var waiting: seq<Waiter>

    constructor (aging: real, maxQueue: nat)
      requires aging > 0.0
      ensures this.aging == aging && this.maxQueue == maxQueue && waiting == []
    {
      this.aging, this.maxQueue := aging, maxQueue;
      waiting := [];
    }

    /** The beginning of wait_for_slot; false is the 503 of a full queue. */
    method Enter(w: Waiter) returns (queued: bool)
      modifies this
      ensures queued <==> |old(waiting)| < maxQueue
      ensures waiting == if queued then old(waiting) + [w] else old(waiting)
    {
      if |waiting| >= maxQueue {
        return false;
      }
      waiting := waiting + [w];
      return true;
    }

    /** The end of wait_for_slot, woken or not. */
    method Leave(id: nat)
      modifies this
      ensures waiting == Without(old(waiting), id)
    {
      hide Without;
      ghost var ws := waiting;
      var i := 0;
      while i < |waiting| && waiting[i].req.id != id
        invariant i <= |waiting| && waiting == ws
        invariant Without(ws, id) == ws[..i] + Without(ws[i..], id)
      {
        WithoutAt(ws, id, i);
        i := i + 1;
      }
      WithoutAt(ws, id, i);
      if i < |waiting| {
        waiting := waiting[..i] + waiting[i + 1..];
      }
    }

    method Release(n: Node, now: real) returns (best: Option<nat>)
      requires aging > 0.0
      modifies this
      ensures best.None? ==> NoCandidate(old(waiting), n) && waiting == old(waiting)
      ensures best.Some? ==> IsBest(old(waiting), n, now, aging, best.value) && waiting == Woken(old(waiting), best.value)
    {
      hide Candidate, Less, RankKey;
      best := None;
      for i := 0 to |waiting|
        invariant waiting == old(waiting)
        invariant best.None? ==> NoCandidate(waiting[..i], n)
        invariant best.Some? ==> best.value < i && IsBest(waiting[..i], n, now, aging, best.value)
      {
        var w := waiting[i];
        if Candidate(w, n) {
          if best.None? || Less(RankKey(w.req, now, aging), RankKey(waiting[best.value].req, now, aging)) {
            NewBest(waiting, n, now, aging, i, best);
            best := Some(i);
          } else {
            assert forall k :: 0 <= k < i + 1 ==> waiting[..i + 1][k] == waiting[k];
          }
        }
      }
      assert waiting[..|waiting|] == waiting;
      if best.Some? {
        waiting := Woken(waiting, best.value);
      }
    }
  }

  lemma WithoutAt(ws: seq<Waiter>, id: nat, i: nat)
    requires i <= |ws|
    ensures i < |ws| && ws[i].req.id != id ==> ws[..i] + Without(ws[i..], id) == ws[..i + 1] + Without(ws[i + 1..], id)
    ensures i < |ws| && ws[i].req.id == id ==> ws[..i] + Without(ws[i..], id) == ws[..i] + ws[i + 1..]
    ensures i == |ws| ==> ws[..i] + Without(ws[i..], id) == ws
  {
    if i < |ws| {
      assert ws[i..][1..] == ws[i + 1..];
      assert ws[..i] + [ws[i]] == ws[..i + 1];
      assert ws[i..] != [] && ws[i..][0] == ws[i];
    }
  }

  function Woken(ws: seq<Waiter>, i: nat): seq<Waiter>
    requires i < |ws|
  {
    ws[i := ws[i].(woken := true)]
  }

  lemma NewBest(ws: seq<Waiter>, n: Node, now: real, aging: real, i: nat, best: Option<nat>)
    requires aging > 0.0 && i < |ws| && Candidate(ws[i], n)
    requires best.None? ==> NoCandidate(ws[..i], n)
    requires best.Some? ==> best.value < i && IsBest(ws[..i], n, now, aging, best.value)
    requires best.Some? ==> Less(RankKey(ws[i].req, now, aging), RankKey(ws[best.value].req, now, aging))
    ensures IsBest(ws[..i + 1], n, now, aging, i)
  {
  }

  // ---- who may be woken ----

  /** The node takes one more request of this model: it stays within its own limit and within the model's, if it has one. */
  predicate HasRoom(n: Node, model: string) {
    && n.inflight + 1 <= n.maxInflight
    && (model != "" && model in n.maxParallel && n.maxParallel[model] > 0 ==>
          (if model in n.running then n.running[model] else 0) + 1 <= n.maxParallel[model])
  }

  /** Whoever is woken waited on this node and was not woken yet, and the node has room for it. */
  lemma WokenHasRoom(ws: seq<Waiter>, n: Node, now: real, aging: real, i: nat)
    requires aging > 0.0 && IsBest(ws, n, now, aging, i)
    ensures ws[i].node == n.name && !ws[i].woken && HasRoom(n, ws[i].model)
  {
  }

  /** Nobody is woken exactly if the node has no room for any of those who wait on it. */
  lemma NobodyFitsIff(ws: seq<Waiter>, n: Node)
    ensures NoCandidate(ws, n) <==> forall k :: 0 <= k < |ws| && ws[k].node == n.name && !ws[k].woken ==> !HasRoom(n, ws[k].model)
  {
  }

  // ---- the order does not depend on the clock ----

  /** The time at which an interactive request would have had to come to rank the same. */
  function Score(r: Request, aging: real): real { r.prio as real * aging + r.tEnq }

  predicate Ahead(a: Request, b: Request, aging: real) {
    Score(a, aging) < Score(b, aging) || (Score(a, aging) == Score(b, aging) && a.tEnq < b.tEnq)
  }

  /** Waiting makes everybody older at the same pace: at every time the queue is in the same order. */
  lemma OrderIgnoresClock(a: Request, b: Request, now: real, aging: real)
    requires aging > 0.0
    ensures Less(RankKey(a, now, aging), RankKey(b, now, aging)) <==> Ahead(a, b, aging)
  {
  }

  /** Whoever came later and still gets ahead came less than the difference in priority times the aging time later. */
  lemma OvertakingIsBounded(late: Request, early: Request, aging: real)
    requires aging > 0.0 && early.tEnq < late.tEnq && Ahead(late, early, aging)
    ensures late.prio < early.prio
    ensures late.tEnq - early.tEnq < (early.prio - late.prio) as real * aging
  {
  }

  lemma ClassTimesAging(p: nat, q: nat, aging: real)
    requires aging > 0.0
    ensures p <= q ==> p as real * aging <= q as real * aging
  {
  }

  /** With three classes: two aging times after a request came, the set ahead of it is closed. */
  lemma NewcomersStayBehind(late: Request, early: Request, aging: real)
    requires aging > 0.0 && early.prio <= 2
    requires late.tEnq >= early.tEnq + 2.0 * aging
    ensures Ahead(early, late, aging)
  {
    ClassTimesAging(early.prio, 2, aging);
    ClassTimesAging(0, late.prio, aging);
  }
}
