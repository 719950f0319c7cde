/** Whole runs of the admission queue: its bound, what a release achieves for a waiter, and bounded overtaking. */
module AdmissionRuns {
  import opened Common
  import opened Admission

  datatype Config = Config(aging: real, maxQueue: nat)

  predicate Sound(c: Config) { c.aging > 0.0 }

  /** The three things that happen to WAITING; a release names the place it wakes. */
  datatype Event = Enter(w: Waiter) | Leave(id: nat) | Release(n: Node, now: real, best: Option<nat>)

  predicate Unique(ws: seq<Waiter>) { forall i, k :: 0 <= i < k < |ws| ==> ws[i].req.id != ws[k].req.id }

  predicate Absent(ws: seq<Waiter>, id: nat) { forall i :: 0 <= i < |ws| ==> ws[i].req.id != id }

  predicate Step(c: Config, ws: seq<Waiter>, e: Event, next: seq<Waiter>)
    requires Sound(c)
  {
    match e
    case Enter(w) => !w.woken && Absent(ws, w.req.id) && next == if |ws| < c.maxQueue then ws + [w] else ws
    case Leave(id) => next == Without(ws, id)
    case Release(n, now, None) => NoCandidate(ws, n) && next == ws
    case Release(n, now, Some(i)) => IsBest(ws, n, now, c.aging, i) && next == Woken(ws, i)
  }

  predicate IsRun(c: Config, states: seq<seq<Waiter>>, es: seq<Event>)
    requires Sound(c)
  {
    && |states| == |es| + 1 && states[0] == []
    && forall k :: 0 <= k < |es| ==> Step(c, states[k], es[k], states[k + 1])
  }

  // ---- the bound and the identity of the waiters ----

  lemma {:induction false} WithoutShrinks(ws: seq<Waiter>, id: nat, other: nat)
    ensures |Without(ws, id)| <= |ws|
    ensures Absent(ws, other) ==> Absent(Without(ws, id), other)
    decreases |ws|
  {
    if ws != [] {
      WithoutShrinks(ws[1..], id, other);
      assert Absent(ws, other) ==> Absent(ws[1..], other);
    }
  }

  lemma {:induction false} WithoutKeeps(ws: seq<Waiter>, id: nat)
    requires Unique(ws)
    ensures Unique(Without(ws, id))
    decreases |ws|
  {
    if ws != [] {
      var first, tail := ws[0], ws[1..];
      assert Unique(tail) && Absent(tail, first.req.id) by {
        assert forall i :: 0 <= i < |tail| ==> tail[i] == ws[i + 1];
      }
      if first.req.id != id {
        WithoutKeeps(tail, id);
        WithoutShrinks(tail, id, first.req.id);
        UniqueCons(first, Without(tail, id));
      }
    }
  }

  lemma UniqueCons(w: Waiter, ws: seq<Waiter>)
    requires Unique(ws) && Absent(ws, w.req.id)
    ensures Unique([w] + ws)
  {
  }

  predicate Inv(c: Config, ws: seq<Waiter>) { |ws| <= c.maxQueue && Unique(ws) }

  lemma StepKeepsInv(c: Config, ws: seq<Waiter>, e: Event, next: seq<Waiter>)
    requires Sound(c) && Inv(c, ws) && Step(c, ws, e, next)
    ensures Inv(c, next)
  {
    if e.Leave? {
      WithoutKeeps(ws, e.id);
      WithoutShrinks(ws, e.id, e.id);
    }
  }

  /** At every moment of every run the queue holds at most max_queue entries, each for another request. */
  lemma {:induction false} QueueIsBounded(c: Config, states: seq<seq<Waiter>>, es: seq<Event>, k: nat)
    requires Sound(c) && IsRun(c, states, es) && k <= |es|
    ensures Inv(c, states[k])
  {
    if k > 0 {
      QueueIsBounded(c, states, es, k - 1);
      StepKeepsInv(c, states[k - 1], es[k - 1], states[k]);
    }
  }

  // ---- what a release achieves ----

  /** Waiting for a slot like a, and not behind it. */
  function Rivals(c: Config, ws: seq<Waiter>, a: Request): set<Request> {
    set w | w in ws && !w.woken && w.req != a && !Ahead(a, w.req, c.aging) :: w.req
  }

  predicate Eligible(ws: seq<Waiter>, n: Node, a: Request) { exists i :: 0 <= i < |ws| && ws[i].req == a && Candidate(ws[i], n) }

  /** A release for which a waiter is eligible wakes it, or else removes one of those that are not behind it. */
  lemma EligibleReleaseHelps(c: Config, ws: seq<Waiter>, n: Node, now: real, best: Option<nat>, next: seq<Waiter>, a: Request)
    requires Sound(c) && Unique(ws) && Step(c, ws, Release(n, now, best), next) && Eligible(ws, n, a)
    ensures best.Some? && best.value < |ws|
    ensures var woken := ws[best.value].req;
      woken == a || (woken in Rivals(c, ws, a) && Rivals(c, next, a) == Rivals(c, ws, a) - {woken})
  {
    hide RankKey, Less, Saturated;
    var i :| 0 <= i < |ws| && ws[i].req == a && Candidate(ws[i], n);
    assert best.Some?;
    var b := best.value;
    var woken := ws[b].req;
    OrderIgnoresClock(a, woken, now, c.aging);
    if woken != a {
      assert ws[b] in ws;
      forall r ensures r in Rivals(c, next, a) <==> r in Rivals(c, ws, a) && r != woken {
        RivalsAfter(c, ws, b, a, r);
      }
    }
  }

  lemma RivalsAfter(c: Config, ws: seq<Waiter>, b: nat, a: Request, r: Request)
    requires Unique(ws) && b < |ws|
    ensures r in Rivals(c, Woken(ws, b), a) <==> r in Rivals(c, ws, a) && r != ws[b].req
  {
    hide Ahead;
    var next := Woken(ws, b);
    if r in Rivals(c, next, a) {
      var k :| 0 <= k < |next| && !next[k].woken && next[k].req == r && r != a && !Ahead(a, r, c.aging);
      assert ws[k] in ws;
    }
    if r in Rivals(c, ws, a) && r != ws[b].req {
      var k :| 0 <= k < |ws| && !ws[k].woken && ws[k].req == r && r != a && !Ahead(a, r, c.aging);
      assert next[k] in next;
    }
  }

  /** Two aging times after a request came, no new request joins those that are not behind it. */
  lemma RivalsStopGrowing(c: Config, ws: seq<Waiter>, w: Waiter, next: seq<Waiter>, a: Request)
    requires Sound(c) && Step(c, ws, Enter(w), next) && a.prio <= 2
    requires w.req.tEnq >= a.tEnq + 2.0 * c.aging
    ensures Rivals(c, next, a) == Rivals(c, ws, a)
  {
  }

  // ---- whole runs: bounded overtaking ----

  predicate Wakes(states: seq<seq<Waiter>>, es: seq<Event>, k: nat)
    requires |states| == |es| + 1 && k < |es|
  {
    es[k].Release? && es[k].best.Some? && es[k].best.value < |states[k]|
  }

  function WokenAt(states: seq<seq<Waiter>>, es: seq<Event>, k: nat): Request
    requires |states| == |es| + 1 && k < |es| && Wakes(states, es, k)
  {
    states[k][es[k].best.value].req
  }

  /** A release a was eligible for, but that woke somebody else. */
  predicate Missed(states: seq<seq<Waiter>>, es: seq<Event>, k: nat, a: Request)
    requires |states| == |es| + 1 && k < |es|
  {
    es[k].Release? && Eligible(states[k], es[k].n, a) && !(Wakes(states, es, k) && WokenAt(states, es, k) == a)
  }

  /** The steps at which this request is woken: again each time it found the node full after all and queued anew. */
  function WakingsOf(states: seq<seq<Waiter>>, es: seq<Event>, r: Request): set<nat>
    requires |states| == |es| + 1
  {
    set k: nat | k < |es| && Wakes(states, es, k) && WokenAt(states, es, k) == r
  }

  lemma MissWakesRival(c: Config, states: seq<seq<Waiter>>, es: seq<Event>, k: nat, a: Request)
    requires Sound(c) && IsRun(c, states, es) && k < |es| && Missed(states, es, k, a)
    ensures Wakes(states, es, k)
    ensures var r := WokenAt(states, es, k); r != a && r in Rivals(c, states[k], a)
  {
    hide Rivals, Eligible, Candidate, RankKey, Unique, Absent;
    QueueIsBounded(c, states, es, k);
    EligibleReleaseHelps(c, states[k], es[k].n, es[k].now, es[k].best, states[k + 1], a);
  }

  lemma {:induction false} WakesByRival(states: seq<seq<Waiter>>, es: seq<Event>, steps: set<nat>, rivals: set<Request>, times: nat)
    requires |states| == |es| + 1
    requires forall r :: r in rivals ==> |WakingsOf(states, es, r)| <= times
    requires forall k :: k in steps ==> k < |es| && Wakes(states, es, k) && WokenAt(states, es, k) in rivals
    ensures |steps| <= times * |rivals|
    decreases |rivals|
  {
    hide Wakes, WokenAt;
    if rivals == {} {
      assert steps == {};
    } else {
      var r := Pick(rivals);
      var its := WakingsOf(states, es, r);
      WakesByRival(states, es, steps - its, rivals - {r}, times);
      SizeOfParts(steps, its);
      OneMore(times, |rivals - {r}|);
    }
  }

  lemma OneMore(times: nat, n: nat)
    ensures times * (n + 1) == times * n + times
  {
  }

  lemma SizeOfParts<T>(all: set<T>, part: set<T>)
    ensures |all| <= |all - part| + |part|
  {
    assert all == (all - part) + (all * part);
    assert part == (part - all) + (all * part);
  }

  /** A request is passed over by a release it was eligible for only when a rival is woken, and every rival came before two aging
      times had passed since it came; so if no rival is woken more than `times` times, it is passed over at most `times` times for
      each of them. */
  lemma BoundedOvertaking(c: Config, states: seq<seq<Waiter>>, es: seq<Event>, a: Request, steps: set<nat>, rivals: set<Request>,
                          times: nat)
    requires Sound(c) && IsRun(c, states, es) && a.prio <= 2
    requires forall k :: k in steps ==> k < |es| && Missed(states, es, k, a)
    requires forall k, r :: 0 <= k < |es| && r in Rivals(c, states[k], a) ==> r in rivals
    requires forall r :: r in rivals ==> |WakingsOf(states, es, r)| <= times
    ensures |steps| <= times * |rivals|
    ensures forall k, r :: 0 <= k < |es| && r in Rivals(c, states[k], a) ==> r.tEnq < a.tEnq + 2.0 * c.aging
  {
    assert |states| == |es| + 1;
    hide Missed, Wakes, IsRun, WakingsOf;
    forall k | k in steps ensures Wakes(states, es, k) && WokenAt(states, es, k) in rivals {
      MissWakesRival(c, states, es, k, a);
    }
    WakesByRival(states, es, steps, rivals, times);
    forall k, r | 0 <= k < |es| && r in Rivals(c, states[k], a) ensures r.tEnq < a.tEnq + 2.0 * c.aging {
      if r.tEnq >= a.tEnq + 2.0 * c.aging {
        NewcomersStayBehind(r, a, c.aging);
      }
    }
  }
}
