/** router/skirnir_router/auth.py: the sliding-window rate limit of client_auth_middleware. Clock readings are reals. */
module RateWindow {
  import opened Common

  const WINDOW: real := 60.0

  /** The readings that are left once everything before the cutoff has gone from the front. */
  function Kept(rec: seq<real>, cutoff: real): seq<real>
    decreases |rec|
  {
    if rec != [] && rec[0] < cutoff then Kept(rec[1..], cutoff) else rec
  }

  /** The deque after one attempt; refused attempts stay in it. */
  function After(rec: seq<real>, now: real): seq<real> { Kept(rec + [now], now - WINDOW) }

  class Client {
    var recent: seq<real>
    var rateLimited: nat

    constructor ()
      ensures recent == [] && rateLimited == 0
    {
      recent, rateLimited := [], 0;
    }

    /** A limit of 0 is no limit: the deque is not even touched. */
    method Check(now: real, rpm: nat) returns (pass: bool)
      modifies this
      ensures recent == if rpm == 0 then old(recent) else After(old(recent), now)
      ensures pass <==> rpm == 0 || |recent| <= rpm
      ensures rateLimited == old(rateLimited) + if pass then 0 else 1
    {
      if rpm == 0 {
        return true;
      }
      recent := recent + [now];
      while recent != [] && recent[0] < now - WINDOW
        invariant rateLimited == old(rateLimited)
        invariant Kept(recent, now - WINDOW) == After(old(recent), now)
        decreases |recent|
      {
        recent := recent[1..];
      }
      assert recent == Kept(recent, now - WINDOW);
      if |recent| > rpm {
        rateLimited := rateLimited + 1;
        return false;
      }
      return true;
    }
  }

  // ---- whole runs of one client ----

  predicate Monotone(ts: seq<real>) { forall i, j :: 0 <= i <= j < |ts| ==> ts[i] <= ts[j] }

  /** The deque after attempts at these times. */
  function Recent(ts: seq<real>): seq<real>
    decreases |ts|
  {
    if ts == [] then [] else After(Recent(ts[..|ts| - 1]), ts[|ts| - 1])
  }

  predicate Passes(ts: seq<real>, k: nat, n: nat)
    requires k < |ts|
  {
    |Recent(ts[..k + 1])| <= n
  }

  /** The readings at or after the cutoff are those from this place on. */
  predicate Splits(ts: seq<real>, cutoff: real, from: int) {
    0 <= from <= |ts| && forall i :: 0 <= i < |ts| ==> (ts[i] >= cutoff <==> i >= from)
  }

  lemma {:induction false} KeptIsSuffix(rec: seq<real>, cutoff: real)
    requires Monotone(rec)
    ensures var from := |rec| - |Kept(rec, cutoff)|; Splits(rec, cutoff, from) && Kept(rec, cutoff) == rec[from..]
    decreases |rec|
  {
    if rec != [] && rec[0] < cutoff {
      KeptIsSuffix(rec[1..], cutoff);
      assert forall i :: 1 <= i < |rec| ==> rec[i] == rec[1..][i - 1];
    } else if rec != [] {
      assert forall i :: 0 <= i < |rec| ==> rec[0] <= rec[i];
    }
  }

  lemma RecentKept(ts: seq<real>, before: nat)
    requires ts != [] && before < |ts| && Recent(ts[..|ts| - 1]) == ts[before..|ts| - 1]
    ensures Recent(ts) == Kept(ts[before..], ts[|ts| - 1] - WINDOW)
  {
    RecentLast(ts);
    hide *;
    SliceLast(ts, before);
  }

  lemma RecentLast(ts: seq<real>)
    requires ts != []
    ensures Recent(ts) == Kept(Recent(ts[..|ts| - 1]) + [ts[|ts| - 1]], ts[|ts| - 1] - WINDOW)
  {
  }

  lemma SliceLast<T>(ts: seq<T>, low: nat)
    requires low < |ts|
    ensures ts[low..|ts| - 1] + [ts[|ts| - 1]] == ts[low..]
  {
  }

  /** Earlier attempts are all older; later ones are where the end of the list says. */
  lemma SplitLater(ts: seq<real>, early: real, cutoff: real, before: nat, from: int)
    requires before < |ts| && early <= cutoff
    requires Splits(ts[..|ts| - 1], early, before) && Splits(ts[before..], cutoff, from)
    ensures Splits(ts, cutoff, before + from)
  {
  }

  lemma MonotoneSuffix(ts: seq<real>, a: nat)
    requires Monotone(ts) && a <= |ts|
    ensures Monotone(ts[a..]) && Monotone(ts[..a])
  {
  }

  lemma SuffixOfSuffix(ts: seq<real>, a: nat, b: nat)
    requires a + b <= |ts|
    ensures ts[a..][b..] == ts[a + b..]
  {
  }

  lemma RecentStep(ts: seq<real>, early: real, before: nat)
    requires Monotone(ts) && ts != [] && before < |ts| && early <= ts[|ts| - 1] - WINDOW
    requires Splits(ts[..|ts| - 1], early, before) && Recent(ts[..|ts| - 1]) == ts[before..|ts| - 1]
    ensures var from := |ts| - |Recent(ts)|; Splits(ts, ts[|ts| - 1] - WINDOW, from) && Recent(ts) == ts[from..]
  {
    var rec, cutoff := ts[before..], ts[|ts| - 1] - WINDOW;
    RecentKept(ts, before);
    MonotoneSuffix(ts, before);
    hide Monotone, Recent, Kept;
    KeptIsSuffix(rec, cutoff);
    var from := |rec| - |Kept(rec, cutoff)|;
    SplitLater(ts, early, cutoff, before, from);
    hide Splits;
    SuffixOfSuffix(ts, before, from);
  }

  /** The deque holds exactly the attempts of the last 60 seconds, the boundary included. */
  lemma {:induction false} RecentIsWindow(ts: seq<real>)
    requires Monotone(ts) && ts != []
    ensures var from := |ts| - |Recent(ts)|; Splits(ts, ts[|ts| - 1] - 60.0, from) && Recent(ts) == ts[from..]
    decreases |ts|
  {
    var n := |ts| - 1;
    var front := ts[..n];
    var cutoff := ts[n] - WINDOW;
    if n > 0 {
      assert ts[n - 1] <= ts[n];
      MonotoneSuffix(ts, n);
      RecentIsWindow(front);
      hide *;
      var before := n - |Recent(front)|;
      assert front[before..] == ts[before..n];
      RecentStep(ts, front[n - 1] - WINDOW, before);
    } else {
      assert Splits(front, cutoff, 0);
      RecentStep(ts, cutoff, 0);
    }
  }

  /** low, ..., high - 1. */
  ghost function Interval(low: int, high: int): (s: set<int>)
    requires low <= high
    ensures |s| == high - low && (forall i :: i in s <==> low <= i < high)
    decreases high - low
  {
    if low == high then {} else Interval(low, high - 1) + {high - 1}
  }

  lemma {:induction false} SubsetSize<T>(a: set<T>, b: set<T>)
    requires a <= b
    ensures |a| <= |b|
    decreases |a|
  {
    if a != {} {
      var x :| x in a;
      SubsetSize(a - {x}, b - {x});
    }
  }

  lemma {:induction false} LastOf(s: set<int>) returns (last: int)
    requires s != {}
    ensures last in s && forall j :: j in s ==> j <= last
    decreases |s|
  {
    var x := Pick(s);
    var rest := s - {x};
    assert s == rest + {x};
    last := x;
    if rest != {} {
      var y := LastOf(rest);
      last := if x < y then y else x;
    }
  }

  /** The attempts so far within the last 60 seconds, refused ones included. */
  ghost function Attempts(ts: seq<real>, k: nat): set<int>
    requires k < |ts|
  {
    set i | 0 <= i <= k && ts[i] >= ts[k] - 60.0
  }

  lemma AttemptsAreRecent(ts: seq<real>, k: nat)
    requires Monotone(ts) && k < |ts|
    ensures |Attempts(ts, k)| == |Recent(ts[..k + 1])|
  {
    var upTo := ts[..k + 1];
    RecentIsWindow(upTo);
    var from := k + 1 - |Recent(upTo)|;
    assert forall i :: 0 <= i <= k ==> upTo[i] == ts[i];
    assert Attempts(ts, k) == Interval(from, k + 1);
  }

  /** A request passes exactly if it and the attempts of the 60 seconds before it, passed or refused, are at most n. */
  lemma PassIff(ts: seq<real>, k: nat, n: nat)
    requires Monotone(ts) && k < |ts|
    ensures Passes(ts, k, n) <==> |Attempts(ts, k)| <= n
  {
    AttemptsAreRecent(ts, k);
  }

  /** Attempts, by their number, in the closed window from `start`. */
  ghost predicate MadeWithin(ts: seq<real>, start: real, tried: set<int>) {
    forall k :: k in tried ==> 0 <= k < |ts| && start <= ts[k] <= start + 60.0
  }

  /** In no closed 60-second window do more than n requests pass. */
  lemma WindowBound(ts: seq<real>, n: nat, start: real, passed: set<int>)
    requires Monotone(ts)
    requires MadeWithin(ts, start, passed) && forall k :: k in passed ==> Passes(ts, k, n)
    ensures |passed| <= n
  {
    if passed != {} {
      var last := LastOf(passed);
      PassIff(ts, last, n);
      assert passed <= Attempts(ts, last);
      SubsetSize(passed, Attempts(ts, last));
    }
  }

  /** A client that never makes more than n attempts in 60 seconds is never refused. */
  lemma CalmIsNeverRefused(ts: seq<real>, n: nat)
    requires Monotone(ts)
    requires forall start: real, tried: set<int> :: MadeWithin(ts, start, tried) ==> |tried| <= n
    ensures forall k :: 0 <= k < |ts| ==> Passes(ts, k, n)
  {
    forall k | 0 <= k < |ts| ensures Passes(ts, k, n) {
      PassIff(ts, k, n);
      var start := ts[k] - WINDOW;
      var tried := Attempts(ts, k);
      assert MadeWithin(ts, start, tried);
    }
  }

  /** Refused attempts count: whoever keeps trying at more than n per minute is refused every time from then on. */
  lemma HammeringIsRefused(ts: seq<real>, n: nat, k: nat)
    requires Monotone(ts) && n <= k < |ts|
    requires ts[k] - ts[k - n] <= 60.0
    ensures !Passes(ts, k, n)
  {
    PassIff(ts, k, n);
    var late := Interval(k - n, k + 1);
    assert late <= Attempts(ts, k);
    SubsetSize(late, Attempts(ts, k));
  }
}
