/** Timing of a release: how long the report "starting" survives failing polls (agent/ollamawatch.go), against how long
    apply takes to give the card back (agent/upstream_hold.go). Integer milliseconds. */
module StartGrace {
  import opened Common
  import opened OllamaWatch
  import opened WatchRuns

  /** Poll interval of an OpenAI-compatible upstream. */
  const EVERY: int := 5_000
  const FALLBACK_DRAIN: int := 120_000
  const HOLD_WAIT: int := 30_000

  /** Begin times of successive polls: one goroutine, which waits EVERY after each poll. */
  ghost predicate Spaced(begins: seq<int>) {
    forall i | 0 <= i < |begins| - 1 :: begins[i] + EVERY <= begins[i + 1]
  }

  /** The watcher after these polls, none of which got an answer. */
  function AfterFailures(w: Watch, begins: seq<int>, error: string): Watch {
    if begins == [] then w
    else AfterPoll(AfterFailures(w, begins[..|begins| - 1], error), begins[|begins| - 1], true, Failed(error))
  }

  /** How many of them began when the grace was over. */
  function Late(begins: seq<int>, end: int): (n: nat)
    ensures n <= |begins|
  {
    if begins == [] then 0
    else Late(begins[..|begins| - 1], end) + if begins[|begins| - 1] >= end then 1 else 0
  }

  /** A watcher that just reported the upstream as starting, with its grace ending at `end`. */
  predicate JustReleased(w: Watch, end: int) {
    && !w.held && w.have && w.st.up && w.st.upstreamState.Starting? && w.st.ps == [] && !w.st.serving
    && w.direct.fails == 0 && w.direct.startEnd == Some(end)
  }

  lemma ReleaseStartsGrace(w: Watch, now: int)
    ensures JustReleased(AfterSetHeld(w, false, now), now + 180_000)
  {
  }

  /** The late polls are the last ones. */
  lemma {:induction false} LateAreLast(begins: seq<int>, end: int)
    requires Spaced(begins)
    ensures forall i | 0 <= i < |begins| :: begins[i] >= end <==> i >= |begins| - Late(begins, end)
  {
    if begins != [] {
      var last := |begins| - 1;
      LateAreLast(begins[..last], end);
      if last > 0 {
        assert begins[last - 1] + EVERY <= begins[last];
        assert begins[..last][last - 1] == begins[last - 1];
      }
      forall i | 0 <= i < |begins| ensures begins[i] >= end <==> i >= |begins| - Late(begins, end) {
        if i < last {
          assert begins[..last][i] == begins[i];
        }
      }
    }
  }

  /** Failing polls during the grace change nothing; the third one after it reports the node down. */
  lemma {:induction false} DownAfterThreeLate(w: Watch, end: int, begins: seq<int>, error: string)
    requires JustReleased(w, end) && Spaced(begins)
    ensures var w' := AfterFailures(w, begins, error);
      && (Late(begins, end) < 3 ==> w' == w.(direct := w.direct.(fails := Late(begins, end))))
      && !w'.held && w'.have && w'.direct.startEnd == w.direct.startEnd
      && w'.direct.fails == Late(begins, end)
      && (w'.st.up <==> Late(begins, end) < 3)
  {
    if begins != [] {
      var last := |begins| - 1;
      DownAfterThreeLate(w, end, begins[..last], error);
      LateAreLast(begins, end);
      LateAreLast(begins[..last], end);
    }
  }

  lemma ThreeLateSpan(begins: seq<int>, end: int)
    requires Spaced(begins)
    ensures Late(begins, end) >= 3 ==> begins[|begins| - 1] >= end + 2 * EVERY
  {
    LateAreLast(begins, end);
    if Late(begins, end) >= 3 {
      var n := |begins|;
      assert begins[n - 3] + EVERY <= begins[n - 2] && begins[n - 2] + EVERY <= begins[n - 1];
    }
  }

  /** The polls of any poller that all begin before `until`. */
  ghost predicate PollsBefore(begins: seq<int>, until: int) {
    Spaced(begins) && forall i | 0 <= i < |begins| :: begins[i] < until
  }

  /** Exactly how far the grace reaches: no schedule of failing polls that begin before `until` reports the node down
      if and only if `until` is at most two poll intervals after the grace ends. */
  lemma NeverDownBeforeIff(w: Watch, end: int, until: int, error: string)
    requires JustReleased(w, end)
    ensures (forall begins :: PollsBefore(begins, until) ==> AfterFailures(w, begins, error).st.up)
            <==> until <= end + 2 * EVERY
  {
    if until <= end + 2 * EVERY {
      forall begins | PollsBefore(begins, until) ensures AfterFailures(w, begins, error).st.up {
        DownAfterThreeLate(w, end, begins, error);
        ThreeLateSpan(begins, end);
      }
    } else {
      var begins := [end, end + EVERY, end + 2 * EVERY];
      assert PollsBefore(begins, until);
      LateAreLast(begins, end);
      assert begins[0] >= end;
      DownAfterThreeLate(w, end, begins, error);
    }
  }

  // ---- how long a release takes ----

  /** One look of a waiting loop. */
  datatype Look = Look(t: int, busy: bool)

  /** Looks at most `step` apart, the first one at the start. */
  ghost predicate LooksFrom(looks: seq<Look>, start: int, step: int) {
    && looks != [] && looks[0].t == start
    && forall i | 0 <= i < |looks| - 1 :: looks[i].t < looks[i + 1].t <= looks[i].t + step
  }

  /** upstreamSwitch.drain: true as soon as a look finds no standby request, false at the first look past the deadline. */
  method Drain(looks: seq<Look>, start: int, step: int) returns (drained: bool, end: int)
    requires 0 < step && LooksFrom(looks, start, step) && looks[|looks| - 1].t >= start + FALLBACK_DRAIN
    ensures start <= end < start + 120_000 + step
    ensures exists i :: 0 <= i < |looks| && looks[i].t == end && drained == !looks[i].busy &&
              forall j | 0 <= j < i :: looks[j].busy
    ensures !drained ==> end >= start + 120_000
  {
    var i := 0;
    while true
      invariant 0 <= i < |looks|
      invariant forall j | 0 <= j < i :: looks[j].busy
      invariant start <= looks[i].t < start + FALLBACK_DRAIN + step
      decreases |looks| - i
    {
      if !looks[i].busy {
        return true, looks[i].t;
      }
      if looks[i].t >= start + FALLBACK_DRAIN {
        return false, looks[i].t;
      }
      i := i + 1;
    }
  }

  /** Supervisor.Hold: true as soon as a look before the deadline finds the child stopped. */
  method WaitStopped(looks: seq<Look>, start: int, step: int) returns (stopped: bool, end: int)
    requires 0 < step && LooksFrom(looks, start, step) && looks[|looks| - 1].t >= start + HOLD_WAIT
    ensures start <= end < start + 30_000 + step
    ensures stopped <==> exists i :: 0 <= i < |looks| && looks[i].t < start + 30_000 && !looks[i].busy
    ensures !stopped ==> end >= start + 30_000
  {
    var i := 0;
    while looks[i].t < start + HOLD_WAIT
      invariant 0 <= i < |looks|
      invariant forall j | 0 <= j < i :: looks[j].busy
      invariant start <= looks[i].t < start + HOLD_WAIT + step
      decreases |looks| - i
    {
      if !looks[i].busy {
        return true, looks[i].t;
      }
      i := i + 1;
    }
    LooksRise(looks, start, step, i);
    return false, looks[i].t;
  }

  lemma LooksRise(looks: seq<Look>, start: int, step: int, i: nat)
    requires LooksFrom(looks, start, step) && i < |looks|
    ensures forall j | i <= j < |looks| :: looks[i].t <= looks[j].t
    decreases |looks| - i
  {
    if i + 1 < |looks| {
      LooksRise(looks, start, step, i + 1);
    }
  }

  /** A release whose order was stamped `ordered` and ran from `began` on, drained until `drained` and stopped the standby
      until `stopped`, when the report is renewed: no failing poll between the order and the end of the renewed grace reports the
      node down, provided the order did not wait too long for the lock. */
  lemma ReleaseNeverReportsDown(w: Watch, ordered: int, began: int, drained: int, stopped: int, step: int,
                                before: seq<int>, after: seq<int>, error: string)
    requires 0 < step && ordered <= began
    requires drained < began + FALLBACK_DRAIN + step && stopped < drained + HOLD_WAIT + step
    requires began - ordered <= UPSTREAM_START_GRACE + 2 * EVERY - FALLBACK_DRAIN - HOLD_WAIT - 2 * step
    requires PollsBefore(before, stopped) && PollsBefore(after, stopped + UPSTREAM_START_GRACE + 2 * EVERY)
    ensures var draining := AfterFailures(AfterSetHeld(w, false, ordered), before, error);
      && draining.st.up && draining.st.upstreamState.Starting?
      && var renewed := AfterFailures(AfterSetHeld(draining, false, stopped), after, error);
      renewed.st.up && renewed.st.upstreamState.Starting?
  {
    var end := ordered + UPSTREAM_START_GRACE;
    ReleaseStartsGrace(w, ordered);
    DownAfterThreeLate(AfterSetHeld(w, false, ordered), end, before, error);
    ThreeLateSpan(before, end);
    var draining := AfterFailures(AfterSetHeld(w, false, ordered), before, error);
    ReleaseStartsGrace(draining, stopped);
    DownAfterThreeLate(AfterSetHeld(draining, false, stopped), stopped + UPSTREAM_START_GRACE, after, error);
    ThreeLateSpan(after, stopped + UPSTREAM_START_GRACE);
  }

  /** The stamp is taken when the order arrives, not when it gets the lock. A release queued for 60 s behind another
      order, whose drain and stop take their full time, can report the node down although nothing is wrong. */
  lemma QueuedReleaseCanReportDown(w: Watch, ordered: int, error: string)
    ensures exists begins :: PollsBefore(begins, ordered + 60_000 + FALLBACK_DRAIN + HOLD_WAIT) &&
              !AfterFailures(AfterSetHeld(w, false, ordered), begins, error).st.up
  {
    ReleaseStartsGrace(w, ordered);
    NeverDownBeforeIff(AfterSetHeld(w, false, ordered), ordered + UPSTREAM_START_GRACE,
                       ordered + 60_000 + FALLBACK_DRAIN + HOLD_WAIT, error);
  }

  /** Without a standby the report is not renewed: three minutes from the upstream's start are covered if and only if the
      start came at most two polls after the order was stamped. */
  lemma UnrenewedGraceIff(w: Watch, ordered: int, started: int, error: string)
    ensures (forall begins :: PollsBefore(begins, started + UPSTREAM_START_GRACE) ==>
               AfterFailures(AfterSetHeld(w, false, ordered), begins, error).st.up)
            <==> started - ordered <= 2 * EVERY
  {
    ReleaseStartsGrace(w, ordered);
    NeverDownBeforeIff(AfterSetHeld(w, false, ordered), ordered + UPSTREAM_START_GRACE,
                       started + UPSTREAM_START_GRACE, error);
  }
}
