/**
 How many requests a bucket of the rate limiter admits over time. A fixed window lets a burst through on both
 sides of its edge, so the bound over any window's length is twice the limit, less the one that opened the
 earlier window.
 */
module RateBound {
  import opened Prelude
  import opened RateLimiter

  /** How many of these times lie in [a, b). */
  function CountIn(times: seq<real>, a: real, b: real): nat {
    if times == [] then 0
    else CountIn(times[..|times| - 1], a, b) + if a <= times[|times| - 1] < b then 1 else 0
  }

  lemma CountInPush(times: seq<real>, now: real, a: real, b: real)
    ensures CountIn(times + [now], a, b) == CountIn(times, a, b) + if a <= now < b then 1 else 0
  {
    assert (times + [now])[..|times + [now]| - 1] == times;
  }

  lemma {:induction false} CountInWithin(times: seq<real>, a: real, b: real, c: real, d: real)
    requires forall t <- times :: a <= t < b ==> c <= t < d
    ensures CountIn(times, a, b) <= CountIn(times, c, d)
  {
    if times != [] {
      var n := |times| - 1;
      assert times == times[..n] + [times[n]];
      assert forall t <- times[..n] :: t in times;
      assert times[n] in times;
      CountInWithin(times[..n], a, b, c, d);
    }
  }

  lemma {:induction false} CountInSplit(times: seq<real>, a: real, m: real, b: real)
    requires a <= m <= b
    ensures CountIn(times, a, b) == CountIn(times, a, m) + CountIn(times, m, b)
  {
    if times != [] {
      CountInSplit(times[..|times| - 1], a, m, b);
    }
  }

  /** How many lie in the window's length from a. */
  function CountFrom(times: seq<real>, a: real): nat {
    CountIn(times, a, a + WINDOW_SECONDS)
  }

  /** No half-open interval of a window's length holds more than this many of the times. */
  ghost predicate Bounded(times: seq<real>, most: int) {
    forall a: real :: CountFrom(times, a) <= most
  }

  /**
   A bucket's admissions and its last window: the window opened with an admission and counts exactly those since,
   at most the limit, and fewer than the limit fell into the window's length before it.
   */
  ghost predicate Fair(times: seq<real>, w: Window, limit: int) {
    && (forall t <- times :: t < w.started + WINDOW_SECONDS) && w.started in times
    && CountFrom(times, w.started) == w.count <= limit
    && (forall a: real :: w.started - WINDOW_SECONDS < a <= w.started ==> CountIn(times, a, w.started) < limit)
    && Bounded(times, 2 * limit - 1)
  }

  /** Leaving out the moment of one admission leaves out that admission. */
  lemma {:induction false} CountInLater(times: seq<real>, first: real, a: real, b: real)
    requires first in times && first < a && first < b
    ensures CountIn(times, a, b) < CountIn(times, first, b)
  {
    var n := |times| - 1;
    assert times == times[..n] + [times[n]];
    if times[n] == first {
      CountInWithin(times[..n], a, b, first, b);
    } else {
      CountInLater(times[..n], first, a, b);
    }
  }

  lemma AdmitInWindow(times: seq<real>, w: Window, limit: int, now: real)
    requires Fair(times, w, limit) && w.count < limit && w.started <= now < w.started + WINDOW_SECONDS
    ensures Fair(times + [now], OneMore(w), limit)
  {
    CountInPush(times, now, w.started, w.started + WINDOW_SECONDS);
    forall a: real | w.started - WINDOW_SECONDS < a <= w.started
      ensures CountIn(times + [now], a, w.started) < limit
    {
      CountInPush(times, now, a, w.started);
    }
    forall a: real ensures CountFrom(times + [now], a) <= 2 * limit - 1 {
      BurstInWindow(times, w, limit, now, a);
    }
  }

  lemma BurstInWindow(times: seq<real>, w: Window, limit: int, now: real, a: real)
    requires Fair(times, w, limit) && w.count < limit && w.started <= now < w.started + WINDOW_SECONDS
    ensures CountFrom(times + [now], a) <= 2 * limit - 1
  {
    var b := a + WINDOW_SECONDS;
    assert CountFrom(times, a) <= 2 * limit - 1;
    CountInPush(times, now, a, b);
    if a <= now < b {
      if a <= w.started {
        CountInSplit(times, a, w.started, b);
        CountInWithin(times, w.started, b, w.started, w.started + WINDOW_SECONDS);
      } else {
        CountInWithin(times, a, b, w.started, w.started + WINDOW_SECONDS);
      }
    }
  }

  lemma AdmitAfterRoll(times: seq<real>, w: Window, limit: int, now: real)
    requires Fair(times, w, limit) && limit >= 1 && w.started + WINDOW_SECONDS <= now
    ensures Fair(times + [now], Window(now, 1), limit)
  {
    CountInPush(times, now, now, now + WINDOW_SECONDS);
    NoneFrom(times, now, now + WINDOW_SECONDS);
    forall a: real | now - WINDOW_SECONDS < a <= now ensures CountIn(times + [now], a, now) < limit {
      CountInPush(times, now, a, now);
      FewBeforeRoll(times, w, limit, a, now);
    }
    forall a: real ensures CountFrom(times + [now], a) <= 2 * limit - 1 {
      assert CountFrom(times, a) <= 2 * limit - 1;
      CountInPush(times, now, a, a + WINDOW_SECONDS);
      if a <= now < a + WINDOW_SECONDS {
        FewBeforeRoll(times, w, limit, a, a + WINDOW_SECONDS);
      }
    }
  }

  /** After its window's opening an old window admitted fewer than the limit. */
  lemma FewBeforeRoll(times: seq<real>, w: Window, limit: int, a: real, b: real)
    requires Fair(times, w, limit) && w.started < a
    ensures CountIn(times, a, b) < limit
  {
    CountInWithin(times, a, b, a, w.started + WINDOW_SECONDS);
    CountInLater(times, w.started, a, w.started + WINDOW_SECONDS);
  }

  lemma {:induction false} NoneFrom(times: seq<real>, a: real, b: real)
    requires forall t <- times :: t < a
    ensures CountIn(times, a, b) == 0
  {
    if times != [] {
      var n := |times| - 1;
      assert times == times[..n] + [times[n]];
      assert forall t <- times[..n] :: t in times;
      assert times[n] in times;
      NoneFrom(times[..n], a, b);
    }
  }

  lemma FirstAdmission(limit: int, now: real)
    requires limit >= 1
    ensures Fair([now], Window(now, 1), limit)
  {
    forall a: real, b: real ensures CountIn([now], a, b) <= 1 {
      CountInPush([], now, a, b);
      assert [] + [now] == [now];
    }
    CountInPush([], now, now, now + WINDOW_SECONDS);
    forall a: real ensures CountIn([now], a, now) < limit {
      CountInPush([], now, a, now);
    }
    assert [] + [now] == [now];
  }

  // ---- A run of the guard, with what it admitted

  datatype Arrival = Arrival(request: Request, now: real, later: real)

  /**
   The buckets, and their history: the clock's last reading, when each bucket admitted, the last window each
   had, and the buckets evicted while their window was live.
   */
  datatype Trace = Trace(state: State, clock: real, times: map<string, seq<real>>, last: map<string, Window>,
                         lost: set<string>)

  function TimesOf(t: Trace, key: string): seq<real> {
    if key in t.times then t.times[key] else []
  }

  /** The windows that vanish from one map to another before they rolled. */
  function Cut(before: map<string, Window>, after: map<string, Window>, now: real): set<string> {
    set key | key in before && key !in after && !Rolled(before[key], now)
  }

  function After(t: Trace, x: Arrival, lim: Limits): Trace {
    var (touched, key, w) := Touched(t.state, x.request, lim, x.now);
    var (state, verdict) := Guard(t.state, x.request, lim, x.now, x.later);
    if verdict.Refused? then Trace(state, x.later, t.times, t.last[key := w], t.lost)
    else
      Trace(state, x.later, t.times[key := TimesOf(t, key) + [x.now]], t.last[key := OneMore(w)],
            t.lost + Cut(t.state.windows[key := OneMore(w)], state.windows, x.later))
  }

  function Run(arrivals: seq<Arrival>, lim: Limits): Trace {
    if arrivals == [] then Trace(EMPTY, 0.0, map[], map[], {})
    else After(Run(arrivals[..|arrivals| - 1], lim), arrivals[|arrivals| - 1], lim)
  }

  /** The clock never goes back. */
  predicate Timely(arrivals: seq<Arrival>) {
    && (forall i :: 0 <= i < |arrivals| ==> 0.0 <= arrivals[i].now <= arrivals[i].later)
    && (forall i, j :: 0 <= i < j < |arrivals| ==> arrivals[i].later <= arrivals[j].now)
  }

  /** A bucket that was never cut: its window, if it has one, is its last; if it has none, that one rolled. */
  ghost predicate BucketFair(t: Trace, key: string, limit: int) {
    && (key in t.state.windows ==> key in t.last && t.state.windows[key] == t.last[key])
    && (if key in t.last then
          && Fair(TimesOf(t, key), t.last[key], limit)
          && t.last[key].started <= t.clock
          && (key in t.state.windows || Rolled(t.last[key], t.clock))
        else TimesOf(t, key) == [])
  }

  ghost predicate Inv(t: Trace, lim: Limits) {
    && RateLimiter.Inv(t.state, lim)
    && forall key: string :: key in t.lost || BucketFair(t, key, lim.limit)
  }

  /** The window a request finds is the bucket's last, or a new one after that rolled. */
  lemma WindowFound(t: Trace, key: string, limit: int, now: real)
    requires BucketFair(t, key, limit) && t.clock <= now
    ensures var w := WindowAt(t.state.windows, key, now);
            if key in t.last && !Rolled(t.last[key], now) then w == t.last[key] else w == Window(now, 0)
  {
  }

  lemma ChargedStaysFair(times: seq<real>, last: Option<Window>, limit: int, now: real)
    requires limit >= 1
    requires if last.Some? then Fair(times, last.value, limit) && last.value.started <= now else times == []
    ensures var w := if last.Some? && !Rolled(last.value, now) then last.value else Window(now, 0);
            w.count < limit ==> Fair(times + [now], OneMore(w), limit)
  {
    if last.None? {
      FirstAdmission(limit, now);
      assert times + [now] == [now];
    } else if Rolled(last.value, now) {
      AdmitAfterRoll(times, last.value, limit, now);
    } else if last.value.count < limit {
      AdmitInWindow(times, last.value, limit, now);
    }
  }

  function LastOf(t: Trace, key: string): Option<Window> {
    if key in t.last then Some(t.last[key]) else None
  }

  /** Some windows of one map survive into another, unchanged. */
  ghost predicate Survive(before: map<string, Window>, after: map<string, Window>) {
    forall k <- after :: k in before && after[k] == before[k]
  }

  lemma OthersStayFair(t: Trace, u: Trace, charged: string, w: Window, key: string, limit: int)
    requires BucketFair(t, key, limit) && key != charged && t.clock <= u.clock
    requires Survive(t.state.windows[charged := w], u.state.windows)
    requires key !in Cut(t.state.windows[charged := w], u.state.windows, u.clock)
    requires TimesOf(u, key) == TimesOf(t, key) && LastOf(u, key) == LastOf(t, key)
    ensures BucketFair(u, key, limit)
  {
  }

  lemma AdmittedStaysFair(t: Trace, u: Trace, key: string, w: Window, limit: int, now: real)
    requires BucketFair(t, key, limit) && t.clock <= now <= u.clock && limit >= 1
    requires w == WindowAt(t.state.windows, key, now) && w.count < limit
    requires Survive(t.state.windows[key := OneMore(w)], u.state.windows)
    requires key !in Cut(t.state.windows[key := OneMore(w)], u.state.windows, u.clock)
    requires TimesOf(u, key) == TimesOf(t, key) + [now] && LastOf(u, key) == Some(OneMore(w))
    ensures BucketFair(u, key, limit)
  {
    WindowFound(t, key, limit, now);
    ChargedStaysFair(TimesOf(t, key), LastOf(t, key), limit, now);
  }

  lemma RefusedStaysFair(t: Trace, u: Trace, key: string, w: Window, limit: int, now: real)
    requires BucketFair(t, key, limit) && t.clock <= now <= u.clock && limit >= 1
    requires w == WindowAt(t.state.windows, key, now) && w.count >= limit
    requires u.state.windows == t.state.windows[key := w]
    requires TimesOf(u, key) == TimesOf(t, key) && LastOf(u, key) == Some(w)
    ensures BucketFair(u, key, limit)
  {
    WindowFound(t, key, limit, now);
  }

  lemma RefusedKeeps(t: Trace, x: Arrival, lim: Limits, key: string)
    requires Inv(t, lim) && t.clock <= x.now <= x.later && lim.limit >= 1 && lim.maxTracked >= 0
    requires Touched(t.state, x.request, lim, x.now).2.count >= lim.limit && key !in t.lost
    ensures BucketFair(After(t, x, lim), key, lim.limit)
  {
    GuardKeeps(t.state, x.request, lim, x.now, x.later);
    var (_, charged, w) := Touched(t.state, x.request, lim, x.now);
    var u := After(t, x, lim);
    assert BucketFair(t, key, lim.limit);
    if key == charged {
      RefusedStaysFair(t, u, key, w, lim.limit, x.now);
    } else {
      OthersStayFair(t, u, charged, w, key, lim.limit);
    }
  }

  lemma AdmittedKeeps(t: Trace, x: Arrival, lim: Limits, key: string)
    requires Inv(t, lim) && t.clock <= x.now <= x.later && lim.limit >= 1 && lim.maxTracked >= 0
    requires Touched(t.state, x.request, lim, x.now).2.count < lim.limit && key !in After(t, x, lim).lost
    ensures BucketFair(After(t, x, lim), key, lim.limit)
  {
    GuardKeeps(t.state, x.request, lim, x.now, x.later);
    var (_, charged, w) := Touched(t.state, x.request, lim, x.now);
    var u := After(t, x, lim);
    assert key in t.lost || BucketFair(t, key, lim.limit);
    if key == charged {
      AdmittedStaysFair(t, u, key, w, lim.limit, x.now);
    } else {
      OthersStayFair(t, u, charged, OneMore(w), key, lim.limit);
    }
  }

  lemma StepKeeps(t: Trace, x: Arrival, lim: Limits)
    requires Inv(t, lim) && t.clock <= x.now <= x.later && lim.limit >= 1 && lim.maxTracked >= 0
    ensures Inv(After(t, x, lim), lim)
  {
    GuardKeeps(t.state, x.request, lim, x.now, x.later);
    var u := After(t, x, lim);
    forall key: string ensures key in u.lost || BucketFair(u, key, lim.limit) {
      if key !in u.lost {
        if Touched(t.state, x.request, lim, x.now).2.count >= lim.limit {
          RefusedKeeps(t, x, lim, key);
        } else {
          AdmittedKeeps(t, x, lim, key);
        }
      }
    }
  }

  lemma {:induction false} EveryRunKeeps(arrivals: seq<Arrival>, lim: Limits)
    requires Timely(arrivals) && lim.limit >= 1 && lim.maxTracked >= 0
    ensures Inv(Run(arrivals, lim), lim)
    ensures Run(arrivals, lim).clock == if arrivals == [] then 0.0 else arrivals[|arrivals| - 1].later
  {
    if arrivals == [] {
      forall a: string ensures Owned(EMPTY.owners, a) == {} {
      }
    } else {
      var n := |arrivals| - 1;
      EveryRunKeeps(arrivals[..n], lim);
      StepKeeps(Run(arrivals[..n], lim), arrivals[n], lim);
    }
  }

  /** A bucket that was never evicted while live admits fewer than twice the limit in any half-open 60 seconds. */
  lemma AdmissionBound(arrivals: seq<Arrival>, lim: Limits, key: string, a: real)
    requires Timely(arrivals) && lim.limit >= 1 && lim.maxTracked >= 0 && key !in Run(arrivals, lim).lost
    ensures CountIn(TimesOf(Run(arrivals, lim), key), a, a + WINDOW_SECONDS) <= 2 * lim.limit - 1
  {
    EveryRunKeeps(arrivals, lim);
    var t := Run(arrivals, lim);
    assert key in t.lost || BucketFair(t, key, lim.limit);
    if key in t.last {
      assert CountFrom(TimesOf(t, key), a) <= 2 * lim.limit - 1;
    }
  }

  // ---- The bound is attained

  /** A limiter that has met one bucket only. */
  function Alone(key: string, w: Window, times: seq<real>, clock: real): Trace {
    Trace(State([key], map[key := w], map[], map[]), clock, map[key := times], map[key := w], {})
  }

  function Plain(key: string, now: real): Arrival {
    Arrival(Request(None, key), now, now)
  }

  lemma AloneAdmits(key: string, w: Window, times: seq<real>, clock: real, now: real, lim: Limits)
    requires lim.maxTracked >= 1 && WindowAt(map[key := w], key, now).count < lim.limit
    ensures After(Alone(key, w, times, clock), Plain(key, now), lim)
            == Alone(key, OneMore(WindowAt(map[key := w], key, now)), times + [now], now)
  {
    var t := Alone(key, w, times, clock);
    var found := WindowAt(map[key := w], key, now);
    assert Without([key], key) == [] by {
      assert [key][..0] == [];
    }
    assert Place(t.state, key, found).windows == map[key := found];
    var placed := Place(Place(t.state, key, found), key, OneMore(found));
    assert placed == State([key], map[key := OneMore(found)], map[], map[]);
    assert |placed.windows| == 1;
    assert t.state.windows[key := OneMore(found)] == placed.windows;
    assert Cut(placed.windows, placed.windows, now) == {};
  }

  function AfterAll(t: Trace, x: Arrival, n: nat, lim: Limits): Trace {
    if n == 0 then t else After(AfterAll(t, x, n - 1, lim), x, lim)
  }

  lemma RunPush(before: seq<Arrival>, x: Arrival, lim: Limits)
    ensures Run(before + [x], lim) == After(Run(before, lim), x, lim)
  {
    assert (before + [x])[..|before + [x]| - 1] == before;
  }

  lemma {:induction false} RunRepeats(before: seq<Arrival>, x: Arrival, n: nat, lim: Limits)
    ensures Run(before + Repeat(x, n), lim) == AfterAll(Run(before, lim), x, n, lim)
  {
    hide After;
    if n == 0 {
      assert before + Repeat(x, 0) == before;
    } else {
      RunRepeats(before, x, n - 1, lim);
      RunPush(before + Repeat(x, n - 1), x, lim);
      assert before + Repeat(x, n) == before + Repeat(x, n - 1) + [x];
    }
  }

  /** n requests at one moment, all let in by one window. */
  lemma {:induction false} Burst(n: nat, key: string, w: Window, times: seq<real>, clock: real, now: real, lim: Limits)
    requires lim.maxTracked >= 1 && n >= 1 && WindowAt(map[key := w], key, now).count + n <= lim.limit
    ensures var found := WindowAt(map[key := w], key, now);
            AfterAll(Alone(key, w, times, clock), Plain(key, now), n, lim)
            == Alone(key, Window(found.started, found.count + n), times + Repeat(now, n), now)
  {
    hide After;
    if n == 1 {
      AloneAdmits(key, w, times, clock, now, lim);
      FirstOf(Alone(key, w, times, clock), Plain(key, now), lim);
      assert times + Repeat(now, 1) == times + [now];
    } else {
      Burst(n - 1, key, w, times, clock, now, lim);
      var found := WindowAt(map[key := w], key, now);
      AloneAdmits(key, Window(found.started, found.count + (n - 1)), times + Repeat(now, n - 1), now, now, lim);
      assert times + Repeat(now, n) == times + Repeat(now, n - 1) + [now];
    }
  }

  lemma FirstOf(t: Trace, x: Arrival, lim: Limits)
    ensures AfterAll(t, x, 1, lim) == After(t, x, lim)
  {
    assert AfterAll(t, x, 0, lim) == t;
  }

  function Repeat<T>(x: T, n: nat): (r: seq<T>)
    ensures |r| == n && forall i :: 0 <= i < n ==> r[i] == x
  {
    if n == 0 then [] else Repeat(x, n - 1) + [x]
  }

  lemma {:induction false} CountRepeat(times: seq<real>, now: real, n: nat, a: real, b: real)
    ensures CountIn(times + Repeat(now, n), a, b) == CountIn(times, a, b) + if a <= now < b then n else 0
  {
    if n == 0 {
      assert times + Repeat(now, 0) == times;
    } else {
      CountRepeat(times, now, n - 1, a, b);
      assert times + Repeat(now, n) == times + Repeat(now, n - 1) + [now];
      CountInPush(times + Repeat(now, n - 1), now, a, b);
    }
  }

  /** Opening a window, filling it at its end and filling the next at once. */
  function WorstCase(key: string, limit: nat): seq<Arrival>
    requires limit >= 2
  {
    [Plain(key, 0.0)] + Repeat(Plain(key, 59.0), limit - 1) + Repeat(Plain(key, 60.0), limit)
  }

  lemma WorstCaseIsTimely(key: string, limit: nat)
    requires limit >= 2
    ensures Timely(WorstCase(key, limit))
  {
  }

  lemma WorstCaseRuns(key: string, limit: nat, lim: Limits)
    requires lim.limit == limit >= 2 && lim.maxTracked >= 1
    ensures Run(WorstCase(key, limit), lim)
            == Alone(key, Window(60.0, limit), [0.0] + Repeat(59.0, limit - 1) + Repeat(60.0, limit), 60.0)
  {
    hide After;
    var first := [Plain(key, 0.0)];
    FirstAlone(key, lim);
    RunRepeats(first, Plain(key, 59.0), limit - 1, lim);
    Burst(limit - 1, key, Window(0.0, 1), [0.0], 0.0, 59.0, lim);
    RunRepeats(first + Repeat(Plain(key, 59.0), limit - 1), Plain(key, 60.0), limit, lim);
    Burst(limit, key, Window(0.0, limit), [0.0] + Repeat(59.0, limit - 1), 59.0, 60.0, lim);
  }

  /** No smaller bound holds: for every limit of two or more some run lets 2 * limit - 1 requests in within 60 seconds. */
  lemma BoundIsAttained(key: string, limit: nat, lim: Limits)
    requires lim.limit == limit >= 2 && lim.maxTracked >= 1
    ensures Timely(WorstCase(key, limit)) && key !in Run(WorstCase(key, limit), lim).lost
    ensures CountIn(TimesOf(Run(WorstCase(key, limit), lim), key), 1.0, 1.0 + WINDOW_SECONDS) == 2 * limit - 1
  {
    WorstCaseIsTimely(key, limit);
    WorstCaseRuns(key, limit, lim);
    CountRepeat([0.0] + Repeat(59.0, limit - 1), 60.0, limit, 1.0, 61.0);
    CountRepeat([0.0], 59.0, limit - 1, 1.0, 61.0);
    NoneBefore(0.0, 1.0, 61.0);
  }

  lemma NoneBefore(t: real, a: real, b: real)
    requires t < a
    ensures CountIn([t], a, b) == 0
  {
    CountInPush([], t, a, b);
    assert [] + [t] == [t];
  }

  lemma FirstAlone(key: string, lim: Limits)
    requires lim.limit >= 1 && lim.maxTracked >= 1
    ensures Run([Plain(key, 0.0)], lim) == Alone(key, Window(0.0, 1), [0.0], 0.0)
  {
    var x := Plain(key, 0.0);
    assert [x][..0] == [];
    var t := Run([], lim);
    assert Run([x], lim) == After(t, x, lim);
    assert Without([key], key) == [] by {
      assert [key][..0] == [];
    }
    var touched := Place(EMPTY, key, Window(0.0, 0));
    assert touched == State([key], map[key := Window(0.0, 0)], map[], map[]);
    var placed := Place(touched, key, Window(0.0, 1));
    assert placed == State([key], map[key := Window(0.0, 1)], map[], map[]);
    assert |placed.windows| == 1;
    assert EMPTY.windows[key := Window(0.0, 1)] == placed.windows;
    assert Cut(placed.windows, placed.windows, 0.0) == {};
    assert [] + [0.0] == [0.0];
  }
}
