/**
 The rate limiter's buckets (_RateLimitBuckets in src/multiplayer/server.py) and the guard that charges them.
 Times are the seconds of a monotonic clock.
 */
module RateLimiter {
  import opened Prelude

  const WINDOW_SECONDS := 60.0
  const MAX_TRACKED_CLIENTS := 10000
  const TOKEN_BUCKETS_PER_ADDRESS_CAP := 20

  datatype Window = Window(started: real, count: int)

  /** windows with its access order, oldest first; who minted each token bucket; how many each address minted. */
  datatype State = State(order: seq<string>, windows: map<string, Window>, owners: map<string, string>,
                         counts: map<string, int>)

  const EMPTY := State([], map[], map[], map[])

  /** The digest of the request's bearer token or session cookie, if it has one, and its peer address. */
  datatype Request = Request(candidate: Option<string>, address: string)

  datatype Limits = Limits(limit: int, maxTracked: int, cap: int)

  predicate Rolled(w: Window, now: real) {
    now - w.started >= WINDOW_SECONDS
  }

  // ---- The buckets' operations

  function Without(order: seq<string>, key: string): seq<string> {
    if order == [] then []
    else if order[|order| - 1] == key then Without(order[..|order| - 1], key)
    else Without(order[..|order| - 1], key) + [order[|order| - 1]]
  }

  function CountOf(counts: map<string, int>, address: string, default: int): int {
    if address in counts then counts[address] else default
  }

  /** _evict */
  function Evict(s: State, key: string): State {
    var u := s.(order := Without(s.order, key), windows := s.windows - {key});
    if key !in s.owners then u
    else
      var address := s.owners[key];
      var remaining := CountOf(s.counts, address, 1) - 1;
      u.(owners := s.owners - {key},
         counts := if remaining <= 0 then s.counts - {address} else s.counts[address := remaining])
  }

  /** key_for with _bucket_for: which bucket a request is charged to, minting one where its address may. */
  function KeyFor(s: State, r: Request, cap: int): (State, string) {
    match r.candidate
    case None => (s, r.address)
    case Some(key) =>
      if key in s.windows then (s, key)
      else if CountOf(s.counts, r.address, 0) >= cap then (s, r.address)
      else
        (s.(owners := s.owners[key := r.address],
            counts := s.counts[r.address := CountOf(s.counts, r.address, 0) + 1]), key)
  }

  /** The window a key has now: a new one if it has none or its own rolled. */
  function WindowAt(windows: map<string, Window>, key: string, now: real): Window {
    if key !in windows || Rolled(windows[key], now) then Window(now, 0) else windows[key]
  }

  function Place(s: State, key: string, w: Window): State {
    s.(order := Without(s.order, key) + [key], windows := s.windows[key := w])
  }

  /** The keys whose window rolled, in access order. */
  function StaleKeys(order: seq<string>, windows: map<string, Window>, now: real): seq<string> {
    if order == [] then []
    else
      var key := order[|order| - 1];
      StaleKeys(order[..|order| - 1], windows, now) + if key in windows && Rolled(windows[key], now) then [key] else []
  }

  function EvictAll(s: State, keys: seq<string>): State {
    if keys == [] then s else Evict(EvictAll(s, keys[..|keys| - 1]), keys[|keys| - 1])
  }

  /** Evict the least recently used until the map is within its cap. */
  function Trim(s: State, maxTracked: int): State
    decreases |s.order|
  {
    if |s.windows| <= maxTracked || s.order == [] then s
    else
      WithoutShrinks(s.order);
      Trim(Evict(s, s.order[0]), maxTracked)
  }

  /** _enforce_cap */
  function EnforceCap(s: State, maxTracked: int, now: real): State {
    if |s.windows| <= maxTracked then s
    else Trim(EvictAll(s, StaleKeys(s.order, s.windows, now)), maxTracked)
  }

  datatype Verdict = Admitted | Refused(retryAfter: int)

  /** The bucket charged, its window now, and the state once it is touched. */
  function Touched(s: State, r: Request, lim: Limits, now: real): (State, string, Window) {
    var (keyed, key) := KeyFor(s, r, lim.cap);
    var w := WindowAt(s.windows, key, now);
    (Place(keyed, key, w), key, w)
  }

  function OneMore(w: Window): Window {
    Window(w.started, w.count + 1)
  }

  function RetryAfter(w: Window, now: real): int {
    (WINDOW_SECONDS - (now - w.started)).Floor + 1
  }

  /** The guard's step for one request: the clock is read at now, and again at later if the cap is enforced. */
  function Guard(s: State, r: Request, lim: Limits, now: real, later: real): (State, Verdict) {
    var (touched, key, w) := Touched(s, r, lim, now);
    if w.count >= lim.limit then (touched, Refused(RetryAfter(w, now)))
    else (EnforceCap(Place(touched, key, OneMore(w)), lim.maxTracked, later), Admitted)
  }

  // ---- The books agree

  function Owned(owners: map<string, string>, address: string): set<string> {
    set key | key in owners && owners[key] == address
  }

  /** The order lists the windows once each. */
  ghost predicate OrderMatches(order: seq<string>, windows: map<string, Window>) {
    && (forall i, j :: 0 <= i < j < |order| ==> order[i] != order[j])
    && (forall key :: key in order <==> key in windows)
  }

  /** An address is counted exactly as often as it owns buckets, and only while it owns one. */
  ghost predicate CountsMatch(owners: map<string, string>, counts: map<string, int>) {
    forall a: string :: CountOf(counts, a, 0) == |Owned(owners, a)| && (a in counts ==> counts[a] > 0)
  }

  ghost predicate Capped(counts: map<string, int>, cap: int) {
    forall a <- counts :: counts[a] <= cap
  }

  ghost predicate Books(s: State, cap: int) {
    OrderMatches(s.order, s.windows) && CountsMatch(s.owners, s.counts) && Capped(s.counts, cap)
  }

  /** What holds between requests. */
  ghost predicate Inv(s: State, lim: Limits) {
    Books(s, lim.cap) && s.owners.Keys <= s.windows.Keys && |s.windows| <= lim.maxTracked
  }

  lemma {:induction false} WithoutMeans(order: seq<string>, key: string)
    requires forall i, j :: 0 <= i < j < |order| ==> order[i] != order[j]
    ensures var r := Without(order, key);
            && (forall i, j :: 0 <= i < j < |r| ==> r[i] != r[j])
            && key !in r && (forall k :: k in r ==> k in order) && (forall k <- order :: k != key ==> k in r)
  {
    if order != [] {
      var n := |order| - 1;
      assert order == order[..n] + [order[n]];
      WithoutMeans(order[..n], key);
      assert order[n] !in order[..n];
      assert order[n] !in Without(order[..n], key);
    }
  }

  lemma {:induction false} WithoutShorter(order: seq<string>, key: string)
    ensures |Without(order, key)| <= |order| && (key in order ==> |Without(order, key)| < |order|)
  {
    if order != [] {
      var n := |order| - 1;
      assert order == order[..n] + [order[n]];
      WithoutShorter(order[..n], key);
    }
  }

  lemma WithoutShrinks(order: seq<string>)
    requires order != []
    ensures |Without(order, order[0])| < |order|
  {
    WithoutShorter(order, order[0]);
  }

  lemma EvictOwned(owners: map<string, string>, key: string, address: string)
    ensures Owned(owners - {key}, address) == Owned(owners, address) - {key}
  {
  }

  lemma EvictCounts(owners: map<string, string>, counts: map<string, int>, key: string, cap: int)
    requires CountsMatch(owners, counts) && Capped(counts, cap) && key in owners
    ensures var address := owners[key];
            var remaining := CountOf(counts, address, 1) - 1;
            var after := if remaining <= 0 then counts - {address} else counts[address := remaining];
            CountsMatch(owners - {key}, after) && Capped(after, cap)
  {
    var address := owners[key];
    var remaining := CountOf(counts, address, 1) - 1;
    var after := if remaining <= 0 then counts - {address} else counts[address := remaining];
    assert key in Owned(owners, address);
    forall a: string
      ensures CountOf(after, a, 0) == |Owned(owners - {key}, a)| && (a in after ==> after[a] > 0)
    {
      EvictOwned(owners, key, a);
      assert CountOf(counts, a, 0) == |Owned(owners, a)|;
      if a == address {
        assert |Owned(owners, a) - {key}| == |Owned(owners, a)| - 1;
      } else {
        assert Owned(owners, a) - {key} == Owned(owners, a);
      }
    }
  }

  lemma EvictKeeps(s: State, key: string, cap: int)
    requires Books(s, cap)
    ensures var u := Evict(s, key);
            Books(u, cap) && u.windows == s.windows - {key} && u.owners == s.owners - {key}
  {
    WithoutMeans(s.order, key);
    if key in s.owners {
      EvictCounts(s.owners, s.counts, key, cap);
    } else {
      assert s.owners - {key} == s.owners;
    }
  }

  lemma {:induction false} EvictAllKeeps(s: State, keys: seq<string>, cap: int)
    requires Books(s, cap) && s.owners.Keys <= s.windows.Keys
    ensures var u := EvictAll(s, keys);
            && Books(u, cap) && u.owners.Keys <= u.windows.Keys
            && (forall k :: k in u.windows <==> k in s.windows && k !in keys)
            && (forall k <- u.windows :: u.windows[k] == s.windows[k])
  {
    if keys != [] {
      var n := |keys| - 1;
      assert keys == keys[..n] + [keys[n]];
      EvictAllKeeps(s, keys[..n], cap);
      EvictKeeps(EvictAll(s, keys[..n]), keys[n], cap);
    }
  }

  lemma {:induction false} WithoutAbsent(order: seq<string>, key: string)
    requires key !in order
    ensures Without(order, key) == order
  {
    if order != [] {
      var n := |order| - 1;
      assert order == order[..n] + [order[n]] && order[n] in order;
      WithoutAbsent(order[..n], key);
    }
  }

  lemma {:induction false} WithoutFirst(order: seq<string>)
    requires order != [] && forall i, j :: 0 <= i < j < |order| ==> order[i] != order[j]
    ensures Without(order, order[0]) == order[1..]
  {
    var n := |order| - 1;
    if n > 0 {
      WithoutFirst(order[..n]);
      assert order[1..] == order[..n][1..] + [order[n]];
    }
  }

  lemma {:induction false} OrderCounts(order: seq<string>, windows: map<string, Window>)
    requires OrderMatches(order, windows)
    ensures |windows| == |order|
  {
    if order == [] {
      assert windows.Keys == {};
      assert |windows| == |windows.Keys|;
    } else {
      var n := |order| - 1;
      assert order == order[..n] + [order[n]];
      var rest := windows - {order[n]};
      OrderCounts(order[..n], rest);
      assert windows.Keys == rest.Keys + {order[n]};
      assert |windows| == |windows.Keys| && |rest| == |rest.Keys|;
    }
  }

  lemma {:induction false} TrimKeeps(s: State, maxTracked: nat, cap: int)
    requires Books(s, cap) && s.owners.Keys <= s.windows.Keys
    ensures var u := Trim(s, maxTracked);
            && Books(u, cap) && u.owners.Keys <= u.windows.Keys
            && |u.windows| <= maxTracked
            && (forall k <- u.windows :: k in s.windows && u.windows[k] == s.windows[k])
    decreases |s.order|
  {
    OrderCounts(s.order, s.windows);
    if |s.order| > maxTracked {
      EvictKeeps(s, s.order[0], cap);
      WithoutShrinks(s.order);
      TrimKeeps(Evict(s, s.order[0]), maxTracked, cap);
    }
  }

  /** The last of these, at most so many. */
  function Latest(order: seq<string>, n: nat): seq<string> {
    if |order| <= n then order else order[|order| - n..]
  }

  lemma LatestOfRest(order: seq<string>, n: nat)
    requires |order| > n
    ensures Latest(order[1..], n) == Latest(order, n)
  {
  }

  /** Trimming evicts the least recently used and no more than the cap asks: the most recent stay, in their order. */
  lemma {:induction false} TrimKeepsLatest(s: State, maxTracked: nat, cap: int)
    requires Books(s, cap)
    ensures Trim(s, maxTracked).order == Latest(s.order, maxTracked)
    decreases |s.order|
  {
    OrderCounts(s.order, s.windows);
    if |s.order| > maxTracked {
      EvictKeeps(s, s.order[0], cap);
      WithoutShrinks(s.order);
      WithoutFirst(s.order);
      LatestOfRest(s.order, maxTracked);
      TrimKeepsLatest(Evict(s, s.order[0]), maxTracked, cap);
    }
  }

  lemma {:induction false} StaleKeysMeans(order: seq<string>, windows: map<string, Window>, now: real)
    ensures forall k :: k in StaleKeys(order, windows, now) <==> k in order && k in windows && Rolled(windows[k], now)
  {
    if order != [] {
      var n := |order| - 1;
      assert order == order[..n] + [order[n]];
      StaleKeysMeans(order[..n], windows, now);
    }
  }

  /** The keys whose window is less than sixty seconds old, in access order. */
  function LiveKeys(order: seq<string>, windows: map<string, Window>, now: real): seq<string> {
    if order == [] then []
    else
      var key := order[|order| - 1];
      LiveKeys(order[..|order| - 1], windows, now)
      + if key in windows && now - windows[key].started < 60.0 then [key] else []
  }

  function Dropped(order: seq<string>, keys: seq<string>): seq<string> {
    if order == [] then []
    else Dropped(order[..|order| - 1], keys) + if order[|order| - 1] in keys then [] else [order[|order| - 1]]
  }

  lemma {:induction false} WithoutDropped(order: seq<string>, keys: seq<string>, key: string)
    ensures Without(Dropped(order, keys), key) == Dropped(order, keys + [key])
  {
    if order != [] {
      var n := |order| - 1;
      WithoutDropped(order[..n], keys, key);
      var before, last := Dropped(order[..n], keys), order[n];
      assert (before + [last])[..|before + [last]| - 1] == before;
      assert before + [] == before;
    }
  }

  lemma {:induction false} NothingDropped(order: seq<string>)
    ensures Dropped(order, []) == order
  {
    if order != [] {
      NothingDropped(order[..|order| - 1]);
    }
  }

  lemma {:induction false} EvictAllOrder(s: State, keys: seq<string>)
    ensures EvictAll(s, keys).order == Dropped(s.order, keys)
  {
    if keys == [] {
      NothingDropped(s.order);
    } else {
      var n := |keys| - 1;
      EvictAllOrder(s, keys[..n]);
      WithoutDropped(s.order, keys[..n], keys[n]);
      assert keys == keys[..n] + [keys[n]];
    }
  }

  lemma {:induction false} DroppedAreLive(order: seq<string>, keys: seq<string>, windows: map<string, Window>, now: real)
    requires forall k <- order :: k in windows && (k in keys <==> now - windows[k].started >= 60.0)
    ensures Dropped(order, keys) == LiveKeys(order, windows, now)
  {
    if order != [] {
      var n := |order| - 1;
      assert order[n] in order && forall k <- order[..n] :: k in order;
      DroppedAreLive(order[..n], keys, windows, now);
    }
  }

  /** Beyond its cap the map loses every window that rolled, and then the least recently used until it fits; else nothing. */
  lemma EnforceKeepsTheLatest(s: State, lim: Limits, now: real)
    requires Books(s, lim.cap) && s.owners.Keys <= s.windows.Keys && lim.maxTracked >= 0
    ensures var u := EnforceCap(s, lim.maxTracked, now);
            if |s.windows| <= lim.maxTracked then u == s
            else u.order == Latest(LiveKeys(s.order, s.windows, now), lim.maxTracked)
  {
    if |s.windows| > lim.maxTracked {
      var stale := StaleKeys(s.order, s.windows, now);
      StaleKeysMeans(s.order, s.windows, now);
      EvictAllKeeps(s, stale, lim.cap);
      EvictAllOrder(s, stale);
      DroppedAreLive(s.order, stale, s.windows, now);
      TrimKeepsLatest(EvictAll(s, stale), lim.maxTracked, lim.cap);
      hide Books, Trim, EvictAll, StaleKeys, LiveKeys, Dropped;
    }
  }

  lemma EnforceKeeps(s: State, lim: Limits, now: real)
    requires Books(s, lim.cap) && s.owners.Keys <= s.windows.Keys && lim.maxTracked >= 0
    ensures var u := EnforceCap(s, lim.maxTracked, now);
            && Inv(u, lim)
            && (forall k <- u.windows :: k in s.windows && u.windows[k] == s.windows[k])
  {
    if |s.windows| > lim.maxTracked {
      var stale := StaleKeys(s.order, s.windows, now);
      EvictAllKeeps(s, stale, lim.cap);
      TrimKeeps(EvictAll(s, stale), lim.maxTracked, lim.cap);
    }
  }

  lemma PlaceKeeps(s: State, key: string, w: Window, cap: int)
    requires CountsMatch(s.owners, s.counts) && Capped(s.counts, cap) && OrderMatches(s.order, s.windows)
    ensures Books(Place(s, key, w), cap)
  {
    WithoutMeans(s.order, key);
  }

  lemma MintKeeps(owners: map<string, string>, counts: map<string, int>, key: string, address: string, cap: int)
    requires CountsMatch(owners, counts) && Capped(counts, cap) && key !in owners && CountOf(counts, address, 0) < cap
    ensures var after := counts[address := CountOf(counts, address, 0) + 1];
            CountsMatch(owners[key := address], after) && Capped(after, cap)
  {
    var after := counts[address := CountOf(counts, address, 0) + 1];
    forall a: string
      ensures CountOf(after, a, 0) == |Owned(owners[key := address], a)| && (a in after ==> after[a] > 0)
    {
      assert CountOf(counts, a, 0) == |Owned(owners, a)|;
      if a == address {
        assert Owned(owners[key := address], a) == Owned(owners, a) + {key};
      } else {
        assert Owned(owners[key := address], a) == Owned(owners, a);
      }
    }
  }

  lemma KeyForMeans(s: State, r: Request, lim: Limits)
    requires Inv(s, lim)
    ensures var (u, key) := KeyFor(s, r, lim.cap);
            && u.order == s.order && u.windows == s.windows
            && CountsMatch(u.owners, u.counts) && Capped(u.counts, lim.cap)
            && u.owners.Keys <= s.windows.Keys + {key}
  {
    if r.candidate.Some? && r.candidate.value !in s.windows && CountOf(s.counts, r.address, 0) < lim.cap {
      MintKeeps(s.owners, s.counts, r.candidate.value, r.address, lim.cap);
    }
  }

  lemma TouchedMeans(s: State, r: Request, lim: Limits, now: real)
    requires Inv(s, lim)
    ensures var (u, key, w) := Touched(s, r, lim, now);
            && Books(u, lim.cap) && u.owners.Keys <= u.windows.Keys
            && u.windows == s.windows[key := w]
  {
    KeyForMeans(s, r, lim);
    var (keyed, key) := KeyFor(s, r, lim.cap);
    PlaceKeeps(keyed, key, WindowAt(s.windows, key, now), lim.cap);
  }

  lemma SameSize(windows: map<string, Window>, key: string, w: Window)
    requires key in windows
    ensures |windows[key := w]| == |windows|
  {
    assert windows[key := w].Keys == windows.Keys;
    assert |windows[key := w]| == |windows[key := w].Keys| && |windows| == |windows.Keys|;
  }

  lemma PlacedOwners(s: State, key: string, w: Window)
    requires s.owners.Keys <= s.windows.Keys
    ensures Place(s, key, w).owners.Keys <= Place(s, key, w).windows.Keys
  {
  }

  lemma PlacedAndCapped(s: State, key: string, w: Window, lim: Limits, later: real)
    requires Books(s, lim.cap) && s.owners.Keys <= s.windows.Keys && lim.maxTracked >= 0
    ensures var u := EnforceCap(Place(s, key, w), lim.maxTracked, later);
            && Inv(u, lim)
            && forall k <- u.windows :: (k == key || k in s.windows) && u.windows[k] == if k == key then w else s.windows[k]
  {
    PlaceKeeps(s, key, w, lim.cap);
    PlacedOwners(s, key, w);
    EnforceKeeps(Place(s, key, w), lim, later);
  }

  /**
   Every request leaves the books agreeing: each address is counted exactly as often as it owns live buckets,
   never beyond its cap, and the map of windows never exceeds its own.
   */
  lemma GuardKeeps(s: State, r: Request, lim: Limits, now: real, later: real)
    requires Inv(s, lim) && lim.limit >= 1 && lim.maxTracked >= 0
    ensures Inv(Guard(s, r, lim, now, later).0, lim)
    ensures var (_, key, w) := Touched(s, r, lim, now);
            var (u, verdict) := Guard(s, r, lim, now, later);
            && (verdict.Refused? <==> w.count >= lim.limit)
            && (verdict.Refused? ==> u.windows == s.windows[key := w])
            && (verdict.Admitted? ==> forall k <- u.windows :: k in s.windows[key := OneMore(w)]
                                                               && u.windows[k] == s.windows[key := OneMore(w)][k])
  {
    TouchedMeans(s, r, lim, now);
    var (u, key, w) := Touched(s, r, lim, now);
    if w.count >= lim.limit {
      SameSize(s.windows, key, w);
    } else {
      PlacedAndCapped(u, key, OneMore(w), lim, later);
    }
  }

  /** A refused request that comes back after the seconds it was told, finds its window rolled. */
  lemma RetryAfterSuffices(s: State, r: Request, lim: Limits, now: real, later: real, back: real)
    requires lim.limit >= 1 && Guard(s, r, lim, now, later).1.Refused?
    requires back >= now + (Guard(s, r, lim, now, later).1.retryAfter as real)
    ensures var (u, key, w) := Touched(s, r, lim, now);
            Guard(s, r, lim, now, later).0 == u && WindowAt(u.windows, key, back) == Window(back, 0)
  {
    var (u, key, w) := Touched(s, r, lim, now);
    assert (RetryAfter(w, now) as real) >= WINDOW_SECONDS - (now - w.started);
  }

  // ---- Who is charged

  /** A token that has a bucket, or whose address owns fewer than its cap, has a bucket of its own; else the address pays. */
  function ChargedTo(s: State, r: Request, cap: int): string {
    if r.candidate.Some? && (r.candidate.value in s.windows || |Owned(s.owners, r.address)| < cap) then r.candidate.value
    else r.address
  }

  /** A bucket's window: the one it has unless sixty seconds have passed since it began. */
  function OpenWindow(s: State, key: string, now: real): Window {
    if key in s.windows && now - s.windows[key].started < 60.0 then s.windows[key] else Window(now, 0)
  }

  /** A token without a bucket, at an address that may start one more. */
  predicate Mints(s: State, r: Request, cap: int) {
    r.candidate.Some? && r.candidate.value !in s.windows && |Owned(s.owners, r.address)| < cap
  }

  lemma KeyIsCharged(s: State, r: Request, cap: int)
    requires CountsMatch(s.owners, s.counts)
    ensures KeyFor(s, r, cap).1 == ChargedTo(s, r, cap)
    ensures var u := KeyFor(s, r, cap).0;
            && u.windows == s.windows && u.order == s.order
            && u.owners == if Mints(s, r, cap) then s.owners[r.candidate.value := r.address] else s.owners
  {
    assert CountOf(s.counts, r.address, 0) == |Owned(s.owners, r.address)|;
    hide Owned;
  }

  lemma SmallIsNotCut(s: State, maxTracked: int, later: real)
    requires |s.windows| <= maxTracked
    ensures EnforceCap(s, maxTracked, later) == s
  {
  }

  lemma WindowIsOpen(s: State, key: string, now: real)
    ensures WindowAt(s.windows, key, now) == OpenWindow(s, key, now)
  {
  }

  /**
   Each request is charged to its own bucket and to no other: it is refused exactly if that bucket's window is used up,
   and told the least whole number of seconds greater than those left; else it adds one to the window. A bucket that a
   token starts belongs to its address.
   */
  lemma GuardCharges(s: State, r: Request, lim: Limits, now: real, later: real)
    requires Inv(s, lim)
    ensures var key, (u, verdict) := ChargedTo(s, r, lim.cap), Guard(s, r, lim, now, later);
            var w := OpenWindow(s, key, now);
            && (verdict.Refused? <==> w.count >= lim.limit)
            && (verdict.Refused? ==>
                  && u.windows == s.windows[key := w]
                  && (verdict.retryAfter - 1) as real <= w.started + 60.0 - now < verdict.retryAfter as real)
            && (verdict.Admitted? && |s.windows[key := w]| <= lim.maxTracked ==>
                  u.windows == s.windows[key := Window(w.started, w.count + 1)])
            && (verdict.Refused? || |s.windows[key := w]| <= lim.maxTracked ==>
                  && u.order != [] && u.order[|u.order| - 1] == key
                  && u.owners == if Mints(s, r, lim.cap) then s.owners[r.candidate.value := r.address] else s.owners)
  {
    hide Inv, Trim, Owned, CountsMatch, Without, EnforceCap, Mints, ChargedTo, OpenWindow, WindowAt, KeyFor;
    var key := ChargedTo(s, r, lim.cap);
    var w := OpenWindow(s, key, now);
    BooksAgree(s, lim);
    KeyIsCharged(s, r, lim.cap);
    WindowIsOpen(s, key, now);
    var (u, _, _) := Touched(s, r, lim, now);
    assert u.windows == s.windows[key := w];
    if w.count < lim.limit && |s.windows[key := w]| <= lim.maxTracked {
      var placed := Place(u, key, OneMore(w));
      assert placed.windows == s.windows[key := OneMore(w)];
      SameSize(s.windows[key := w], key, OneMore(w));
      assert s.windows[key := w][key := OneMore(w)] == s.windows[key := OneMore(w)];
      SmallIsNotCut(placed, lim.maxTracked, later);
    }
  }

  lemma BooksAgree(s: State, lim: Limits)
    requires Inv(s, lim)
    ensures CountsMatch(s.owners, s.counts)
  {
  }

  // ---- The buckets

  class RateLimitBuckets {
    const limits: Limits
    var order: seq<string>
    var windows: map<string, Window>
    var owners: map<string, string>
    var counts: map<string, int>

    constructor (limits: Limits)
      requires limits.limit >= 1 && limits.maxTracked >= 0 && limits.cap >= 0
      ensures this.limits == limits && Now() == EMPTY && Inv(Now(), limits)
    {
      this.limits := limits;
      order, windows, owners, counts := [], map[], map[], map[];
      new;
      forall a: string ensures Owned(owners, a) == {} {
      }
    }

    function Now(): State
      reads this
    {
      State(order, windows, owners, counts)
    }

    method EvictKey(key: string)
      modifies this
      ensures Now() == Evict(old(Now()), key)
    {
      order, windows := Without(order, key), windows - {key};
      if key in owners {
        var address := owners[key];
        owners := owners - {key};
        var remaining := CountOf(counts, address, 1) - 1;
        if remaining <= 0 {
          counts := counts - {address};
        } else {
          counts := counts[address := remaining];
        }
      }
    }

    method KeyOf(r: Request) returns (key: string)
      modifies this`owners, this`counts
      ensures (Now(), key) == KeyFor(old(Now()), r, limits.cap)
    {
      if r.candidate.None? {
        return r.address;
      }
      key := r.candidate.value;
      if key in windows {
        return;
      }
      if CountOf(counts, r.address, 0) >= limits.cap {
        return r.address;
      }
      owners := owners[key := r.address];
      counts := counts[r.address := CountOf(counts, r.address, 0) + 1];
    }

    method Touch(key: string, now: real) returns (w: Window)
      modifies this`order, this`windows
      ensures w == WindowAt(old(windows), key, now) && Now() == Place(old(Now()), key, w)
    {
      w := if key in windows then windows[key] else Window(now, 0);
      if now - w.started >= WINDOW_SECONDS {
        w := Window(now, 0);
      }
      windows := windows[key := w];
      order := Without(order, key) + [key];
    }

    /** Evict every rolled window, then the least recently used until the map fits. */
    method Enforce(later: real)
      requires Books(Now(), limits.cap) && owners.Keys <= windows.Keys && limits.maxTracked >= 0
      modifies this
      ensures Now() == EnforceCap(old(Now()), limits.maxTracked, later) && Inv(Now(), limits)
    {
      EnforceKeeps(Now(), limits, later);
      if |windows| <= limits.maxTracked {
        return;
      }
      var stale := StaleKeys(order, windows, later);
      EvictStale(stale);
      TrimToCap();
    }

    method EvictStale(stale: seq<string>)
      requires Books(Now(), limits.cap) && owners.Keys <= windows.Keys
      modifies this
      ensures Now() == EvictAll(old(Now()), stale) && Books(Now(), limits.cap) && owners.Keys <= windows.Keys
    {
      for i := 0 to |stale|
        invariant Now() == EvictAll(old(Now()), stale[..i])
      {
        assert stale[..i + 1][..i] == stale[..i];
        EvictKey(stale[i]);
      }
      assert stale[..|stale|] == stale;
      EvictAllKeeps(old(Now()), stale, limits.cap);
    }

    method TrimToCap()
      requires Books(Now(), limits.cap) && owners.Keys <= windows.Keys && limits.maxTracked >= 0
      modifies this
      ensures Now() == Trim(old(Now()), limits.maxTracked)
    {
      while |windows| > limits.maxTracked
        invariant Books(Now(), limits.cap) && owners.Keys <= windows.Keys
        invariant Trim(Now(), limits.maxTracked) == Trim(old(Now()), limits.maxTracked)
        decreases |order|
      {
        OrderCounts(order, windows);
        EvictKeeps(Now(), order[0], limits.cap);
        WithoutShrinks(order);
        EvictKey(order[0]);
      }
    }

    /** record, with one more request in the window. */
    method Record(key: string, w: Window, later: real)
      requires Books(Now(), limits.cap) && owners.Keys <= windows.Keys && limits.maxTracked >= 0
      modifies this
      ensures Now() == EnforceCap(Place(old(Now()), key, OneMore(w)), limits.maxTracked, later)
    {
      PlaceKeeps(Now(), key, OneMore(w), limits.cap);
      PlacedOwners(Now(), key, OneMore(w));
      windows := windows[key := OneMore(w)];
      order := Without(order, key) + [key];
      Enforce(later);
    }

    /** The guard on one request that is not exempt. */
    method Admit(r: Request, now: real, later: real) returns (verdict: Verdict)
      requires Inv(Now(), limits) && limits.limit >= 1 && limits.maxTracked >= 0
      modifies this
      ensures (Now(), verdict) == Guard(old(Now()), r, limits, now, later) && Inv(Now(), limits)
    {
      GuardKeeps(Now(), r, limits, now, later);
      TouchedMeans(Now(), r, limits, now);
      var key := KeyOf(r);
      var w := Touch(key, now);
      if w.count >= limits.limit {
        return Refused(RetryAfter(w, now));
      }
      Record(key, w, later);
      verdict := Admitted;
    }
  }
}
