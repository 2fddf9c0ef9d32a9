/**
 * The inbound throttle: a map of window counters that forgets, and what it nevertheless
 * promises. Clocks are real seconds; `wall` names the window, `mono` decides expiry.
 */
module Throttle {
  import opened Counting
  import opened Keys

  datatype Counter = Counter(count: nat, expires: real)

  type Counters = map<string, Counter>

  // ---- the store ------------------------------------------------------------------------

  function Unexpired(m: Counters, now: real): (kept: Counters)
    ensures forall k :: k in kept <==> k in m && m[k].expires > now
  {
    map k | k in m && m[k].expires > now :: m[k]
  }

  // The second stage of the prune, in which every window starts over.
  predicate Overflows(m: Counters, maxKeys: int, now: real) {
    |m| > maxKeys && |Unexpired(m, now)| > maxKeys
  }

  function Pruned(m: Counters, maxKeys: int, now: real): Counters {
    if |m| <= maxKeys then m
    else if Overflows(m, maxKeys, now) then map[]
    else Unexpired(m, now)
  }

  /** One increment on a map nobody prunes. */
  function Bumped(m: Counters, key: string, ttl: int, now: real): (nat, Counters) {
    var found := if key in m then m[key] else Counter(0, 0.0);
    var armed := if found.expires <= now then Counter(0, now + ttl as real) else found;
    (armed.count + 1, m[key := Counter(armed.count + 1, armed.expires)])
  }

  function Increment(m: Counters, maxKeys: int, key: string, ttl: int, now: real): (nat, Counters) {
    Bumped(Pruned(m, maxKeys, now), key, ttl, now)
  }

  /** Whatever happened before, a call leaves at most one key more than the cap. */
  lemma SizeIsBounded(m: Counters, maxKeys: int, key: string, ttl: int, now: real)
    requires maxKeys >= 1
    ensures |Increment(m, maxKeys, key, ttl, now).1| <= maxKeys + 1
  {
    var p := Pruned(m, maxKeys, now);
    assert p[key := p[key := Counter(0, 0.0)][key]].Keys == p.Keys + {key};
    assert Increment(m, maxKeys, key, ttl, now).1.Keys == p.Keys + {key};
  }

  /**
   * When the map forgets, and what. A call that finds more than `maxKeys` counters still running drops
   * every one of them; any other call leaves them all standing, and answers one more than its own
   * counter stood at, or one if it has none running, whose time then starts.
   */
  lemma DropsAllExactlyWhen(m: Counters, maxKeys: int, key: string, ttl: int, now: real)
    requires maxKeys >= 1 && now >= 0.0
    ensures var running := set k | k in m && m[k].expires > now;
      var (answer, after) := Increment(m, maxKeys, key, ttl, now);
      && key in after && after[key].count == answer
      && (|running| > maxKeys ==> after == map[key := Counter(1, now + ttl as real)])
      && (|running| <= maxKeys ==>
            && (forall k :: k in running && k != key ==> k in after && after[k] == m[k])
            && after[key] == if key in running then Counter(m[key].count + 1, m[key].expires)
                             else Counter(1, now + ttl as real))
  {
    var running := set k | k in m && m[k].expires > now;
    assert Unexpired(m, now).Keys == running;
    assert |Unexpired(m, now)| == |running|;
    assert running <= m.Keys;
    SubsetSize(running, m.Keys);
    assert |m| == |m.Keys|;
  }

  // ---- runs of the store -------------------------------------------------------------------

  datatype Call = Call(key: string, ttl: int, now: real)

  function After(calls: seq<Call>, maxKeys: int): Counters {
    if calls == [] then map[] else
      var last := calls[|calls| - 1];
      Increment(After(calls[..|calls| - 1], maxKeys), maxKeys, last.key, last.ttl, last.now).1
  }

  function Plain(calls: seq<Call>): Counters {
    if calls == [] then map[] else
      var last := calls[|calls| - 1];
      Bumped(Plain(calls[..|calls| - 1]), last.key, last.ttl, last.now).1
  }

  /** What the last of these calls was answered. */
  function Answer(calls: seq<Call>, maxKeys: int): nat
    requires calls != []
  {
    var last := calls[|calls| - 1];
    Increment(After(calls[..|calls| - 1], maxKeys), maxKeys, last.key, last.ttl, last.now).0
  }

  function PlainAnswer(calls: seq<Call>): nat
    requires calls != []
  {
    var last := calls[|calls| - 1];
    Bumped(Plain(calls[..|calls| - 1]), last.key, last.ttl, last.now).0
  }

  ghost predicate Timely(calls: seq<Call>) {
    && (forall i :: 0 <= i < |calls| ==> calls[i].now >= 0.0)
    && (forall i, j :: 0 <= i < j < |calls| ==> calls[i].now <= calls[j].now)
  }

  // How many of these calls dropped the whole map.
  function Drops(calls: seq<Call>, maxKeys: int): nat {
    if calls == [] then 0 else
      var n := |calls| - 1;
      Drops(calls[..n], maxKeys) + (if Overflows(After(calls[..n], maxKeys), maxKeys, calls[n].now) then 1 else 0)
  }

  // The pruned map is the plain one less entries that are already dead.
  ghost predicate Shadows(m: Counters, plain: Counters, now: real) {
    && (forall k :: k in m ==> k in plain && m[k] == plain[k])
    && (forall k :: k in plain && k !in m ==> plain[k].expires <= now)
  }

  lemma ShadowStep(m: Counters, plain: Counters, maxKeys: int, c: Call)
    requires Shadows(m, plain, c.now) && !Overflows(m, maxKeys, c.now) && c.now >= 0.0
    ensures Increment(m, maxKeys, c.key, c.ttl, c.now).0 == Bumped(plain, c.key, c.ttl, c.now).0
    ensures Shadows(Increment(m, maxKeys, c.key, c.ttl, c.now).1, Bumped(plain, c.key, c.ttl, c.now).1, c.now)
  {
  }

  lemma {:induction false} PruningKeepsShadow(calls: seq<Call>, maxKeys: int, now: real)
    requires Timely(calls) && Drops(calls, maxKeys) == 0
    requires calls != [] ==> calls[|calls| - 1].now <= now
    ensures Shadows(After(calls, maxKeys), Plain(calls), now)
    ensures calls != [] ==> Answer(calls, maxKeys) == PlainAnswer(calls)
  {
    if calls != [] {
      var n := |calls| - 1;
      PruningKeepsShadow(calls[..n], maxKeys, calls[n].now);
      ShadowStep(After(calls[..n], maxKeys), Plain(calls[..n]), maxKeys, calls[n]);
    }
  }

  /** Short of a full drop, pruning is unobservable: every call is answered as if nothing were forgotten. */
  lemma PruningIsUnobservable(calls: seq<Call>, maxKeys: int, n: nat)
    requires Timely(calls) && Drops(calls, maxKeys) == 0 && n < |calls|
    ensures Answer(calls[..n + 1], maxKeys) == PlainAnswer(calls[..n + 1])
  {
    DropsGrow(calls, maxKeys, n + 1);
    PruningKeepsShadow(calls[..n + 1], maxKeys, calls[n].now);
  }

  lemma {:induction false} DropsGrow(calls: seq<Call>, maxKeys: int, n: nat)
    requires n <= |calls|
    ensures Drops(calls[..n], maxKeys) <= Drops(calls, maxKeys)
    decreases |calls|
  {
    if n == |calls| {
      assert calls[..n] == calls;
    } else {
      DropsGrow(calls[..|calls| - 1], maxKeys, n);
      assert calls[..|calls| - 1][..n] == calls[..n];
    }
  }

  // ---- windows ---------------------------------------------------------------------------------

  // int(now.timestamp()) truncates toward zero; `//` and `%` floor.
  function Seconds(wall: real): int {
    if wall >= 0.0 then wall.Floor else -((-wall).Floor)
  }

  function WindowIndex(wall: real, window: int): int
    requires window >= 1
  {
    Seconds(wall) / window
  }

  function SecondsLeft(wall: real, window: int): int
    requires window >= 1
  {
    window - Seconds(wall) % window
  }

  lemma WindowContains(wall: real, window: int)
    requires window >= 1 && wall >= 0.0
    ensures var w := WindowIndex(wall, window);
      (w * window) as real <= wall < (w * window + window) as real
  {
    assert Seconds(wall) == WindowIndex(wall, window) * window + Seconds(wall) % window;
  }

  lemma WindowOf(wall: real, window: int, w: int)
    requires window >= 1 && wall >= 0.0 && (w * window) as real <= wall < (w * window + window) as real
    ensures WindowIndex(wall, window) == w
  {
    var s := Seconds(wall);
    assert w * window <= s < w * window + window;
    DivisionIsUnique(s, window, w);
  }

  lemma DivisionIsUnique(s: int, window: int, w: int)
    requires window >= 1 && w * window <= s < w * window + window
    ensures s / window == w
  {
    var q := s / window;
    assert q * window <= s < q * window + window;
    if q < w {
      TimesMonotone(q + 1, w, window);
    } else if q > w {
      TimesMonotone(w + 1, q, window);
    }
  }

  /** The advice in a refusal is exact: after that many seconds, and no fewer, the next window opens. */
  lemma RetryAfterIsExact(wall: real, window: int)
    requires window >= 1 && wall >= 0.0
    ensures 1 <= SecondsLeft(wall, window) <= window
    ensures WindowIndex(wall + SecondsLeft(wall, window) as real, window) == WindowIndex(wall, window) + 1
    ensures WindowIndex(wall + (SecondsLeft(wall, window) - 1) as real, window) == WindowIndex(wall, window)
  {
    var w, s, left := WindowIndex(wall, window), Seconds(wall), SecondsLeft(wall, window);
    assert s == w * window + s % window;
    assert (w + 1) * window == w * window + window;
    WindowOf(wall + left as real, window, w + 1);
    WindowOf(wall + (left - 1) as real, window, w);
  }

  // ---- runs of the throttle ----------------------------------------------------------------------

  datatype Check = Check(key: CounterKey, wall: real, mono: real)

  /**
   * These checks made these store calls: each on its own window's key, with the window as
   * its time to live, under two clocks that advance together.
   */
  ghost predicate Made(checks: seq<Check>, calls: seq<Call>, window: int, offset: real) {
    && window >= 1 && |calls| == |checks| && Timely(calls)
    && (forall i :: 0 <= i < |checks| ==>
          && calls[i] == Call(CounterText(checks[i].key), window, checks[i].mono)
          && checks[i].wall == checks[i].mono + offset && checks[i].wall >= 0.0
          && checks[i].key.window == WindowIndex(checks[i].wall, window))
  }

  function Count(checks: seq<Check>, k: CounterKey): nat {
    if checks == [] then 0 else
      Count(checks[..|checks| - 1], k) + (if checks[|checks| - 1].key == k then 1 else 0)
  }

  /** How many checks of one counter came in at or under the limit. */
  function Allowed(checks: seq<Check>, calls: seq<Call>, k: CounterKey, limit: nat, maxKeys: int): nat
    requires |calls| == |checks|
  {
    if checks == [] then 0 else
      var n := |checks| - 1;
      Allowed(checks[..n], calls[..n], k, limit, maxKeys)
      + (if checks[n].key == k && Answer(calls, maxKeys) <= limit then 1 else 0)
  }

  // No counter dies inside its own window, so its entry holds the exact count.
  ghost predicate Exact(m: Counters, checks: seq<Check>, k: CounterKey, window: int, offset: real) {
    if Count(checks, k) == 0 then CounterText(k) !in m
    else CounterText(k) in m && m[CounterText(k)].count == Count(checks, k)
         && m[CounterText(k)].expires + offset >= (k.window * window + window) as real
  }

  lemma ExactStep(m: Counters, checks: seq<Check>, c: Check, k: CounterKey, window: int, offset: real)
    requires Exact(m, checks, k, window, offset) && Exact(m, checks, c.key, window, offset) && window >= 1
    requires c.mono >= 0.0 && c.wall == c.mono + offset && c.wall >= 0.0 && c.key.window == WindowIndex(c.wall, window)
    ensures Exact(Bumped(m, CounterText(c.key), window, c.mono).1, checks + [c], k, window, offset)
    ensures Bumped(m, CounterText(c.key), window, c.mono).0 == Count(checks, c.key) + 1
  {
    hide CounterText, WindowIndex;
    assert (checks + [c])[..|checks|] == checks;
    WindowContains(c.wall, window);
    if CounterText(k) == CounterText(c.key) { CounterTextInjective(k, c.key); }
  }

  lemma {:induction false} PlainIsExact(checks: seq<Check>, calls: seq<Call>, k: CounterKey,
                                        window: int, offset: real)
    requires Made(checks, calls, window, offset)
    ensures Exact(Plain(calls), checks, k, window, offset)
    ensures checks != [] ==> PlainAnswer(calls) == Count(checks, checks[|checks| - 1].key)
  {
    if checks != [] {
      var n := |checks| - 1;
      PlainIsExact(checks[..n], calls[..n], k, window, offset);
      PlainIsExact(checks[..n], calls[..n], checks[n].key, window, offset);
      assert checks[..n] + [checks[n]] == checks;
      ExactStep(Plain(calls[..n]), checks[..n], checks[n], k, window, offset);
    }
  }

  /**
   * Short of a full drop, the n-th check of a counter is answered n, refused ones included;
   * so of any number of checks exactly the first `limit` are let through.
   */
  lemma {:induction false} CeilingIsExact(checks: seq<Check>, calls: seq<Call>, k: CounterKey,
                                          window: int, offset: real, limit: nat, maxKeys: int)
    requires Made(checks, calls, window, offset) && Drops(calls, maxKeys) == 0
    ensures checks != [] ==> Answer(calls, maxKeys) == Count(checks, checks[|checks| - 1].key)
    ensures Allowed(checks, calls, k, limit, maxKeys)
         == if Count(checks, k) <= limit then Count(checks, k) else limit
  {
    hide CounterText, WindowIndex, Answer, PlainAnswer, Exact, Shadows, Plain, After, Overflows;
    if checks != [] {
      var n := |checks| - 1;
      CeilingIsExact(checks[..n], calls[..n], k, window, offset, limit, maxKeys);
      PlainIsExact(checks, calls, k, window, offset);
      PruningKeepsShadow(calls, maxKeys, calls[n].now);
    }
  }

  /**
   * One notice per purpose, account and window, over every run short of a full drop: the first
   * claim speaks and no later one does, whatever other purposes, accounts and checks come between.
   */
  lemma {:induction false} NoticeIsSaidOnce(checks: seq<Check>, calls: seq<Call>, n: nat, window: int, offset: real,
                                            maxKeys: int)
    requires Made(checks, calls, window, offset) && Drops(calls, maxKeys) == 0 && n < |checks| && checks[n].key.Notices?
    ensures Answer(calls[..n + 1], maxKeys) <= 1 <==> forall i :: 0 <= i < n ==> checks[i].key != checks[n].key
    ensures Allowed(checks, calls, checks[n].key, 1, maxKeys) == 1
  {
    hide Answer, Allowed, CounterText, WindowIndex;
    var k := checks[n].key;
    MadeBefore(checks, calls, n + 1, window, offset);
    DropsGrow(calls, maxKeys, n + 1);
    CeilingIsExact(checks[..n + 1], calls[..n + 1], k, window, offset, 1, maxKeys);
    CeilingIsExact(checks, calls, k, window, offset, 1, maxKeys);
    assert checks[..n + 1][..n] == checks[..n];
    CountsThem(checks[..n], k);
    CountsThem(checks, k);
    assert forall i :: 0 <= i < n ==> checks[..n][i] == checks[i];
  }

  lemma MadeBefore(checks: seq<Check>, calls: seq<Call>, n: nat, window: int, offset: real)
    requires Made(checks, calls, window, offset) && n <= |checks|
    ensures Made(checks[..n], calls[..n], window, offset)
  {
  }

  lemma {:induction false} CountsThem(checks: seq<Check>, k: CounterKey)
    ensures Count(checks, k) == 0 <==> forall i :: 0 <= i < |checks| ==> checks[i].key != k
  {
    if checks != [] {
      var n := |checks| - 1;
      CountsThem(checks[..n], k);
      assert forall i :: 0 <= i < n ==> checks[..n][i] == checks[i];
    }
  }

  // The counters of one budget, window by window: one account's updates, its erasure
  // requests, or its notices of one purpose.
  predicate SameBudget(a: CounterKey, b: CounterKey) { a.(window := b.window) == b }

  /** Checks of one budget let through between `from` and one window length later. */
  function AllowedInSpan(checks: seq<Check>, calls: seq<Call>, k: CounterKey, from: real, window: int,
                         limit: nat, maxKeys: int): nat
    requires |calls| == |checks|
  {
    if checks == [] then 0 else
      var n := |checks| - 1;
      AllowedInSpan(checks[..n], calls[..n], k, from, window, limit, maxKeys)
      + (if SameBudget(checks[n].key, k) && from <= checks[n].wall <= from + window as real
            && Answer(calls, maxKeys) <= limit then 1 else 0)
  }

  lemma SpanTouchesTwoWindows(wall: real, from: real, window: int)
    requires window >= 1 && 0.0 <= from <= wall <= from + window as real
    ensures WindowIndex(wall, window) in {WindowIndex(from, window), WindowIndex(from, window) + 1}
  {
    var w := WindowIndex(from, window);
    WindowContains(from, window);
    assert (w + 1) * window == w * window + window;
    if wall < (w * window + window) as real {
      WindowOf(wall, window, w);
    } else {
      WindowOf(wall, window, w + 1);
    }
  }

  lemma {:induction false} SpanSplits(checks: seq<Check>, calls: seq<Call>, k: CounterKey, from: real,
                                      window: int, offset: real, limit: nat, maxKeys: int)
    requires Made(checks, calls, window, offset) && from >= 0.0
    ensures var w := WindowIndex(from, window);
      AllowedInSpan(checks, calls, k, from, window, limit, maxKeys)
      <= Allowed(checks, calls, k.(window := w), limit, maxKeys) + Allowed(checks, calls, k.(window := w + 1), limit, maxKeys)
  {
    hide CounterText, WindowIndex, Answer;
    if checks != [] {
      var n := |checks| - 1;
      SpanSplits(checks[..n], calls[..n], k, from, window, offset, limit, maxKeys);
      if from <= checks[n].wall <= from + window as real {
        SpanTouchesTwoWindows(checks[n].wall, from, window);
      }
    }
  }

  /**
   * The burst bound: in no span of one window length does an account get more than twice a
   * budget's ceiling through, be it updates, erasure requests or one purpose's notices.
   */
  lemma BurstBound(checks: seq<Check>, calls: seq<Call>, k: CounterKey, from: real, window: int, offset: real,
                   limit: nat, maxKeys: int)
    requires Made(checks, calls, window, offset) && from >= 0.0 && Drops(calls, maxKeys) == 0
    ensures AllowedInSpan(checks, calls, k, from, window, limit, maxKeys) <= 2 * limit
  {
    hide CounterText, WindowIndex, Answer, AllowedInSpan, Allowed, Drops, Count;
    var w := WindowIndex(from, window);
    SpanSplits(checks, calls, k, from, window, offset, limit, maxKeys);
    CeilingIsExact(checks, calls, k.(window := w), window, offset, limit, maxKeys);
    CeilingIsExact(checks, calls, k.(window := w + 1), window, offset, limit, maxKeys);
  }

  // ---- full drops ------------------------------------------------------------------------------------

  // What the map still remembers of a counter.
  function Remembered(m: Counters, k: CounterKey): nat {
    if CounterText(k) in m then m[CounterText(k)].count else 0
  }

  // A counter whose window is not over outlives every prune but the full drop.
  ghost predicate OutlivesWindow(m: Counters, window: int, offset: real, k: CounterKey) {
    CounterText(k) in m ==> m[CounterText(k)].expires + offset >= (k.window * window + window) as real
  }

  ghost predicate DropBound(checks: seq<Check>, calls: seq<Call>, k: CounterKey, window: int, offset: real,
                            limit: nat, maxKeys: int)
    requires |calls| == |checks| && window >= 1
  {
    var m, d := After(calls, maxKeys), Drops(calls, maxKeys);
    var allowed := Allowed(checks, calls, k, limit, maxKeys);
    && OutlivesWindow(m, window, offset, k)
    && allowed <= limit * d + limit
    && (checks == [] || k.window >= WindowIndex(checks[|checks| - 1].wall, window) ==>
          allowed <= limit * d + (if Remembered(m, k) < limit then Remembered(m, k) else limit))
  }

  // One increment, seen by one counter of an unfinished window.
  lemma DropStepAtStore(m: Counters, maxKeys: int, c: Check, k: CounterKey, window: int, offset: real)
    requires window >= 1 && OutlivesWindow(m, window, offset, k) && OutlivesWindow(m, window, offset, c.key)
    requires c.mono >= 0.0 && c.wall == c.mono + offset && c.wall >= 0.0 && c.key.window == WindowIndex(c.wall, window)
    ensures var (answer, after) := Increment(m, maxKeys, CounterText(c.key), window, c.mono);
      && OutlivesWindow(after, window, offset, k)
      && (k == c.key ==> answer == Remembered(after, k))
      && (k.window >= c.key.window ==>
            Remembered(after, k) == (if Overflows(m, maxKeys, c.mono) then 0 else Remembered(m, k))
                                    + (if k == c.key then 1 else 0))
  {
    hide CounterText, WindowIndex;
    WindowContains(c.wall, window);
    if CounterText(k) == CounterText(c.key) { CounterTextInjective(k, c.key); }
    if k.window >= c.key.window { TimesMonotone(c.key.window, k.window, window); }
  }

  lemma DropStep(checks: seq<Check>, calls: seq<Call>, k: CounterKey, window: int, offset: real,
                 limit: nat, maxKeys: int)
    requires checks != [] && Made(checks, calls, window, offset) && limit >= 1
    requires var n := |checks| - 1;
      && DropBound(checks[..n], calls[..n], k, window, offset, limit, maxKeys)
      && OutlivesWindow(After(calls[..n], maxKeys), window, offset, checks[n].key)
    ensures DropBound(checks, calls, k, window, offset, limit, maxKeys)
  {
    hide CounterText, WindowIndex, Increment, OutlivesWindow, Remembered, Overflows;
    var n := |checks| - 1;
    DropStepAtStore(After(calls[..n], maxKeys), maxKeys, checks[n], k, window, offset);
    var d := Drops(calls[..n], maxKeys);
    assert limit * (d + 1) == limit * d + limit;
    if n > 0 { WindowsAdvance(checks[n - 1].wall, checks[n].wall, window); }
  }

  lemma WindowsAdvance(earlier: real, later: real, window: int)
    requires window >= 1 && 0.0 <= earlier <= later
    ensures WindowIndex(earlier, window) <= WindowIndex(later, window)
  {
    var a, b := WindowIndex(earlier, window), WindowIndex(later, window);
    WindowContains(earlier, window);
    WindowContains(later, window);
    if b < a {
      TimesMonotone(b + 1, a, window);
    }
  }

  /**
   * In every run, each full drop gives any one counter, of updates, erasure requests or notices,
   * at most one more allowance in its window.
   */
  lemma {:induction false} EachDropAddsOneAllowance(checks: seq<Check>, calls: seq<Call>, k: CounterKey,
                                                    window: int, offset: real, limit: nat, maxKeys: int)
    requires Made(checks, calls, window, offset) && limit >= 1
    ensures DropBound(checks, calls, k, window, offset, limit, maxKeys)
    ensures Allowed(checks, calls, k, limit, maxKeys) <= limit * (Drops(calls, maxKeys) + 1)
  {
    hide CounterText, WindowIndex;
    if checks != [] {
      var n := |checks| - 1;
      EachDropAddsOneAllowance(checks[..n], calls[..n], k, window, offset, limit, maxKeys);
      EachDropAddsOneAllowance(checks[..n], calls[..n], checks[n].key, window, offset, limit, maxKeys);
      DropStep(checks, calls, k, window, offset, limit, maxKeys);
    }
    assert limit * (Drops(calls, maxKeys) + 1) == limit * Drops(calls, maxKeys) + limit;
  }
}
