/** The in-process counter store, mutated in place, and the three checks that drive it. */
module ThrottleStore {
  import opened Keys
  import opened Throttle

  class InMemoryStore {
    var counters: Counters
    const maxKeys: int

    constructor (cap: int)
      ensures counters == map[] && maxKeys == (if cap < 1 then 1 else cap)
    {
      counters := map[];
      maxKeys := if cap < 1 then 1 else cap;
    }

    method Prune(now: real)
      modifies this
      ensures counters == Pruned(old(counters), maxKeys, now)
    {
      if |counters| <= maxKeys {
        return;
      }
      counters := map k | k in counters && counters[k].expires > now :: counters[k];
      if |counters| > maxKeys {
        counters := map[];
      }
    }

    method Bump(key: string, ttl: int, now: real) returns (count: nat)
      requires maxKeys >= 1
      modifies this
      ensures (count, counters) == Increment(old(counters), maxKeys, key, ttl, now)
      ensures |counters| <= maxKeys + 1
    {
      SizeIsBounded(counters, maxKeys, key, ttl, now);
      Prune(now);
      var found := if key in counters then counters[key] else Counter(0, 0.0);
      var seen, expires := found.count, found.expires;
      if expires <= now {
        seen, expires := 0, now + ttl as real;
      }
      counters := counters[key := Counter(seen + 1, expires)];
      return seen + 1;
    }
  }

  datatype InboundPolicy = InboundPolicy(window: int, maxUpdates: int, erasureMaxUpdates: int)
  {
    predicate Valid() { window >= 1 && maxUpdates >= 1 && erasureMaxUpdates >= 1 }
  }

  datatype Verdict = Verdict(isAllowed: bool, count: nat, retryAfter: int)

  const FAILED_OPEN := Verdict(true, 0, 0)

  // The answer a count earns under a ceiling.
  function Judged(count: nat, limit: int, wall: real, window: int): Verdict
    requires window >= 1
  {
    Verdict(count <= limit, count, SecondsLeft(wall, window))
  }

  // The checks of one counter among the first n.
  function Alike(checks: seq<Check>, n: nat, k: CounterKey): set<int>
    requires n <= |checks|
  {
    set i | 0 <= i < n && checks[i].key == k
  }

  lemma AlikeGrows(checks: seq<Check>, n: nat, k: CounterKey)
    requires n < |checks|
    ensures |Alike(checks, n + 1, k)| == |Alike(checks, n, k)| + if checks[n].key == k then 1 else 0
  {
    assert Alike(checks, n + 1, k) == if checks[n].key == k then Alike(checks, n, k) + {n} else Alike(checks, n, k);
  }

  lemma {:induction false} CountIsSize(checks: seq<Check>, n: nat, k: CounterKey)
    requires n <= |checks|
    ensures Count(checks[..n], k) == |Alike(checks, n, k)|
  {
    if n == 0 {
      assert Alike(checks, 0, k) == {};
    } else {
      CountIsSize(checks, n - 1, k);
      AlikeGrows(checks, n - 1, k);
      assert checks[..n][..n - 1] == checks[..n - 1];
    }
    hide Alike;
  }

  lemma LastIsCounted(checks: seq<Check>, calls: seq<Call>, n: nat, window: int, offset: real, maxKeys: int)
    requires Made(checks, calls, window, offset) && Drops(calls, maxKeys) == 0 && n < |checks|
    ensures Answer(calls[..n + 1], maxKeys) == |Alike(checks, n + 1, checks[n].key)|
  {
    hide Answer, Allowed, CounterText, WindowIndex, Alike, Count;
    MadeBefore(checks, calls, n + 1, window, offset);
    DropsGrow(calls, maxKeys, n + 1);
    CeilingIsExact(checks[..n + 1], calls[..n + 1], checks[n].key, window, offset, 1, maxKeys);
    CountIsSize(checks, n + 1, checks[n].key);
  }

  /**
   * Over every run of checks short of a full drop: a check is let through if and only if it and those
   * before it on its own counter are no more than the ceiling, and the wait a refusal names is the whole
   * number of seconds after which the next window opens, and no later.
   */
  lemma VerdictIsExact(checks: seq<Check>, calls: seq<Call>, n: nat, window: int, offset: real, limit: int, maxKeys: int)
    requires Made(checks, calls, window, offset) && Drops(calls, maxKeys) == 0 && n < |checks|
    ensures var wall, v := checks[n].wall, Judged(Answer(calls[..n + 1], maxKeys), limit, checks[n].wall, window);
      && v.count == |Alike(checks, n + 1, checks[n].key)| && (v.isAllowed <==> v.count <= limit)
      && 1 <= v.retryAfter <= window
      && WindowIndex(wall + v.retryAfter as real, window) == checks[n].key.window + 1
      && WindowIndex(wall + (v.retryAfter - 1) as real, window) == checks[n].key.window
  {
    hide Answer, Drops, Alike, WindowIndex, SecondsLeft, CounterText;
    LastIsCounted(checks, calls, n, window, offset, maxKeys);
    RetryAfterIsExact(checks[n].wall, window);
  }

  /** `fails` is the store raising; the update is then allowed and nothing is counted. */
  method CheckUpdateRate(store: InMemoryStore, user: int, wall: real, mono: real, p: InboundPolicy, fails: bool)
    returns (v: Verdict)
    requires p.Valid() && store.maxKeys >= 1
    modifies store
    ensures fails ==> v == FAILED_OPEN && store.counters == old(store.counters)
    ensures !fails ==>
      var key := CounterText(Updates(WindowIndex(wall, p.window), user));
      var (count, after) := Increment(old(store.counters), store.maxKeys, key, p.window, mono);
      store.counters == after && v == Judged(count, p.maxUpdates, wall, p.window)
      && (v.isAllowed <==> v.count <= p.maxUpdates)
  {
    if fails {
      return FAILED_OPEN;
    }
    var count := store.Bump(CounterText(Updates(WindowIndex(wall, p.window), user)), p.window, mono);
    return Verdict(count <= p.maxUpdates, count, SecondsLeft(wall, p.window));
  }

  /** The data-subject commands have a budget of their own. */
  method CheckErasureRate(store: InMemoryStore, user: int, wall: real, mono: real, p: InboundPolicy, fails: bool)
    returns (v: Verdict)
    requires p.Valid() && store.maxKeys >= 1
    modifies store
    ensures fails ==> v == FAILED_OPEN && store.counters == old(store.counters)
    ensures !fails ==>
      var key := CounterText(Erasures(WindowIndex(wall, p.window), user));
      var (count, after) := Increment(old(store.counters), store.maxKeys, key, p.window, mono);
      store.counters == after && v == Judged(count, p.erasureMaxUpdates, wall, p.window)
      && (v.isAllowed <==> v.count <= p.erasureMaxUpdates)
  {
    if fails {
      return FAILED_OPEN;
    }
    var count := store.Bump(CounterText(Erasures(WindowIndex(wall, p.window), user)), p.window, mono);
    return Verdict(count <= p.erasureMaxUpdates, count, SecondsLeft(wall, p.window));
  }

  /** One notice per purpose, account and window; a store that fails lets it be said again. */
  method ClaimNotice(store: InMemoryStore, user: int, purpose: string, wall: real, mono: real, p: InboundPolicy, fails: bool)
    returns (speak: bool)
    requires p.Valid() && store.maxKeys >= 1
    modifies store
    ensures fails ==> speak && store.counters == old(store.counters)
    ensures !fails ==>
      var key := CounterText(Notices(purpose, WindowIndex(wall, p.window), user));
      var (count, after) := Increment(old(store.counters), store.maxKeys, key, p.window, mono);
      store.counters == after && (speak <==> count <= 1)
  {
    if fails {
      return true;
    }
    var count := store.Bump(CounterText(Notices(purpose, WindowIndex(wall, p.window), user)), p.window, mono);
    return count <= 1;
  }
}
