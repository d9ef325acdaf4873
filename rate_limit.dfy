/**
 * The fixed-window rate limiter of lib/rate-limit.ts.
 *
 * The remote key-value store is a map from key to a counter with an optional
 * expiry time; the clock is an integer number of seconds passed in by the
 * caller. A key whose expiry time has been reached is absent, as in Redis.
 */
module RateLimit {
  import opened Wrappers

  /** Requests allowed per window. */
  const Limit: int := 5
  /** Length of a window, in seconds. */
  const Window: int := 60
  /** Prefix of the per-client keys. */
  const KeyPrefix: string := "ratelimit:"

  /** One stored counter: its value and, once `EXPIRE` ran, its expiry time. */
  datatype Counter = Counter(count: nat, expiresAt: Option<int>)

  type Store = map<string, Counter>

  /** What `rateLimit` returns to its caller. */
  datatype Decision = Decision(success: bool, remaining: int)

  /** The store after one call, and the call's answer. */
  datatype LimitResult = LimitResult(counters: Store, success: bool, remaining: int)

  /** The key of one client. */
  function Key(ip: string): (k: string)
    ensures |k| == |KeyPrefix| + |ip| && k[..|KeyPrefix|] == KeyPrefix && k[|KeyPrefix|..] == ip
  {
    KeyPrefix + ip
  }

  /** Distinct clients never share a counter. */
  lemma KeyInjective(a: string, b: string)
    requires Key(a) == Key(b)
    ensures a == b
  {
    calc {
      a;
      Key(a)[|KeyPrefix|..];
      Key(b)[|KeyPrefix|..];
      b;
    }
  }

  /** A counter is still present at time `now` unless its expiry time has passed. */
  predicate Live(c: Counter, now: int) {
    c.expiresAt.None? || now < c.expiresAt.value
  }

  /** The key exists at time `now`. */
  predicate Present(m: Store, key: string, now: int) {
    key in m && Live(m[key], now)
  }

  /** The value `GET` would see: 0 for an absent or expired key. */
  function CountAt(m: Store, key: string, now: int): (n: nat)
    ensures key !in m ==> n == 0
    ensures key in m && Live(m[key], now) ==> n == m[key].count
  {
    if key in m && Live(m[key], now) then m[key].count else 0
  }

  /** The store after `INCR key`: a live key keeps its expiry, a new key has none. */
  function AfterIncr(m: Store, key: string, now: int): (r: Store)
    ensures r.Keys == m.Keys + {key}
    ensures forall k :: k in m && k != key ==> r[k] == m[k]
    ensures r[key].count == CountAt(m, key, now) + 1
    ensures !Present(m, key, now) ==> r[key].expiresAt.None?
    ensures Present(m, key, now) ==> r[key].expiresAt == m[key].expiresAt
  {
    m[key := Counter(CountAt(m, key, now) + 1, if Present(m, key, now) then m[key].expiresAt else None)]
  }

  /** The store after `EXPIRE key seconds`: a present key expires `seconds` from now; an absent key stays absent. */
  function AfterExpire(m: Store, key: string, seconds: int, now: int): (r: Store)
    ensures r.Keys == m.Keys
    ensures forall k :: k in m && k != key ==> r[k] == m[k]
    ensures Present(m, key, now) ==> r[key] == Counter(m[key].count, Some(now + seconds))
    ensures key in m && !Present(m, key, now) ==> r[key] == m[key]
  {
    if Present(m, key, now) then m[key := Counter(m[key].count, Some(now + seconds))] else m
  }

  /** The answer for a post-increment count of `requests`. */
  function Verdict(requests: int): (d: Decision)
    ensures d.success <==> requests <= Limit
    ensures d.remaining >= 0 && d.remaining >= Limit - requests
    ensures d.remaining == 0 || d.remaining == Limit - requests
    ensures d.remaining > 0 ==> d.success
    ensures requests >= 1 ==> d.remaining <= Limit - 1
  {
    Decision(requests <= Limit, if Limit - requests > 0 then Limit - requests else 0)
  }

  /** One call of `rateLimit(ip)` at time `now`, as a function of the store. */
  function LimitStep(m: Store, ip: string, now: int): (r: LimitResult)
    ensures r.counters.Keys == m.Keys + {Key(ip)}
    ensures forall k :: k in m && k != Key(ip) ==> r.counters[k] == m[k]
    ensures CountAt(r.counters, Key(ip), now) == CountAt(m, Key(ip), now) + 1
    ensures r.success <==> CountAt(m, Key(ip), now) + 1 <= Limit
    ensures 0 <= r.remaining <= Limit - 1
    ensures CountAt(m, Key(ip), now) + 1 <= Limit ==> r.remaining == Limit - (CountAt(m, Key(ip), now) + 1)
    ensures CountAt(m, Key(ip), now) + 1 >= Limit ==> r.remaining == 0
    ensures CountAt(m, Key(ip), now) == 0 ==> r.counters[Key(ip)] == Counter(1, Some(now + Window))
    ensures CountAt(m, Key(ip), now) != 0 ==> Present(m, Key(ip), now) && r.counters[Key(ip)].expiresAt == m[Key(ip)].expiresAt
  {
    var key := Key(ip);
    var incremented := AfterIncr(m, key, now);
    var requests := incremented[key].count;
    var counters := if requests == 1 then AfterExpire(incremented, key, Window, now) else incremented;
    var d := Verdict(requests);
    LimitResult(counters, d.success, d.remaining)
  }

  /** Another client's counter is the same before and after, at every time. */
  lemma OtherClientsUnaffected(m: Store, ip: string, other: string, now: int, t: int)
    requires other != ip
    ensures CountAt(LimitStep(m, ip, now).counters, Key(other), t) == CountAt(m, Key(other), t)
  {
    if Key(other) == Key(ip) {
      KeyInjective(other, ip);
    }
  }

  /** A sequence of calls by one client, at the given times. */
  function Run(m: Store, ip: string, times: seq<int>): (r: (Store, seq<Decision>))
    ensures |r.1| == |times|
    decreases |times|
  {
    if times == [] then (m, [])
    else
      var s := LimitStep(m, ip, times[0]);
      var rest := Run(s.counters, ip, times[1..]);
      (rest.0, [Decision(s.success, s.remaining)] + rest.1)
  }

  /**
   * Inside a window that opened at `start` and already holds `j` requests, the
   * k-th further call is the (j+k+1)-th of the window, and the window's expiry
   * is never moved.
   */
  lemma {:induction false} WindowContinues(m: Store, ip: string, start: int, j: int, times: seq<int>)
    requires j >= 1
    requires Key(ip) in m && m[Key(ip)] == Counter(j, Some(start + Window))
    requires forall i :: 0 <= i < |times| ==> times[i] < start + Window
    ensures var r := Run(m, ip, times);
      Key(ip) in r.0 && r.0[Key(ip)] == Counter(j + |times|, Some(start + Window)) &&
      forall k :: 0 <= k < |times| ==> (r.1[k].success <==> j + k + 1 <= Limit)
    decreases |times|
  {
    if times != [] {
      var s := LimitStep(m, ip, times[0]);
      assert CountAt(m, Key(ip), times[0]) == j;
      assert s.counters[Key(ip)] == Counter(j + 1, Some(start + Window));
      WindowContinues(s.counters, ip, start, j + 1, times[1..]);
      var r := Run(m, ip, times);
      forall k | 0 <= k < |times|
        ensures r.1[k].success <==> j + k + 1 <= Limit
      {
        if k > 0 {
          assert r.1[k] == Run(s.counters, ip, times[1..]).1[k - 1];
        }
      }
    }
  }

  /**
   * Calls by one client inside one window, starting from no live counter: the
   * first `Limit` calls are allowed and every later one is refused.
   */
  lemma {:induction false} FirstFiveAllowed(m: Store, ip: string, times: seq<int>)
    requires |times| > 0
    requires CountAt(m, Key(ip), times[0]) == 0
    requires forall i :: 0 <= i < |times| ==> times[0] <= times[i] < times[0] + Window
    ensures var r := Run(m, ip, times);
      Key(ip) in r.0 && r.0[Key(ip)] == Counter(|times|, Some(times[0] + Window)) &&
      forall k :: 0 <= k < |times| ==> (r.1[k].success <==> k < Limit)
  {
    var s := LimitStep(m, ip, times[0]);
    var rest := times[1..];
    WindowContinues(s.counters, ip, times[0], 1, rest);
    var r := Run(m, ip, times);
    forall k | 0 <= k < |times|
      ensures r.1[k].success <==> k < Limit
    {
      if k > 0 {
        assert r.1[k] == Run(s.counters, ip, rest).1[k - 1];
      }
    }
  }

  /**
   * Once the window that opened at `times[0]` has elapsed, the counter has
   * expired: the next call counts 1, is allowed and opens a new window.
   */
  lemma AllowedAgainAfterWindow(m: Store, ip: string, times: seq<int>, later: int)
    requires |times| > 0
    requires CountAt(m, Key(ip), times[0]) == 0
    requires forall i :: 0 <= i < |times| ==> times[0] <= times[i] < times[0] + Window
    requires later >= times[0] + Window
    ensures var s := LimitStep(Run(m, ip, times).0, ip, later);
      s.success && s.remaining == Limit - 1 && s.counters[Key(ip)] == Counter(1, Some(later + Window))
  {
    FirstFiveAllowed(m, ip, times);
  }

  /**
   * Every live counter expires at most one window after `now`. Sequential calls
   * of `rateLimit` keep this; a crash between `INCR` and `EXPIRE` would not.
   */
  predicate Bounded(m: Store, now: int) {
    forall k :: k in m && Present(m, k, now) ==> m[k].expiresAt.Some? && m[k].expiresAt.value <= now + Window
  }

  /** `rateLimit` keeps `Bounded` as the clock moves forward. */
  lemma BoundedPreserved(m: Store, ip: string, now: int, later: int)
    requires Bounded(m, now) && now <= later
    ensures Bounded(LimitStep(m, ip, later).counters, later)
  {
    var r := LimitStep(m, ip, later).counters;
    forall k | k in r && Present(r, k, later)
      ensures r[k].expiresAt.Some? && r[k].expiresAt.value <= later + Window
    {
      if k != Key(ip) {
        assert r[k] == m[k];
        assert Present(m, k, now);
      } else if CountAt(m, k, later) != 0 {
        assert Present(m, k, now);
      }
    }
  }

  /** Under `Bounded`, every counter has reset one window later. */
  lemma BoundedResetsWithinWindow(m: Store, now: int, key: string)
    requires Bounded(m, now)
    ensures CountAt(m, key, now + Window) == 0
  {
    if Present(m, key, now + Window) {
      assert Present(m, key, now);
    }
  }

  /** The remote store, updated in place by `INCR` and `EXPIRE`. */
  class CounterStore {
    var entries: Store

    constructor ()
      ensures entries == map[]
    {
      entries := map[];
    }

    /** `INCR key`: returns the new value. */
    method Incr(key: string, now: int) returns (n: int)
      modifies this
      ensures n == CountAt(old(entries), key, now) + 1
      ensures entries == AfterIncr(old(entries), key, now)
    {
      n := CountAt(entries, key, now) + 1;
      entries := AfterIncr(entries, key, now);
    }

    /** `EXPIRE key seconds`. */
    method Expire(key: string, seconds: int, now: int)
      modifies this
      ensures entries == AfterExpire(old(entries), key, seconds, now)
    {
      entries := AfterExpire(entries, key, seconds, now);
    }
  }

  /** `rateLimit(ip)`: increment, set the expiry on the first hit, answer. */
  method RateLimit(store: CounterStore, ip: string, now: int) returns (success: bool, remaining: int)
    modifies store
    ensures var s := LimitStep(old(store.entries), ip, now);
      store.entries == s.counters && success == s.success && remaining == s.remaining
  {
    var key := Key(ip);
    var requests := store.Incr(key, now);
    if requests == 1 {
      store.Expire(key, Window, now);
    }
    var d := Verdict(requests);
    success, remaining := d.success, d.remaining;
  }
}
