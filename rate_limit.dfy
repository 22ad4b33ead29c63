/** The fixed-window rate limiter guarding the API: one Redis counter per caller, created
    with a time-to-live on its first increment, and a request refused once its counter
    passes the maximum. Redis is the map `counters` plus the keys that carry an expiry;
    its failures are the `failure` parameter, and the passing of a window is `EndWindow`. */
module RateLimit {
  import opened Common

  /** The window in seconds and the requests allowed per window when the environment sets
      neither value. */
  const DefaultTtl: int := 60
  const DefaultMax: int := 100

  /** `enabled` says a Redis client was created (a Redis URL is configured). */
  datatype Config = Config(enabled: bool, ttl: int, max: int)

  /** The guard's constructor, with the environment's values already parsed. */
  function MakeConfig(redisUrl: Option<string>, ttlEnv: Option<int>, maxEnv: Option<int>): (c: Config)
    ensures c.enabled <==> Given(redisUrl)
    ensures ttlEnv.None? ==> c.ttl == DefaultTtl
    ensures maxEnv.None? ==> c.max == DefaultMax
    ensures ttlEnv.Some? ==> c.ttl == ttlEnv.value
    ensures maxEnv.Some? ==> c.max == maxEnv.value
  {
    Config(Given(redisUrl),
           if ttlEnv.Some? then ttlEnv.value else DefaultTtl,
           if maxEnv.Some? then maxEnv.value else DefaultMax)
  }

  /** `rate_limit:` followed by the user id, else the client IP, else `anonymous`. */
  function RateKey(userId: Option<string>, ip: Option<string>): (k: string)
    ensures Given(userId) ==> k == "rate_limit:" + userId.value
    ensures !Given(userId) && Given(ip) ==> k == "rate_limit:" + ip.value
    ensures !Given(userId) && !Given(ip) ==> k == "rate_limit:anonymous"
  {
    "rate_limit:" + OrElse(userId, OrElse(ip, "anonymous"))
  }

  /** The Redis keyspace the guard uses: counters, and the keys given a time-to-live. */
  datatype Store = Store(counters: map<string, nat>, expiries: map<string, int>)

  /** Where a Redis call throws, if anywhere: the increment, or the `expire` that follows a
      first increment. */
  datatype Failure = NoFailure | IncrFails | ExpireFails

  datatype Decision = Decision(allowed: bool, store: Store)

  /** `INCR` on a missing key starts from 0. */
  function Count(st: Store, key: string): nat {
    if key in st.counters then st.counters[key] else 0
  }

  /** `canActivate`. */
  function CanActivateSpec(cfg: Config, st: Store, userId: Option<string>, ip: Option<string>, failure: Failure)
    : (d: Decision)
    ensures !cfg.enabled || failure == IncrFails ==> d == Decision(true, st)
    ensures cfg.enabled && failure != IncrFails ==>
              var key := RateKey(userId, ip);
              d.store.counters == st.counters[key := Count(st, key) + 1] &&
              d.store.expiries ==
                (if Count(st, key) == 0 && failure == NoFailure then st.expiries[key := cfg.ttl] else st.expiries)
    ensures cfg.enabled && failure == NoFailure ==> (d.allowed <==> Count(d.store, RateKey(userId, ip)) <= cfg.max)
    ensures !d.allowed ==> cfg.enabled && Count(d.store, RateKey(userId, ip)) > cfg.max
    ensures failure == ExpireFails && Count(st, RateKey(userId, ip)) == 0 ==> d.allowed
  {
    if !cfg.enabled then Decision(true, st)
    else
      var key := RateKey(userId, ip);
      if failure == IncrFails then Decision(true, st)
      else
        var current := Count(st, key) + 1;
        var counted := st.(counters := st.counters[key := current]);
        if current == 1 then
          if failure == ExpireFails then Decision(true, counted)
          else Decision(current <= cfg.max, counted.(expiries := st.expiries[key := cfg.ttl]))
        else Decision(current <= cfg.max, counted)
  }

  /** Redis dropping a key whose time-to-live ran out; a key without one is never dropped. */
  function EndWindow(st: Store, key: string): (r: Store)
    ensures key in st.expiries ==> Count(r, key) == 0 && key !in r.expiries
    ensures key !in st.expiries ==> r == st
    ensures forall k :: k != key ==> Count(r, k) == Count(st, k)
  {
    if key in st.expiries then Store(st.counters - {key}, st.expiries - {key}) else st
  }

  /** `n` requests of one caller in a row, with Redis answering every call. */
  function Burst(cfg: Config, st: Store, userId: Option<string>, ip: Option<string>, n: nat): (r: (seq<bool>, Store))
    ensures |r.0| == n
  {
    if n == 0 then ([], st)
    else
      var prev := Burst(cfg, st, userId, ip, n - 1);
      var d := CanActivateSpec(cfg, prev.1, userId, ip, NoFailure);
      (prev.0 + [d.allowed], d.store)
  }

  /** In a fresh window exactly the first `max` requests pass, and the counter holds the
      number of requests made. */
  lemma {:induction false} OnlyFirstMaxPass(cfg: Config, st: Store, userId: Option<string>, ip: Option<string>, n: nat)
    requires cfg.enabled && Count(st, RateKey(userId, ip)) == 0
    ensures var r := Burst(cfg, st, userId, ip, n);
            Count(r.1, RateKey(userId, ip)) == n &&
            forall i :: 0 <= i < n ==> (r.0[i] <==> i < cfg.max)
  {
    if n > 0 {
      OnlyFirstMaxPass(cfg, st, userId, ip, n - 1);
      var prev := Burst(cfg, st, userId, ip, n - 1);
      var d := CanActivateSpec(cfg, prev.1, userId, ip, NoFailure);
      assert Count(d.store, RateKey(userId, ip)) == n;
      assert forall i :: 0 <= i < n - 1 ==> (prev.0 + [d.allowed])[i] == prev.0[i];
    }
  }

  /** The first request of a window always sets the expiry when Redis answers, so the
      window does end and the next one starts from zero. */
  lemma WindowRestarts(cfg: Config, st: Store, userId: Option<string>, ip: Option<string>)
    requires cfg.enabled && Count(st, RateKey(userId, ip)) == 0
    ensures var d := CanActivateSpec(cfg, st, userId, ip, NoFailure);
            Count(EndWindow(d.store, RateKey(userId, ip)), RateKey(userId, ip)) == 0
  {
  }

  /** When the `expire` after a first increment fails, the request passes but the counter
      keeps no time-to-live: no end of window resets it. */
  lemma LostExpiryOutlivesWindow(cfg: Config, st: Store, userId: Option<string>, ip: Option<string>)
    requires cfg.enabled && Count(st, RateKey(userId, ip)) == 0 && RateKey(userId, ip) !in st.expiries
    ensures var d := CanActivateSpec(cfg, st, userId, ip, ExpireFails);
            d.allowed && Count(d.store, RateKey(userId, ip)) == 1 &&
            EndWindow(d.store, RateKey(userId, ip)) == d.store
  {
  }

  /** The guard, holding the configuration and (through Redis) the counters. */
  class RateLimitGuard {
    const cfg: Config
    var counters: map<string, nat>
    var expiries: map<string, int>

    constructor (redisUrl: Option<string>, ttlEnv: Option<int>, maxEnv: Option<int>)
      ensures cfg == MakeConfig(redisUrl, ttlEnv, maxEnv)
      ensures counters == map[] && expiries == map[]
    {
      cfg := MakeConfig(redisUrl, ttlEnv, maxEnv);
      counters := map[];
      expiries := map[];
    }

    method CanActivate(userId: Option<string>, ip: Option<string>, failure: Failure) returns (allowed: bool)
      modifies this
      ensures Decision(allowed, Store(counters, expiries)) ==
              CanActivateSpec(cfg, Store(old(counters), old(expiries)), userId, ip, failure)
    {
      if !cfg.enabled {
        return true;
      }
      var key := RateKey(userId, ip);
      if failure == IncrFails {
        return true;
      }
      var current := (if key in counters then counters[key] else 0) + 1;
      counters := counters[key := current];
      if current == 1 {
        if failure == ExpireFails {
          return true;
        }
        expiries := expiries[key := cfg.ttl];
      }
      allowed := current <= cfg.max;
    }
  }
}
