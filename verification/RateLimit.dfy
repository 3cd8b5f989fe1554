/** The per-IP rate limiter of the validator, which forgets idle clients.

    The token bucket is that of golang.org/x/time/rate, taken as given: it holds
    at most `burst` tokens, gains `rate` of them a second, and a request takes
    one token or is refused. Time is in seconds. */
module RateLimit {

  /** How long a client may stay silent before a cleanup forgets it. */
  const MAX_IDLE: real := 600.0

  datatype Config = Config(rate: real, burst: int)

  /** The limiter in front of the validation endpoint. */
  const WIRED: Config := Config(10.0, 20)

  datatype Bucket = Bucket(tokens: real, last: real)

  function Level(cfg: Config, b: Bucket, now: real): real {
    var tokens := b.tokens + cfg.rate * (if now < b.last then 0.0 else now - b.last);
    if tokens > cfg.burst as real then cfg.burst as real else tokens
  }

  /** A refused request leaves the bucket as it was. */
  function Take(cfg: Config, b: Bucket, now: real): (Bucket, bool) {
    var level := Level(cfg, b, now);
    if level >= 1.0 then (Bucket(level - 1.0, now), true) else (b, false)
  }

  datatype Slot = Slot(bucket: Bucket, lastSeen: real)

  type Slots = map<string, Slot>

  function Touch(cfg: Config, s: Slots, ip: string, now: real): Slots {
    s[ip := Slot(if ip in s then s[ip].bucket else Bucket(cfg.burst as real, now), now)]
  }

  function Gate(cfg: Config, s: Slots, ip: string, now: real): (Slots, bool) {
    var touched := Touch(cfg, s, ip, now);
    var taken := Take(cfg, touched[ip].bucket, now);
    (touched[ip := touched[ip].(bucket := taken.0)], taken.1)
  }

  function Evict(s: Slots, now: real): Slots {
    map ip | ip in s && now - s[ip].lastSeen <= MAX_IDLE :: s[ip]
  }

  /* ----- the objects ----- */

  class Limiter {
    const cfg: Config
    var tokens: real
    var last: real

    constructor (cfg: Config, now: real)
      ensures this.cfg == cfg && Value() == Bucket(cfg.burst as real, now)
    {
      this.cfg, tokens, last := cfg, cfg.burst as real, now;
    }

    ghost function Value(): Bucket
      reads this
    {
      Bucket(tokens, last)
    }

    method Allow(now: real) returns (ok: bool)
      modifies this
      ensures (Value(), ok) == Take(cfg, old(Value()), now)
    {
      var level := Level(cfg, Bucket(tokens, last), now);
      ok := level >= 1.0;
      if ok {
        tokens, last := level - 1.0, now;
      }
    }
  }

  class Entry {
    const limiter: Limiter
    var lastSeen: real

    constructor (limiter: Limiter, now: real)
      ensures this.limiter == limiter && lastSeen == now
    {
      this.limiter, lastSeen := limiter, now;
    }

    ghost function Value(): Slot
      reads this, limiter
    {
      Slot(limiter.Value(), lastSeen)
    }
  }

  ghost function ValuesOf(limiters: map<string, Entry>): Slots
    reads set ip | ip in limiters :: limiters[ip]
    reads set ip | ip in limiters :: limiters[ip].limiter
  {
    map ip | ip in limiters :: limiters[ip].Value()
  }

  lemma AddedValues(limiters: map<string, Entry>, ip: string, entry: Entry)
    ensures ValuesOf(limiters[ip := entry]) == ValuesOf(limiters)[ip := entry.Value()]
  {
  }

  lemma EvictedValues(before: map<string, Entry>, after: map<string, Entry>, now: real)
    requires after.Keys <= before.Keys && forall ip :: ip in after ==> after[ip] == before[ip]
    requires forall ip :: ip in before ==> (ip in after <==> now - before[ip].lastSeen <= MAX_IDLE)
    ensures ValuesOf(after) == Evict(ValuesOf(before), now)
  {
  }

  class IPRateLimiter {
    const cfg: Config
    var limiters: map<string, Entry>

    constructor (rps: real, burst: int)
      ensures Valid() && cfg == Config(rps, burst) && Value() == map[] && Repr() == {}
    {
      cfg, limiters := Config(rps, burst), map[];
    }

    /** The entries and their buckets. */
    ghost function Repr(): set<object>
      reads this
    {
      (set ip | ip in limiters :: limiters[ip]) + (set ip | ip in limiters :: limiters[ip].limiter)
    }

    /** No two clients share an entry or a bucket. */
    ghost predicate Valid()
      reads this
    {
      && (forall ip :: ip in limiters ==> limiters[ip].limiter.cfg == cfg)
      && (forall i, j :: i in limiters && j in limiters && i != j ==>
            limiters[i] != limiters[j] && limiters[i].limiter != limiters[j].limiter)
    }

    ghost function Value(): Slots
      reads this, Repr()
    {
      ValuesOf(limiters)
    }

    /** The bucket of a client not seen before. */
    method Remember(ip: string, now: real) returns (limiter: Limiter)
      requires Valid() && ip !in limiters
      modifies this`limiters
      ensures Valid() && fresh(Repr() - old(Repr()))
      ensures ip in limiters && limiter == limiters[ip].limiter
      ensures Value() == Touch(cfg, old(Value()), ip, now)
    {
      limiter := new Limiter(cfg, now);
      var entry := new Entry(limiter, now);
      AddedValues(limiters, ip, entry);
      limiters := limiters[ip := entry];
    }

    method GetLimiter(ip: string, now: real) returns (limiter: Limiter)
      requires Valid()
      modifies this, Repr()
      ensures Valid() && fresh(Repr() - old(Repr()))
      ensures ip in limiters && limiter == limiters[ip].limiter
      ensures Value() == Touch(cfg, old(Value()), ip, now)
    {
      if ip !in limiters {
        limiter := Remember(ip, now);
        return;
      }
      limiters[ip].lastSeen := now;
      limiter := limiters[ip].limiter;
    }

    method Cleanup(now: real)
      requires Valid()
      modifies this`limiters
      ensures Valid() && Repr() <= old(Repr())
      ensures Value() == Evict(old(Value()), now)
      ensures limiters.Keys <= old(limiters.Keys) && forall ip :: ip in limiters ==> limiters[ip] == old(limiters[ip])
      ensures forall ip :: ip in old(limiters) ==> (ip in limiters <==> now - old(limiters[ip].lastSeen) <= 600.0)
    {
      ghost var before := limiters;
      SweepIdle(now);
      EvictedValues(before, limiters, now);
    }

    /** The loop over the map, which deletes as it goes. */
    method SweepIdle(now: real)
      modifies this`limiters
      ensures limiters.Keys <= old(limiters.Keys) && forall ip :: ip in limiters ==> limiters[ip] == old(limiters[ip])
      ensures forall ip :: ip in old(limiters) ==> (ip in limiters <==> now - old(limiters[ip].lastSeen) <= MAX_IDLE)
    {
      ghost var before := limiters;
      var ips := limiters.Keys;
      while ips != {}
        invariant ips <= limiters.Keys <= before.Keys
        invariant forall ip :: ip in limiters ==> limiters[ip] == before[ip]
        invariant forall ip :: ip in before && ip !in ips ==> (ip in limiters <==> now - before[ip].lastSeen <= MAX_IDLE)
        decreases |ips|
      {
        var ip :| ip in ips;
        if now - limiters[ip].lastSeen > MAX_IDLE {
          limiters := limiters - {ip};
        }
        ips := ips - {ip};
      }
    }

    /** Taking a token from one bucket leaves the others alone. */
    method Admit(ip: string, limiter: Limiter, now: real) returns (allowed: bool)
      requires Valid() && ip in limiters && limiter == limiters[ip].limiter
      modifies limiter
      ensures Valid()
      ensures var taken := Take(cfg, old(Value())[ip].bucket, now);
              && Value() == old(Value())[ip := old(Value())[ip].(bucket := taken.0)]
              && allowed == taken.1
    {
      allowed := limiter.Allow(now);
      assert forall other :: other in limiters && other != ip ==> limiters[other].Value() == old(limiters[other].Value());
    }

    /** Whether the request of `ip` reaches the next handler; otherwise the answer is 429. */
    method Middleware(ip: string, now: real) returns (allowed: bool)
      requires Valid()
      modifies this, Repr()
      ensures Valid() && fresh(Repr() - old(Repr()))
      ensures (Value(), allowed) == Gate(cfg, old(Value()), ip, now)
      ensures var before, after := old(Value()), Value();
              var bucket := if ip in before then before[ip].bucket else Bucket(cfg.burst as real, now);
              && after.Keys == before.Keys + {ip}
              && (forall other :: other in before && other != ip ==> after[other] == before[other])
              && after[ip].lastSeen == now
              && (allowed <==> Level(cfg, bucket, now) >= 1.0)
              && after[ip].bucket == if allowed then Bucket(Level(cfg, bucket, now) - 1.0, now) else bucket
    {
      var limiter := GetLimiter(ip, now);
      allowed := Admit(ip, limiter, now);
    }
  }
}
