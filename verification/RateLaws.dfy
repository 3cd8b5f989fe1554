/** Forgetting idle clients is harmless exactly when the bucket of an idle
    client would have filled up anyway: when rate * MAX_IDLE reaches the burst. */
module RateLaws {
  import opened RateLimit

  /** What happens at the limiter, in the order in which it happens. */
  datatype Happening = Request(ip: string, at: real) | Cleanup(at: real)

  datatype Verdict = Verdict(ip: string, at: real, allowed: bool)

  datatype Outcome = Outcome(slots: Slots, verdicts: seq<Verdict>)

  function Happen(cfg: Config, s: Slots, h: Happening, evicting: bool): Outcome {
    match h
    case Request(ip, at) =>
      var gate := Gate(cfg, s, ip, at);
      Outcome(gate.0, [Verdict(ip, at, gate.1)])
    case Cleanup(at) => Outcome(if evicting then Evict(s, at) else s, [])
  }

  /** The limiter over a whole trace; without `evicting`, cleanups do nothing. */
  function Trace(cfg: Config, s: Slots, trace: seq<Happening>, evicting: bool): Outcome
    decreases |trace|
  {
    if trace == [] then Outcome(s, [])
    else
      var first := Happen(cfg, s, trace[0], evicting);
      var rest := Trace(cfg, first.slots, trace[1..], evicting);
      Outcome(rest.slots, first.verdicts + rest.verdicts)
  }

  /** Times do not go back. */
  predicate Timed(trace: seq<Happening>, from: real)
    decreases |trace|
  {
    trace != [] ==> from <= trace[0].at && Timed(trace[1..], trace[0].at)
  }

  function AllowedFor(verdicts: seq<Verdict>, ip: string): nat {
    if verdicts == [] then 0
    else (if verdicts[0].ip == ip && verdicts[0].allowed then 1 else 0) + AllowedFor(verdicts[1..], ip)
  }

  /** An idle client's bucket is full by the time it may be forgotten. */
  predicate FillsWhileIdle(cfg: Config) {
    cfg.rate * MAX_IDLE >= cfg.burst as real
  }

  /* ----- levels: all that the limiter's answers depend on ----- */

  /** A client without a bucket has a full one. */
  function LevelOf(cfg: Config, s: Slots, ip: string, now: real): real {
    if ip in s then Level(cfg, s[ip].bucket, now) else cfg.burst as real
  }

  ghost predicate SameLevels(cfg: Config, s: Slots, u: Slots, now: real) {
    forall ip, t {:trigger LevelOf(cfg, s, ip, t)} {:trigger LevelOf(cfg, u, ip, t)} ::
      now <= t ==> LevelOf(cfg, s, ip, t) == LevelOf(cfg, u, ip, t)
  }

  /** Bucket and client were used by `now`, and the bucket is not overdrawn. */
  predicate KeptSlot(cfg: Config, slot: Slot, now: real) {
    && slot.bucket.last <= slot.lastSeen <= now
    && slot.bucket.tokens <= cfg.burst as real
    && (slot.bucket.tokens >= 0.0 || slot.bucket.tokens == cfg.burst as real)
  }

  ghost predicate Kept(cfg: Config, s: Slots, now: real) {
    cfg.rate >= 0.0 && forall ip :: ip in s ==> KeptSlot(cfg, s[ip], now)
  }

  lemma Gains(rate: real, short: real, long: real)
    requires rate >= 0.0 && short <= long
    ensures rate * short <= rate * long
  {
  }

  /** A request is admitted on the level alone, and moves its own level alone. */
  lemma GateLevels(cfg: Config, s: Slots, ip: string, now: real, other: string, t: real)
    requires now <= t && cfg.rate >= 0.0
    ensures var gate, level := Gate(cfg, s, ip, now), LevelOf(cfg, s, ip, now);
            && gate.1 == (level >= 1.0)
            && LevelOf(cfg, gate.0, other, t) ==
               if other == ip && gate.1 then Level(cfg, Bucket(level - 1.0, now), t) else LevelOf(cfg, s, other, t)
  {
    Gains(cfg.rate, 0.0, t - now);
    assert Level(cfg, Bucket(cfg.burst as real, now), t) == cfg.burst as real;
  }

  /** Forgetting an idle client moves no level, if buckets fill while idle. */
  lemma EvictLevels(cfg: Config, s: Slots, now: real, ip: string, t: real)
    requires Kept(cfg, s, now) && FillsWhileIdle(cfg) && now <= t
    ensures LevelOf(cfg, Evict(s, now), ip, t) == LevelOf(cfg, s, ip, t)
  {
    if ip in s && now - s[ip].lastSeen > MAX_IDLE {
      Gains(cfg.rate, MAX_IDLE, t - s[ip].bucket.last);
    }
  }

  lemma HappenKeeps(cfg: Config, s: Slots, now: real, h: Happening, evicting: bool)
    requires Kept(cfg, s, now) && now <= h.at
    ensures Kept(cfg, Happen(cfg, s, h, evicting).slots, h.at)
  {
    if h.Request? && h.ip in s {
      Gains(cfg.rate, 0.0, h.at - s[h.ip].bucket.last);
    }
  }

  /* ----- eviction transparency ----- */

  lemma HappenTransparent(cfg: Config, s: Slots, u: Slots, now: real, h: Happening)
    requires Kept(cfg, s, now) && FillsWhileIdle(cfg) && SameLevels(cfg, s, u, now) && now <= h.at
    ensures var e, n := Happen(cfg, s, h, true), Happen(cfg, u, h, false);
            e.verdicts == n.verdicts && SameLevels(cfg, e.slots, n.slots, h.at)
  {
    var e, n := Happen(cfg, s, h, true), Happen(cfg, u, h, false);
    if h.Request? {
      GateLevels(cfg, s, h.ip, h.at, h.ip, h.at);
      GateLevels(cfg, u, h.ip, h.at, h.ip, h.at);
    }
    forall ip, t | h.at <= t ensures LevelOf(cfg, e.slots, ip, t) == LevelOf(cfg, n.slots, ip, t) {
      match h
      case Request(client, at) =>
        GateLevels(cfg, s, client, at, ip, t);
        GateLevels(cfg, u, client, at, ip, t);
      case Cleanup(at) =>
        HappenKeeps(cfg, s, now, h, false);
        EvictLevels(cfg, s, at, ip, t);
    }
  }

  lemma {:induction false} TraceTransparent(cfg: Config, s: Slots, u: Slots, now: real, trace: seq<Happening>)
    requires Kept(cfg, s, now) && FillsWhileIdle(cfg) && SameLevels(cfg, s, u, now) && Timed(trace, now)
    ensures Trace(cfg, s, trace, true).verdicts == Trace(cfg, u, trace, false).verdicts
    decreases |trace|
  {
    if trace != [] {
      var h := trace[0];
      HappenTransparent(cfg, s, u, now, h);
      HappenKeeps(cfg, s, now, h, true);
      TraceTransparent(cfg, Happen(cfg, s, h, true).slots, Happen(cfg, u, h, false).slots, h.at, trace[1..]);
    }
  }

  /* ----- the rate bound ----- */

  /** What drips in between `a` and `c` is what drips in before and after `b`. */
  lemma DripsAdd(rate: real, a: real, b: real, c: real)
    ensures rate * (c - a) == rate * (b - a) + rate * (c - b)
  {
  }

  /** A level does not fall by itself, and gains at most what drips in. */
  lemma LevelGrows(cfg: Config, s: Slots, ip: string, now: real, t: real)
    requires cfg.rate >= 0.0 && now <= t && (ip in s ==> s[ip].bucket.last <= now)
    ensures LevelOf(cfg, s, ip, now) <= LevelOf(cfg, s, ip, t) <= LevelOf(cfg, s, ip, now) + cfg.rate * (t - now)
  {
    Gains(cfg.rate, 0.0, t - now);
    if ip in s {
      DripsAdd(cfg.rate, s[ip].bucket.last, now, t);
    }
  }

  /** One happening takes from a client's level what it admits. */
  lemma HappenTakes(cfg: Config, s: Slots, h: Happening, ip: string)
    requires Kept(cfg, s, h.at) && FillsWhileIdle(cfg)
    ensures var e := Happen(cfg, s, h, true);
            AllowedFor(e.verdicts, ip) as real + LevelOf(cfg, e.slots, ip, h.at) <= LevelOf(cfg, s, ip, h.at)
  {
    match h
    case Request(client, at) =>
      GateLevels(cfg, s, client, at, ip, at);
      var verdicts := Happen(cfg, s, h, true).verdicts;
      assert verdicts[1..] == [];
    case Cleanup(at) =>
      EvictLevels(cfg, s, at, ip, at);
  }

  lemma {:induction false} AllowedForConcat(v: seq<Verdict>, w: seq<Verdict>, ip: string)
    ensures AllowedFor(v + w, ip) == AllowedFor(v, ip) + AllowedFor(w, ip)
  {
    if v == [] {
      assert v + w == w;
    } else {
      AllowedForConcat(v[1..], w, ip);
      assert (v + w)[1..] == v[1..] + w;
    }
  }

  /** The time of the last happening. */
  function EndOf(trace: seq<Happening>, from: real): real {
    if trace == [] then from else trace[|trace| - 1].at
  }

  lemma HappenBounded(cfg: Config, s: Slots, now: real, h: Happening, ip: string) returns (first: Outcome)
    requires Kept(cfg, s, now) && FillsWhileIdle(cfg) && now <= h.at
    ensures first == Happen(cfg, s, h, true) && Kept(cfg, first.slots, h.at)
    ensures Bounded(cfg, s, first, now, h.at, ip)
  {
    first := Happen(cfg, s, h, true);
    LevelGrows(cfg, s, ip, now, h.at);
    assert Kept(cfg, s, h.at);
    HappenTakes(cfg, s, h, ip);
    HappenKeeps(cfg, s, now, h, true);
  }

  /** From `s` at `now` to `r` at `end`: admissions plus level grow by no more than drips in. */
  ghost predicate Bounded(cfg: Config, s: Slots, r: Outcome, now: real, end: real, ip: string) {
    AllowedFor(r.verdicts, ip) as real + LevelOf(cfg, r.slots, ip, end)
    <= LevelOf(cfg, s, ip, now) + cfg.rate * (end - now)
  }

  lemma BoundedAdd(cfg: Config, s: Slots, first: Outcome, rest: Outcome, now: real, mid: real, end: real, ip: string)
    requires Bounded(cfg, s, first, now, mid, ip) && Bounded(cfg, first.slots, rest, mid, end, ip)
    ensures Bounded(cfg, s, Outcome(rest.slots, first.verdicts + rest.verdicts), now, end, ip)
  {
    AllowedForConcat(first.verdicts, rest.verdicts, ip);
    DripsAdd(cfg.rate, now, mid, end);
  }

  lemma {:induction false} TraceBounded(cfg: Config, s: Slots, now: real, trace: seq<Happening>, ip: string)
    requires Kept(cfg, s, now) && FillsWhileIdle(cfg) && Timed(trace, now)
    ensures Kept(cfg, Trace(cfg, s, trace, true).slots, EndOf(trace, now))
    ensures Bounded(cfg, s, Trace(cfg, s, trace, true), now, EndOf(trace, now), ip)
    decreases |trace|
  {
    if trace != [] {
      var at, end := trace[0].at, EndOf(trace, now);
      var first := HappenBounded(cfg, s, now, trace[0], ip);
      assert EndOf(trace[1..], at) == end;
      TraceBounded(cfg, first.slots, at, trace[1..], ip);
      BoundedAdd(cfg, s, first, Trace(cfg, first.slots, trace[1..], true), now, at, end, ip);
    }
  }

  /* ----- windows of a trace ----- */

  lemma {:induction false} TraceConcat(cfg: Config, s: Slots, before: seq<Happening>, window: seq<Happening>, evicting: bool)
    ensures var b := Trace(cfg, s, before, evicting);
            var r := Trace(cfg, b.slots, window, evicting);
            Trace(cfg, s, before + window, evicting) == Outcome(r.slots, b.verdicts + r.verdicts)
    decreases |before|
  {
    if before == [] {
      assert before + window == window;
    } else {
      TraceConcat(cfg, Happen(cfg, s, before[0], evicting).slots, before[1..], window, evicting);
      assert (before + window)[1..] == before[1..] + window;
    }
  }

  lemma {:induction false} TimedConcat(before: seq<Happening>, window: seq<Happening>, from: real)
    ensures Timed(before + window, from) <==> Timed(before, from) && Timed(window, EndOf(before, from))
    decreases |before|
  {
    if before == [] {
      assert before + window == window;
    } else {
      TimedConcat(before[1..], window, before[0].at);
      assert (before + window)[1..] == before[1..] + window;
      assert EndOf(before[1..], before[0].at) == EndOf(before, from);
    }
  }

  /** What a client can have saved up. */
  function Cap(cfg: Config): real {
    if cfg.burst < 0 then 0.0 else cfg.burst as real
  }

  lemma NotOverdrawn(cfg: Config, s: Slots, ip: string, now: real)
    requires Kept(cfg, s, now)
    ensures var level := LevelOf(cfg, s, ip, now); level <= cfg.burst as real && (level >= 0.0 || level == cfg.burst as real)
  {
    if ip in s {
      Gains(cfg.rate, 0.0, now - s[ip].bucket.last);
    }
  }

  /** Admitted requests of a client, between the time `s` was reached and the end of `window`. */
  function Admitted(cfg: Config, s: Slots, window: seq<Happening>, ip: string): nat {
    AllowedFor(Trace(cfg, s, window, true).verdicts, ip)
  }

  /** From `start` to the last happening of `window` a client gets through at most
      as often as a full bucket and what drips in meanwhile allow. */
  predicate InBounds(cfg: Config, s: Slots, start: real, window: seq<Happening>, ip: string) {
    Admitted(cfg, s, window, ip) as real <= Cap(cfg) + cfg.rate * (EndOf(window, start) - start)
  }

  lemma StretchBounded(cfg: Config, s: Slots, start: real, window: seq<Happening>, ip: string)
    requires Kept(cfg, s, start) && FillsWhileIdle(cfg) && Timed(window, start)
    ensures InBounds(cfg, s, start, window, ip)
  {
    TraceBounded(cfg, s, start, window, ip);
    NotOverdrawn(cfg, s, ip, start);
    NotOverdrawn(cfg, Trace(cfg, s, window, true).slots, ip, EndOf(window, start));
  }

  /** The bound, for the stretch from the first happening of `window` to its last, after `before`. */
  predicate Bounds(cfg: Config, before: seq<Happening>, window: seq<Happening>, ip: string) {
    window != [] ==> InBounds(cfg, Trace(cfg, map[], before, true).slots, window[0].at, window, ip)
  }

  lemma WindowBounded(cfg: Config, before: seq<Happening>, window: seq<Happening>, from: real, ip: string)
    requires cfg.rate >= 0.0 && FillsWhileIdle(cfg) && Timed(before + window, from)
    ensures Bounds(cfg, before, window, ip)
  {
    if window != [] {
      var start := window[0].at;
      TimedConcat(before, window, from);
      TraceBounded(cfg, map[], from, before, ip);
      KeptLater(cfg, Trace(cfg, map[], before, true).slots, EndOf(before, from), start);
      StretchBounded(cfg, Trace(cfg, map[], before, true).slots, start, window, ip);
    }
  }

  lemma KeptLater(cfg: Config, s: Slots, now: real, t: real)
    requires Kept(cfg, s, now) && now <= t
    ensures Kept(cfg, s, t)
  {
  }

  /* ----- the condition is exact ----- */

  /** A pause long enough to be forgotten, too short to fill the bucket. */
  function Pause(cfg: Config): (pause: real)
    requires cfg.rate >= 0.0 && !FillsWhileIdle(cfg)
    ensures pause > MAX_IDLE && cfg.rate * pause < cfg.burst as real
  {
    if cfg.rate == 0.0 then MAX_IDLE + 1.0
    else
      var full := cfg.burst as real / cfg.rate;
      assert cfg.rate * full == cfg.burst as real;
      (MAX_IDLE + full) / 2.0
  }

  function Requests(n: nat, ip: string, at: real): seq<Happening> {
    seq(n, _ => Request(ip, at))
  }

  /** A client empties its bucket, pauses, is forgotten, and asks for a full bucket again. */
  function Witness(cfg: Config): seq<Happening>
    requires cfg.rate >= 0.0 && !FillsWhileIdle(cfg)
  {
    var n := BurstOf(cfg);
    Requests(n, "client", 0.0) + ([Cleanup(Pause(cfg))] + Requests(n, "client", Pause(cfg)))
  }

  function BurstOf(cfg: Config): nat
    requires cfg.rate >= 0.0 && !FillsWhileIdle(cfg)
  {
    cfg.burst
  }

  lemma {:induction false} RequestsTimed(n: nat, ip: string, at: real, from: real)
    requires from <= at
    ensures Timed(Requests(n, ip, at), from)
  {
    if n > 0 {
      RequestsTimed(n - 1, ip, at, at);
      assert Requests(n, ip, at)[1..] == Requests(n - 1, ip, at);
    }
  }

  /** A burst of requests at one time gets through if and only if the level covers it. */
  lemma {:induction false} RequestsCovered(cfg: Config, s: Slots, n: nat, ip: string, at: real, evicting: bool)
    requires cfg.rate >= 0.0 && LevelOf(cfg, s, ip, at) >= 0.0 && (ip in s ==> s[ip].bucket.last <= at)
    ensures var r, level := Trace(cfg, s, Requests(n, ip, at), evicting), LevelOf(cfg, s, ip, at);
            && AllowedFor(r.verdicts, ip) <= n
            && (AllowedFor(r.verdicts, ip) == n <==> level >= n as real)
            && (level >= n as real ==> LevelOf(cfg, r.slots, ip, at) == level - n as real)
            && (n > 0 ==> ip in r.slots && r.slots[ip].bucket.last <= r.slots[ip].lastSeen == at)
    decreases n
  {
    if n > 0 {
      var rest := Requests(n - 1, ip, at);
      assert Requests(n, ip, at)[1..] == rest;
      var first := Happen(cfg, s, Request(ip, at), evicting);
      GateLevels(cfg, s, ip, at, ip, at);
      assert Level(cfg, Bucket(LevelOf(cfg, s, ip, at) - 1.0, at), at) == LevelOf(cfg, s, ip, at) - 1.0;
      RequestsCovered(cfg, first.slots, n - 1, ip, at, evicting);
      assert first.verdicts[1..] == [];
      AllowedForConcat(first.verdicts, Trace(cfg, first.slots, rest, evicting).verdicts, ip);
      if n == 1 {
        assert Trace(cfg, first.slots, rest, evicting) == Outcome(first.slots, []);
      }
    }
  }

  /** The evicting limiter lets two full bursts through, which is more than the
      rate allows; the other one refuses some of the second burst. */
  lemma WitnessBreaks(cfg: Config)
    requires cfg.rate >= 0.0 && !FillsWhileIdle(cfg)
    ensures Timed(Witness(cfg), 0.0) && Witness(cfg) != [] && Witness(cfg)[0].at == 0.0
    ensures EndOf(Witness(cfg), 0.0) == Pause(cfg)
    ensures AllowedFor(Trace(cfg, map[], Witness(cfg), true).verdicts, "client") == 2 * BurstOf(cfg) > 0
    ensures AllowedFor(Trace(cfg, map[], Witness(cfg), false).verdicts, "client") < 2 * BurstOf(cfg)
  {
    WitnessTimed(cfg);
    WitnessCount(cfg, true);
    WitnessCount(cfg, false);
  }

  lemma WitnessTimed(cfg: Config)
    requires cfg.rate >= 0.0 && !FillsWhileIdle(cfg)
    ensures Timed(Witness(cfg), 0.0) && Witness(cfg) != [] && Witness(cfg)[0].at == 0.0
    ensures EndOf(Witness(cfg), 0.0) == Pause(cfg)
  {
    var n, pause := BurstOf(cfg), Pause(cfg);
    RequestsTimed(n, "client", 0.0, 0.0);
    RequestsTimed(n, "client", pause, pause);
    assert ([Cleanup(pause)] + Requests(n, "client", pause))[1..] == Requests(n, "client", pause);
    TimedConcat(Requests(n, "client", 0.0), [Cleanup(pause)] + Requests(n, "client", pause), 0.0);
  }

  /** After the pause: forgotten, the client has a full bucket; remembered, it has not. */
  lemma AfterPause(cfg: Config, s: Slots, evicting: bool)
    requires cfg.rate >= 0.0 && !FillsWhileIdle(cfg)
    requires "client" in s && s["client"].bucket.last <= s["client"].lastSeen == 0.0 && LevelOf(cfg, s, "client", 0.0) == 0.0
    ensures var pause := Pause(cfg);
            var level := LevelOf(cfg, Happen(cfg, s, Cleanup(pause), evicting).slots, "client", pause);
            0.0 <= level && (level >= cfg.burst as real <==> evicting)
  {
    LevelGrows(cfg, s, "client", 0.0, Pause(cfg));
  }

  lemma WitnessCount(cfg: Config, evicting: bool)
    requires cfg.rate >= 0.0 && !FillsWhileIdle(cfg)
    ensures var allowed := AllowedFor(Trace(cfg, map[], Witness(cfg), evicting).verdicts, "client");
            allowed <= 2 * BurstOf(cfg) && (allowed == 2 * BurstOf(cfg) <==> evicting)
  {
    var n, pause := BurstOf(cfg), Pause(cfg);
    var first, tail := Requests(n, "client", 0.0), [Cleanup(pause)] + Requests(n, "client", pause);
    RequestsCovered(cfg, map[], n, "client", 0.0, evicting);
    var one := Trace(cfg, map[], first, evicting);
    AfterPause(cfg, one.slots, evicting);
    var swept := Happen(cfg, one.slots, Cleanup(pause), evicting);
    RequestsCovered(cfg, swept.slots, n, "client", pause, evicting);
    var two := Trace(cfg, one.slots, tail, evicting);
    assert two.verdicts == Trace(cfg, swept.slots, Requests(n, "client", pause), evicting).verdicts by {
      assert tail[1..] == Requests(n, "client", pause);
    }
    TraceConcat(cfg, map[], first, tail, evicting);
    AllowedForConcat(one.verdicts, two.verdicts, "client");
  }

  /** Forgetting clients does not show in the answers to this trace. */
  predicate SameVerdicts(cfg: Config, trace: seq<Happening>) {
    Trace(cfg, map[], trace, true).verdicts == Trace(cfg, map[], trace, false).verdicts
  }

  lemma WitnessTooMany(cfg: Config)
    requires cfg.rate >= 0.0 && !FillsWhileIdle(cfg)
    ensures Timed(Witness(cfg), 0.0) && !Bounds(cfg, [], Witness(cfg), "client")
  {
    WitnessBreaks(cfg);
    var trace := Witness(cfg);
    assert cfg.rate * (EndOf(trace, 0.0) - 0.0) == cfg.rate * Pause(cfg);
    assert !InBounds(cfg, map[], 0.0, trace, "client");
  }

  ghost predicate Transparent(cfg: Config) {
    forall trace, from :: Timed(trace, from) ==> SameVerdicts(cfg, trace)
  }

  ghost predicate KeepsRate(cfg: Config) {
    forall before, window, from, ip :: Timed(before + window, from) ==> Bounds(cfg, before, window, ip)
  }

  /** For every rate and burst: forgetting idle clients changes no answer, in any
      trace, if and only if an idle client's bucket fills. */
  lemma TransparentIff(cfg: Config)
    requires cfg.rate >= 0.0
    ensures FillsWhileIdle(cfg) <==> Transparent(cfg)
  {
    if FillsWhileIdle(cfg) {
      forall trace, from | Timed(trace, from) ensures SameVerdicts(cfg, trace) {
        TraceTransparent(cfg, map[], map[], from, trace);
      }
    } else {
      WitnessBreaks(cfg);
      var trace := Witness(cfg);
      assert Timed(trace, 0.0) && !SameVerdicts(cfg, trace);
    }
  }

  /** The same condition decides whether the configured rate is kept at all. */
  lemma RateKeptIff(cfg: Config)
    requires cfg.rate >= 0.0
    ensures FillsWhileIdle(cfg) <==> KeepsRate(cfg)
  {
    if FillsWhileIdle(cfg) {
      forall before, window, from, ip | Timed(before + window, from) ensures Bounds(cfg, before, window, ip) {
        WindowBounded(cfg, before, window, from, ip);
      }
    } else {
      WitnessTooMany(cfg);
      var trace := Witness(cfg);
      assert [] + trace == trace;
      assert Timed([] + trace, 0.0);
    }
  }

  /** The limiter in front of validation meets the condition: no client gets
      through more than 20 times plus 10 times a second, cleanups or not. */
  lemma WiredLimiterKeepsItsRate(before: seq<Happening>, window: seq<Happening>, from: real, ip: string)
    requires Timed(before + window, from) && window != []
    ensures SameVerdicts(WIRED, before + window)
    ensures Admitted(WIRED, Trace(WIRED, map[], before, true).slots, window, ip) as real
            <= 20.0 + 10.0 * (window[|window| - 1].at - window[0].at)
  {
    TraceTransparent(WIRED, map[], map[], from, before + window);
    WindowBounded(WIRED, before, window, from, ip);
  }
}
