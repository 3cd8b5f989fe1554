/** The rate limiter explained without buckets. A reference limiter remembers nothing but
    its own answers, and refuses a request exactly when it would be one too many for the
    burst and the rate in some stretch of time that ends with it. */
module SlidingWindow {
  import opened RateLimit
  import opened RateLaws

  /** The requests of `ip` let through since `start`. */
  function PassedSince(log: seq<Verdict>, ip: string, start: real): nat {
    if log == [] then 0
    else
      var n := |log| - 1;
      PassedSince(log[..n], ip, start) + if log[n].ip == ip && log[n].allowed && start <= log[n].at then 1 else 0
  }

  /** One more request at `now` exceeds what burst and rate allow since `start`. */
  predicate TooManySince(cfg: Config, log: seq<Verdict>, ip: string, start: real, now: real) {
    PassedSince(log, ip, start) as real + 1.0 > cfg.burst as real + cfg.rate * (now - start)
  }

  ghost predicate TooMany(cfg: Config, log: seq<Verdict>, ip: string, now: real) {
    exists start :: start <= now && TooManySince(cfg, log, ip, start, now)
  }

  /** The reference limiter. */
  ghost function Answers(cfg: Config, trace: seq<Happening>): seq<Verdict>
    decreases |trace|
  {
    if trace == [] then []
    else
      var log := Answers(cfg, trace[..|trace| - 1]);
      match trace[|trace| - 1]
      case Request(ip, now) => log + [Verdict(ip, now, !TooMany(cfg, log, ip, now))]
      case Cleanup(_) => log
  }

  /* ----- a level is the room in the tightest stretch ----- */

  /** What burst and rate leave to a client from `start` to `now`, after the answers in `log`. */
  function Room(cfg: Config, log: seq<Verdict>, ip: string, start: real, now: real): real {
    cfg.burst as real + cfg.rate * (now - start) - PassedSince(log, ip, start) as real
  }

  ghost predicate Past(log: seq<Verdict>, now: real) {
    forall v :: v in log ==> v.at <= now
  }

  ghost predicate Tightest(cfg: Config, log: seq<Verdict>, ip: string, now: real, level: real) {
    && (forall start :: start <= now ==> level <= Room(cfg, log, ip, start, now))
    && (exists start :: start <= now && level == Room(cfg, log, ip, start, now))
  }

  lemma {:induction false} NothingSince(log: seq<Verdict>, ip: string, now: real, start: real)
    requires Past(log, now) && now < start
    ensures PassedSince(log, ip, start) == 0
  {
    if log != [] {
      var n := |log| - 1;
      assert log[n] in log;
      NothingSince(log[..n], ip, now, start);
    }
  }

  lemma PassedAppend(log: seq<Verdict>, v: Verdict, ip: string, start: real)
    ensures PassedSince(log + [v], ip, start) ==
            PassedSince(log, ip, start) + if v.ip == ip && v.allowed && start <= v.at then 1 else 0
  {
    assert (log + [v])[..|log|] == log;
  }

  lemma RoomGrows(cfg: Config, log: seq<Verdict>, ip: string, start: real, now: real, t: real)
    ensures Room(cfg, log, ip, start, t) == Room(cfg, log, ip, start, now) + cfg.rate * (t - now)
  {
    DripsAdd(cfg.rate, start, now, t);
  }

  /** A level gains what drips in, up to the burst. */
  function Refilled(cfg: Config, level: real, gained: real): real {
    if level + gained > cfg.burst as real then cfg.burst as real else level + gained
  }

  lemma LevelRefills(cfg: Config, s: Slots, ip: string, now: real, t: real)
    requires Kept(cfg, s, now) && now <= t
    ensures LevelOf(cfg, s, ip, t) == Refilled(cfg, LevelOf(cfg, s, ip, now), cfg.rate * (t - now))
  {
    Gains(cfg.rate, 0.0, t - now);
    if ip in s {
      DripsAdd(cfg.rate, s[ip].bucket.last, now, t);
    }
  }

  /** Time passes. */
  lemma TightestLater(cfg: Config, log: seq<Verdict>, ip: string, now: real, t: real, level: real)
    requires cfg.rate >= 0.0 && Past(log, now) && now <= t && level <= cfg.burst as real
    requires Tightest(cfg, log, ip, now, level)
    ensures Tightest(cfg, log, ip, t, Refilled(cfg, level, cfg.rate * (t - now)))
  {
    var level' := Refilled(cfg, level, cfg.rate * (t - now));
    forall start | start <= t ensures level' <= Room(cfg, log, ip, start, t) {
      if start <= now {
        RoomGrows(cfg, log, ip, start, now, t);
      } else {
        NothingSince(log, ip, now, start);
        Gains(cfg.rate, 0.0, t - start);
      }
    }
    if level' < cfg.burst as real || t == now {
      var start :| start <= now && level == Room(cfg, log, ip, start, now);
      RoomGrows(cfg, log, ip, start, now, t);
      assert level' == Room(cfg, log, ip, start, t);
    } else {
      NothingSince(log, ip, now, t);
      assert level' == Room(cfg, log, ip, t, t);
    }
  }

  /** The client is let through. */
  lemma TightestTaken(cfg: Config, log: seq<Verdict>, ip: string, now: real, level: real)
    requires Tightest(cfg, log, ip, now, level)
    ensures Tightest(cfg, log + [Verdict(ip, now, true)], ip, now, level - 1.0)
  {
    var v := Verdict(ip, now, true);
    forall start | start <= now ensures level - 1.0 <= Room(cfg, log + [v], ip, start, now) {
      PassedAppend(log, v, ip, start);
      assert level <= Room(cfg, log, ip, start, now);
    }
    var start :| start <= now && level == Room(cfg, log, ip, start, now);
    PassedAppend(log, v, ip, start);
    assert level - 1.0 == Room(cfg, log + [v], ip, start, now);
  }

  /** Another client is answered, or this one is refused. */
  lemma TightestKept(cfg: Config, log: seq<Verdict>, v: Verdict, ip: string, now: real, level: real)
    requires Tightest(cfg, log, ip, now, level) && !(v.ip == ip && v.allowed)
    ensures Tightest(cfg, log + [v], ip, now, level)
  {
    forall start | start <= now ensures level <= Room(cfg, log + [v], ip, start, now) {
      PassedAppend(log, v, ip, start);
      assert level <= Room(cfg, log, ip, start, now);
    }
    var start :| start <= now && level == Room(cfg, log, ip, start, now);
    PassedAppend(log, v, ip, start);
    assert level == Room(cfg, log + [v], ip, start, now);
  }

  /** The level decides as the reference limiter does. */
  lemma TightestDecides(cfg: Config, log: seq<Verdict>, ip: string, now: real, level: real)
    requires Tightest(cfg, log, ip, now, level)
    ensures level >= 1.0 <==> !TooMany(cfg, log, ip, now)
  {
    if TooMany(cfg, log, ip, now) {
      var start :| start <= now && TooManySince(cfg, log, ip, start, now);
      assert level <= Room(cfg, log, ip, start, now);
    }
    if level < 1.0 {
      var start :| start <= now && level == Room(cfg, log, ip, start, now);
      assert TooManySince(cfg, log, ip, start, now);
    }
  }

  /* ----- the limiter is the reference limiter ----- */

  /** Every level is explained by the answers given so far. */
  ghost predicate Explained(cfg: Config, s: Slots, log: seq<Verdict>, now: real) {
    && Kept(cfg, s, now) && Past(log, now)
    && forall ip :: Tightest(cfg, log, ip, now, LevelOf(cfg, s, ip, now))
  }

  lemma ExplainedLater(cfg: Config, s: Slots, log: seq<Verdict>, now: real, t: real)
    requires Explained(cfg, s, log, now) && now <= t
    ensures Explained(cfg, s, log, t)
  {
    KeptLater(cfg, s, now, t);
    forall ip ensures Tightest(cfg, log, ip, t, LevelOf(cfg, s, ip, t)) {
      assert Tightest(cfg, log, ip, now, LevelOf(cfg, s, ip, now));
      NotOverdrawn(cfg, s, ip, now);
      LevelRefills(cfg, s, ip, now, t);
      TightestLater(cfg, log, ip, now, t, LevelOf(cfg, s, ip, now));
    }
  }

  lemma RequestExplained(cfg: Config, s: Slots, log: seq<Verdict>, client: string, now: real, evicting: bool)
    requires Explained(cfg, s, log, now)
    ensures var r := Happen(cfg, s, Request(client, now), evicting);
            && r.verdicts == [Verdict(client, now, !TooMany(cfg, log, client, now))]
            && Explained(cfg, r.slots, log + r.verdicts, now)
  {
    var r := Happen(cfg, s, Request(client, now), evicting);
    var level := LevelOf(cfg, s, client, now);
    GateLevels(cfg, s, client, now, client, now);
    assert Tightest(cfg, log, client, now, level);
    TightestDecides(cfg, log, client, now, level);
    HappenKeeps(cfg, s, now, Request(client, now), evicting);
    forall ip ensures Tightest(cfg, log + r.verdicts, ip, now, LevelOf(cfg, r.slots, ip, now)) {
      GateLevels(cfg, s, client, now, ip, now);
      assert Tightest(cfg, log, ip, now, LevelOf(cfg, s, ip, now));
      if ip == client && r.verdicts[0].allowed {
        NotOverdrawn(cfg, s, client, now);
        TightestTaken(cfg, log, ip, now, level);
      } else {
        TightestKept(cfg, log, r.verdicts[0], ip, now, LevelOf(cfg, s, ip, now));
      }
    }
  }

  lemma CleanupExplained(cfg: Config, s: Slots, log: seq<Verdict>, now: real, evicting: bool)
    requires Explained(cfg, s, log, now) && (evicting ==> FillsWhileIdle(cfg))
    ensures Explained(cfg, Happen(cfg, s, Cleanup(now), evicting).slots, log, now)
  {
    var s' := Happen(cfg, s, Cleanup(now), evicting).slots;
    HappenKeeps(cfg, s, now, Cleanup(now), evicting);
    forall ip ensures Tightest(cfg, log, ip, now, LevelOf(cfg, s', ip, now)) {
      assert Tightest(cfg, log, ip, now, LevelOf(cfg, s, ip, now));
      if evicting {
        EvictLevels(cfg, s, now, ip, now);
      }
    }
  }

  lemma StartExplained(cfg: Config, from: real)
    requires cfg.rate >= 0.0
    ensures Explained(cfg, map[], [], from)
  {
    forall ip ensures Tightest(cfg, [], ip, from, LevelOf(cfg, map[], ip, from)) {
      forall start | start <= from ensures cfg.burst as real <= Room(cfg, [], ip, start, from) {
        Gains(cfg.rate, 0.0, from - start);
      }
      assert Room(cfg, [], ip, from, from) == cfg.burst as real;
    }
  }

  lemma {:induction false} LimiterAnswers(cfg: Config, trace: seq<Happening>, from: real, evicting: bool)
    requires cfg.rate >= 0.0 && Timed(trace, from) && (evicting ==> FillsWhileIdle(cfg))
    ensures var r := Trace(cfg, map[], trace, evicting);
            r.verdicts == Answers(cfg, trace) && Explained(cfg, r.slots, r.verdicts, EndOf(trace, from))
    decreases |trace|
  {
    if trace == [] {
      StartExplained(cfg, from);
    } else {
      var n := |trace| - 1;
      var before, h := trace[..n], trace[n];
      assert trace == before + [h];
      TimedConcat(before, [h], from);
      LimiterAnswers(cfg, before, from, evicting);
      var r := Trace(cfg, map[], before, evicting);
      TraceConcat(cfg, map[], before, [h], evicting);
      LastHappening(cfg, r.slots, h, evicting);
      ExplainedLater(cfg, r.slots, r.verdicts, EndOf(before, from), h.at);
      match h
      case Request(ip, now) => RequestExplained(cfg, r.slots, r.verdicts, ip, now, evicting);
      case Cleanup(now) => CleanupExplained(cfg, r.slots, r.verdicts, now, evicting);
    }
  }

  lemma LastHappening(cfg: Config, s: Slots, h: Happening, evicting: bool)
    ensures Trace(cfg, s, [h], evicting) == Happen(cfg, s, h, evicting)
  {
    var r := Happen(cfg, s, h, evicting);
    assert [h][1..] == [];
    assert Trace(cfg, r.slots, [], evicting) == Outcome(r.slots, []);
    assert r.verdicts + [] == r.verdicts;
  }

  ghost predicate RefusesTheExcess(cfg: Config) {
    forall trace, from :: Timed(trace, from) ==> Trace(cfg, map[], trace, true).verdicts == Answers(cfg, trace)
  }

  /** For every rate and burst: in every trace the limiter refuses exactly the requests
      that are one too many in some stretch of time, if and only if a client's bucket
      fills within the ten minutes after which it may be forgotten. */
  lemma RefusedIff(cfg: Config)
    requires cfg.rate >= 0.0
    ensures cfg.rate * 600.0 >= cfg.burst as real <==> RefusesTheExcess(cfg)
  {
    if FillsWhileIdle(cfg) {
      forall trace, from | Timed(trace, from) ensures Trace(cfg, map[], trace, true).verdicts == Answers(cfg, trace) {
        LimiterAnswers(cfg, trace, from, true);
      }
    } else {
      WitnessBreaks(cfg);
      LimiterAnswers(cfg, Witness(cfg), 0.0, false);
      assert Timed(Witness(cfg), 0.0);
    }
  }

  /** The answer to one request, after any trace. */
  lemma RequestRefusedIff(cfg: Config, before: seq<Happening>, ip: string, now: real, from: real)
    requires cfg.rate >= 0.0 && cfg.rate * 600.0 >= cfg.burst as real && Timed(before + [Request(ip, now)], from)
    ensures var log := Trace(cfg, map[], before, true).verdicts;
            var after := Trace(cfg, map[], before + [Request(ip, now)], true).verdicts;
            && |after| == |log| + 1 && after[..|log|] == log && after[|log|].ip == ip && after[|log|].at == now
            && (!after[|log|].allowed <==>
                  exists start ::
                    start <= now && PassedSince(log, ip, start) as real + 1.0 > cfg.burst as real + cfg.rate * (now - start))
  {
    var trace := before + [Request(ip, now)];
    assert trace[..|before|] == before;
    TimedConcat(before, [Request(ip, now)], from);
    LimiterAnswers(cfg, before, from, true);
    LimiterAnswers(cfg, trace, from, true);
    TooManyMeans(cfg, Answers(cfg, before), ip, now);
  }

  lemma TooManyMeans(cfg: Config, log: seq<Verdict>, ip: string, now: real)
    ensures TooMany(cfg, log, ip, now) <==>
            exists start ::
              start <= now && PassedSince(log, ip, start) as real + 1.0 > cfg.burst as real + cfg.rate * (now - start)
  {
    if TooMany(cfg, log, ip, now) {
      var start :| start <= now && TooManySince(cfg, log, ip, start, now);
      assert PassedSince(log, ip, start) as real + 1.0 > cfg.burst as real + cfg.rate * (now - start);
    }
    if start :| start <= now && PassedSince(log, ip, start) as real + 1.0 > cfg.burst as real + cfg.rate * (now - start) {
      assert TooManySince(cfg, log, ip, start, now);
    }
  }

  /* ----- a client that keeps to the rate ----- */

  /** The requests of `ip` since `start`, let through or not. */
  function AskedSince(trace: seq<Happening>, ip: string, start: real): nat {
    if trace == [] then 0
    else
      var n := |trace| - 1;
      AskedSince(trace[..n], ip, start) + if trace[n].Request? && trace[n].ip == ip && start <= trace[n].at then 1 else 0
  }

  /** `ip` never asks more often than burst and rate allow, in any stretch that ends with a request. */
  ghost predicate KeepsToTheRate(cfg: Config, trace: seq<Happening>, ip: string) {
    forall k :: 0 <= k < |trace| && trace[k].Request? && trace[k].ip == ip ==>
      AskedWithin(cfg, trace[..k + 1], ip, trace[k].at)
  }

  ghost predicate AskedWithin(cfg: Config, trace: seq<Happening>, ip: string, now: real) {
    forall start :: start <= now ==> AskedSince(trace, ip, start) as real <= cfg.burst as real + cfg.rate * (now - start)
  }

  lemma {:induction false} PassedWereAsked(cfg: Config, trace: seq<Happening>, ip: string, start: real)
    ensures PassedSince(Answers(cfg, trace), ip, start) <= AskedSince(trace, ip, start)
    decreases |trace|
  {
    if trace != [] {
      var n := |trace| - 1;
      var log := Answers(cfg, trace[..n]);
      PassedWereAsked(cfg, trace[..n], ip, start);
      match trace[n]
      case Request(client, now) => PassedAppend(log, Verdict(client, now, !TooMany(cfg, log, client, now)), ip, start);
      case Cleanup(_) =>
    }
  }

  lemma {:induction false} KeepingPasses(cfg: Config, trace: seq<Happening>, ip: string)
    requires KeepsToTheRate(cfg, trace, ip)
    ensures forall v :: v in Answers(cfg, trace) && v.ip == ip ==> v.allowed
    decreases |trace|
  {
    if trace != [] {
      var n := |trace| - 1;
      var before := trace[..n];
      assert forall k :: 0 <= k < n ==> before[k] == trace[k] && before[..k + 1] == trace[..k + 1];
      KeepingPasses(cfg, before, ip);
      if trace[n].Request? && trace[n].ip == ip {
        var log, now := Answers(cfg, before), trace[n].at;
        assert trace[..n + 1] == trace;
        assert AskedWithin(cfg, trace, ip, now);
        forall start | start <= now ensures !TooManySince(cfg, log, ip, start, now) {
          PassedWereAsked(cfg, before, ip, start);
          assert AskedSince(trace, ip, start) == AskedSince(before, ip, start) + 1;
        }
      }
    }
  }

  /** Such a client is never refused, whoever else asks and however often idle clients are forgotten. */
  lemma KeepingIsNeverRefused(cfg: Config, trace: seq<Happening>, from: real, ip: string)
    requires cfg.rate >= 0.0 && cfg.rate * 600.0 >= cfg.burst as real && Timed(trace, from)
    requires KeepsToTheRate(cfg, trace, ip)
    ensures forall v :: v in Trace(cfg, map[], trace, true).verdicts && v.ip == ip ==> v.allowed
  {
    LimiterAnswers(cfg, trace, from, true);
    KeepingPasses(cfg, trace, ip);
  }
}
