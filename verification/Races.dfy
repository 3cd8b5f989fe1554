/** The race that needs no second validation: a creation read the cache before the gate
    admitted its ticket live, and writes it afterwards. */
module Races {
  import opened Wrappers
  import opened TicketDomain
  import opened TicketStore
  import opened ValidatorDomain
  import opened Calls
  import opened Protocol
  import opened Views
  import opened Safety
  import opened Guarantees
  import opened Reduction
  import opened Staleness
  import opened Overlaps

  /** A validation and a delivery of the created message of its code. */
  predicate Rivals(x: Call, y: Call) {
    x.Validate? && y.Deliver? && y.message.TicketCreated? && x.Code() == y.Code()
  }

  /** Alone, the validation would admit live and put the use on record. */
  predicate EntersLive(base: CodeView, x: Call)
    requires x.Validate?
  {
    base.record.None? && Opens(base, x) && Recorded(Request(x))
  }

  /** Alone, the creation would be cached. */
  predicate Caches(base: CodeView, y: Call)
    requires y.Deliver?
  {
    base.record.None? && y.io.get && y.io.write
  }

  /** The validation has admitted on record, or is about to. */
  predicate Gained(base: CodeView, v: CodeView, tx: Option<Thread>) {
    if tx.None? then v.admitted - v.missed == base.admitted - base.missed + 1
    else (tx.value.Writing? || tx.value.Sending?) && tx.value.r.effect.admits && !tx.value.r.effect.missed
  }

  /** A thread of `call`, in a stage such a call goes through. */
  predicate Stage(call: Call, th: Option<Thread>) {
    th.Some? ==>
      && th.value.call == call
      && (th.value.Asking? ==> call.Validate? && call.io.get)
      && (th.value.Acking? ==> call.Deliver?)
      && (th.value.Writing? || th.value.Sending? ==>
            (th.value.r.effect.record.Some? ==>
               Is(th.value.r.effect.record, if call.Validate? then ValidTicketStatus.Used else Active)))
  }

  /** Both started from `base`; `hit` says that the validation wrote while the creation had read and not written. */
  predicate Race(base: CodeView, v: CodeView, x: Call, y: Call, tx: Option<Thread>, ty: Option<Thread>, hit: bool)
    requires Rivals(x, y)
  {
    var g := Gained(base, v, tx);
    && v.row == base.row && Stage(x, tx) && Stage(y, ty)
    && v.admitted - v.missed == base.admitted - base.missed + Count(tx.None? && g)
    && (hit ==> Wrote(tx) && !Unread(ty))
    && (tx.Some? && tx.value.Writing? && !Wrote(ty) && base.record.None? ==> g == EntersLive(base, x))
    && (ty.Some? && ty.value.Writing? ==>
          var writes := ty.value.r.effect.record.Some?;
          && (!Wrote(tx) || hit ==> writes == Caches(base, y))
          && (Wrote(tx) && !hit && writes ==> !g))
    && (!Wrote(tx) && !Wrote(ty) ==> v.record == base.record)
    && (Wrote(tx) && !Wrote(ty) ==>
          && (if g then Is(v.record, ValidTicketStatus.Used) else v.record == base.record)
          && (base.record.None? ==> g == EntersLive(base, x)))
    && (Wrote(ty) && !Wrote(tx) ==> if Caches(base, y) then Is(v.record, Active) else v.record == base.record)
    && (Wrote(tx) && Wrote(ty) ==> (Is(v.record, Active) && g <==> hit && EntersLive(base, x) && Caches(base, y)))
  }

  lemma LiveGain(v: CodeView, x: Call)
    requires Sound(v) && x.Validate? && (v.row.Some? ==> v.row.value.code == x.Code())
    ensures var e := Respond(v.row, None, x).effect;
            e.admits && !e.missed <==> Opens(v.(record := None), x) && Recorded(Request(x))
  {
  }

  lemma CreationWrites(row: Option<TicketRow>, record: Option<CacheRecord>, y: Call)
    requires y.Deliver? && y.message.TicketCreated? && y.message.code != "" && y.message.eventId > 0
    ensures var e := Respond(row, record, y).effect;
            (e.record.Some? <==> record.None? && y.io.get && y.io.write) && (e.record.Some? ==> Is(e.record, Active))
  {
  }

  /** What the lemmas below assume of both calls. */
  ghost predicate Ready(base: CodeView, x: Call, y: Call) {
    && Sound(base) && base.row.Some? && base.row.value.code == x.Code()
    && Rivals(x, y) && y.message.code != "" && y.message.eventId > 0
  }

  lemma LiveAnswer(row: Option<TicketRow>, record: Option<CacheRecord>, x: Call)
    requires x.Validate?
    ensures var e := Respond(row, record, x).effect; e.record.Some? ==> Is(e.record, ValidTicketStatus.Used)
    ensures !x.io.get ==> Respond(row, record, x).effect == Nothing(x.c)
  {
  }

  lemma GateReads(base: CodeView, v: CodeView, x: Call, y: Call, tx: Thread, ty: Option<Thread>, hit: bool)
    requires Ready(base, x, y) && Race(base, v, x, y, Some(tx), ty, hit) && tx.Reading?
    ensures Race(base, MovedView(v, tx), x, y, MovedThread(v, tx), ty, hit)
  {
    LiveAnswer(v.row, v.record, x);
  }

  lemma GateAsks(base: CodeView, v: CodeView, x: Call, y: Call, tx: Thread, ty: Option<Thread>, hit: bool)
    requires Ready(base, x, y) && Race(base, v, x, y, Some(tx), ty, hit) && tx.Asking?
    ensures Race(base, MovedView(v, tx), x, y, MovedThread(v, tx), ty, hit)
  {
    LiveAnswer(v.row, None, x);
    LiveGain(base, x);
    assert base.record.None? ==> base.(record := None) == base;
  }

  lemma GateWrites(base: CodeView, v: CodeView, x: Call, y: Call, tx: Thread, ty: Option<Thread>, hit: bool)
    requires Ready(base, x, y) && Race(base, v, x, y, Some(tx), ty, hit) && tx.Writing? && AnchoredThread(v.row, tx)
    ensures Race(base, MovedView(v, tx), x, y, MovedThread(v, tx), ty, ty.Some? && ty.value.Writing?)
  {
  }

  lemma GateTells(base: CodeView, v: CodeView, x: Call, y: Call, tx: Thread, ty: Option<Thread>, hit: bool)
    requires Ready(base, x, y) && Race(base, v, x, y, Some(tx), ty, hit) && tx.Sending? && AnchoredThread(v.row, tx)
    ensures Race(base, MovedView(v, tx), x, y, MovedThread(v, tx), ty, hit)
  {
  }

  lemma CreationReads(base: CodeView, v: CodeView, x: Call, y: Call, tx: Option<Thread>, ty: Thread, hit: bool)
    requires Ready(base, x, y) && Race(base, v, x, y, tx, Some(ty), hit) && ty.Reading?
    ensures Race(base, MovedView(v, ty), x, y, tx, MovedThread(v, ty), hit)
  {
    CreationWrites(v.row, v.record, y);
  }

  lemma CreationStores(base: CodeView, v: CodeView, x: Call, y: Call, tx: Option<Thread>, ty: Thread, hit: bool)
    requires Ready(base, x, y) && Race(base, v, x, y, tx, Some(ty), hit) && ty.Writing? && AnchoredThread(v.row, ty)
    ensures Race(base, MovedView(v, ty), x, y, tx, MovedThread(v, ty), hit)
  {
    var v' := MovedView(v, ty);
    assert v'.row == v.row && v'.admitted == v.admitted && v'.missed == v.missed;
  }

  /** After its write the delivery changes queues only. */
  lemma CreationEnds(base: CodeView, v: CodeView, x: Call, y: Call, tx: Option<Thread>, ty: Thread, hit: bool)
    requires Ready(base, x, y) && Race(base, v, x, y, tx, Some(ty), hit) && (ty.Sending? || ty.Acking?) && AnchoredThread(v.row, ty)
    ensures Race(base, MovedView(v, ty), x, y, tx, MovedThread(v, ty), hit)
  {
    var v' := MovedView(v, ty);
    assert v'.row == v.row && v'.record == v.record && v'.admitted - v'.missed == v.admitted - v.missed;
    assert Wrote(MovedThread(v, ty)) && Gained(base, v', tx) == Gained(base, v, tx);
  }

  /* ----- the race in the interleaved system ----- */

  ghost predicate Racing(base: CodeView, f: Fine, gate: string, queue: string, x: Call, y: Call, hit: bool) {
    && Anchored(f) && gate != queue && Ready(base, x, y)
    && Race(base, View(f.w, x.Code()), x, y, ThreadAt(f, gate), ThreadAt(f, queue), hit)
  }

  /** With this step the validation writes, while the creation has read and not written. */
  predicate StraddledNow(f: Fine, lane: string, gate: string, queue: string) {
    lane == gate && gate in f.threads && f.threads[gate].Writing? && queue in f.threads && f.threads[queue].Writing?
  }

  /** The creation read before the validation wrote, and writes after it. */
  ghost predicate Straddles(f: Fine, schedule: seq<string>, gate: string, queue: string)
    decreases |schedule|
  {
    schedule != [] &&
      (StraddledNow(f, schedule[0], gate, queue)
       || Straddles(FineStep(f, Advance(schedule[0])), schedule[1..], gate, queue))
  }

  lemma GateMoves(base: CodeView, f: Fine, gate: string, queue: string, x: Call, y: Call, hit: bool)
    requires Racing(base, f, gate, queue, x, y, hit) && gate in f.threads
    ensures Racing(base, Advanced(f, gate), gate, queue, x, y, hit || StraddledNow(f, gate, gate, queue))
  {
    var v, tx, ty := View(f.w, x.Code()), f.threads[gate], ThreadAt(f, queue);
    AdvanceKeepsAnchored(f, gate);
    AdvanceViews(f, gate, x.Code());
    AdvanceThreads(f, gate);
    assert AnchoredThread(v.row, tx);
    match tx
    case Reading(_) => GateReads(base, v, x, y, tx, ty, hit);
    case Asking(_) => GateAsks(base, v, x, y, tx, ty, hit);
    case Writing(_, _) => GateWrites(base, v, x, y, tx, ty, hit);
    case Sending(_, _) => GateTells(base, v, x, y, tx, ty, hit);
    case Acking(_, _) =>
  }

  lemma CreationMoves(base: CodeView, f: Fine, gate: string, queue: string, x: Call, y: Call, hit: bool)
    requires Racing(base, f, gate, queue, x, y, hit) && queue in f.threads
    ensures Racing(base, Advanced(f, queue), gate, queue, x, y, hit)
  {
    var v, tx, ty := View(f.w, x.Code()), ThreadAt(f, gate), f.threads[queue];
    AdvanceKeepsAnchored(f, queue);
    AdvanceViews(f, queue, x.Code());
    AdvanceThreads(f, queue);
    assert AnchoredThread(v.row, ty);
    match ty
    case Reading(_) => CreationReads(base, v, x, y, tx, ty, hit);
    case Asking(_) =>
    case Writing(_, _) => CreationStores(base, v, x, y, tx, ty, hit);
    case Sending(_, _) => CreationEnds(base, v, x, y, tx, ty, hit);
    case Acking(_, _) => CreationEnds(base, v, x, y, tx, ty, hit);
  }

  lemma {:induction false} RaceEnds(base: CodeView, f: Fine, schedule: seq<string>, gate: string, queue: string,
      x: Call, y: Call, hit: bool)
    requires Racing(base, f, gate, queue, x, y, hit)
    requires forall lane :: lane in schedule ==> lane == gate || lane == queue
    ensures Racing(base, FineRun(f, Advances(schedule)), gate, queue, x, y, hit || Straddles(f, schedule, gate, queue))
    decreases |schedule|
  {
    if schedule != [] {
      var lane, now := schedule[0], StraddledNow(f, schedule[0], gate, queue);
      assert lane in schedule && forall l :: l in schedule[1..] ==> l in schedule;
      if lane in f.threads {
        if lane == gate {
          GateMoves(base, f, gate, queue, x, y, hit);
        } else {
          CreationMoves(base, f, gate, queue, x, y, hit);
        }
      }
      RaceEnds(base, FineStep(f, Advance(lane)), schedule[1..], gate, queue, x, y, hit || now);
      AdvancesFirst(f, schedule);
    }
  }

  /** In every reachable world, of a validation and a delivery of the created message of its code, their
      steps merged in any order: the validation admits on record and the cache ends active, ready to
      admit again, if and only if it would admit live and on record, the creation can be cached, read
      before the validation wrote, and writes after it. */
  lemma UseIsLostIff(trace: seq<Action>, gate: string, queue: string, x: Call, y: Call, schedule: seq<string>)
    requires gate != queue && Rivals(x, y) && y.message in Run(EMPTY, trace).bus.queued
    requires forall lane :: lane in schedule ==> lane == gate || lane == queue
    requires FineRun(Both(Run(EMPTY, trace), gate, queue, x, y), Advances(schedule)).threads == map[]
    ensures var w, c := Run(EMPTY, trace), x.Code();
            var f := Both(w, gate, queue, x, y);
            var w' := FineRun(f, Advances(schedule)).w;
            w'.hist.admitted[c] + w.hist.missed[c] == w.hist.admitted[c] + w'.hist.missed[c] + 1 && Is(Lookup(w'.cache, c), Active)
            <==> EntersLive(View(w, c), x) && Caches(View(w, c), y) && Straddles(f, schedule, gate, queue)
  {
    ReachableIsSafe(trace);
    var w := Run(EMPTY, trace);
    var base, f := View(w, x.Code()), Both(w, gate, queue, x, y);
    RaceStarts(w, gate, queue, x, y);
    RaceEnds(base, f, schedule, gate, queue, x, y, false);
  }

  lemma RaceStarts(w: World, gate: string, queue: string, x: Call, y: Call)
    requires Safe(w) && gate != queue && Rivals(x, y) && y.message in w.bus.queued
    ensures Racing(View(w, x.Code()), Both(w, gate, queue, x, y), gate, queue, x, y, false)
  {
    var base := View(w, x.Code());
    assert Sound(base) && y.message in base.queued;
  }

  /* ----- two lanes of one code, played out ----- */

  datatype Pair = Pair(v: CodeView, a: Option<Thread>, b: Option<Thread>)

  /** The next step of the first or of the second call. */
  function Play(p: Pair, first: bool): Pair {
    if first then if p.a.None? then p else p.(v := MovedView(p.v, p.a.value), a := MovedThread(p.v, p.a.value))
    else if p.b.None? then p else p.(v := MovedView(p.v, p.b.value), b := MovedThread(p.v, p.b.value))
  }

  ghost predicate Plays(f: Fine, c: string, x: string, y: string, p: Pair) {
    && Anchored(f) && x != y && f.threads.Keys <= {x, y}
    && (forall l :: l in f.threads ==> f.threads[l].call.Code() == c)
    && p == Pair(View(f.w, c), ThreadAt(f, x), ThreadAt(f, y))
  }

  /** The step of one lane, all that is needed of it. */
  lemma LaneSteps(f: Fine, c: string, lane: string)
    requires Anchored(f) && lane in f.threads && forall l :: l in f.threads ==> f.threads[l].call.Code() == c
    ensures var f' := Advanced(f, lane);
            && Anchored(f') && f'.threads.Keys <= f.threads.Keys
            && (forall l :: l in f'.threads ==> f'.threads[l].call.Code() == c)
            && View(f'.w, c) == MovedView(View(f.w, c), f.threads[lane])
            && ThreadAt(f', lane) == MovedThread(View(f.w, c), f.threads[lane])
            && forall l :: l != lane ==> ThreadAt(f', l) == ThreadAt(f, l)
  {
    AdvanceViews(f, lane, c);
    AdvanceThreads(f, lane);
    AdvanceKeepsAnchored(f, lane);
    forall l | l in Advanced(f, lane).threads ensures l in f.threads && Advanced(f, lane).threads[l].call.Code() == c {
      AdvancedKeepsCalls(f, lane, l);
    }
  }

  lemma LaneStepsAre(f: Fine, lane: string)
    ensures FineStep(f, Advance(lane)) == if lane in f.threads then Advanced(f, lane) else f
  {
  }

  lemma PlayIsStep(f: Fine, c: string, x: string, y: string, p: Pair, first: bool)
    requires Plays(f, c, x, y, p)
    ensures Plays(FineStep(f, Advance(if first then x else y)), c, x, y, Play(p, first))
  {
    var lane := if first then x else y;
    LaneStepsAre(f, lane);
    if lane in f.threads {
      LaneSteps(f, c, lane);
    }
  }

  function PlayAll(p: Pair, turns: seq<bool>): Pair
    decreases |turns|
  {
    if turns == [] then p else PlayAll(Play(p, turns[0]), turns[1..])
  }

  function Lanes(turns: seq<bool>, x: string, y: string): seq<string> {
    seq(|turns|, i requires 0 <= i < |turns| => if turns[i] then x else y)
  }

  lemma {:induction false} PlayIsRun(f: Fine, c: string, x: string, y: string, p: Pair, turns: seq<bool>)
    requires Plays(f, c, x, y, p)
    ensures Plays(FineRun(f, Advances(Lanes(turns, x, y))), c, x, y, PlayAll(p, turns))
    decreases |turns|
  {
    if turns != [] {
      PlayIsStep(f, c, x, y, p, turns[0]);
      PlayIsRun(FineStep(f, Advance(if turns[0] then x else y)), c, x, y, Play(p, turns[0]), turns[1..]);
      AdvancesFirst(f, Lanes(turns, x, y));
      assert Lanes(turns, x, y)[1..] == Lanes(turns[1..], x, y);
    }
  }

  lemma PlayFour(p: Pair, t: seq<bool>)
    requires |t| >= 4
    ensures PlayAll(p, t) == PlayAll(Play(Play(Play(Play(p, t[0]), t[1]), t[2]), t[3]), t[4..])
  {
    PlayNext(p, t, 0);
    PlayNext(Play(p, t[0]), t, 1);
    PlayNext(Play(Play(p, t[0]), t[1]), t, 2);
    PlayNext(Play(Play(Play(p, t[0]), t[1]), t[2]), t, 3);
    assert t[0..] == t;
  }

  lemma PlayNext(p: Pair, t: seq<bool>, i: nat)
    requires i < |t|
    ensures PlayAll(p, t[i..]) == PlayAll(Play(p, t[i]), t[i + 1..])
  {
    assert t[i..][1..] == t[i + 1..];
  }

  lemma PlayStarts(w: World, x: string, y: string, first: Call, second: Call)
    requires ValidTickets(w) && x != y && first.Code() == second.Code()
    ensures Plays(Both(w, x, y, first, second), first.Code(), x, y,
                  Pair(View(w, first.Code()), Some(Reading(first)), Some(Reading(second))))
  {
  }

  /* ----- the use that is lost ----- */

  /** The creation reads; the gate reads, asks, writes and tells; the creation writes and is acknowledged. */
  const STALE_CREATION: seq<bool> := [false, true, true, true, true, false, false, false]

  /** Up to the gate's write. */
  lemma StaleCreationReads(v: CodeView, x: Call, y: Call)
    requires Sound(v) && v.row.Some? && v.row.value.code == x.Code() && Rivals(x, y) && EntersLive(v, x)
    ensures var rx, ry := Respond(v.row, None, x), Respond(v.row, None, y);
            Play(Play(Play(Play(Pair(v, Some(Reading(x)), Some(Reading(y))), false), true), true), true) ==
            Pair(ApplyView(v, WritePart(rx.effect)), Some(Sending(x, rx)), Some(Writing(y, ry)))
  {
    var rx, ry := Respond(v.row, None, x), Respond(v.row, None, y);
    var p0 := Pair(v, Some(Reading(x)), Some(Reading(y)));
    var p1 := Play(p0, false);
    assert p1 == Pair(v, Some(Reading(x)), Some(Writing(y, ry)));
    var p2 := Play(p1, true);
    assert p2 == p1.(a := Some(Asking(x)));
    assert Play(p2, true) == p2.(a := Some(Writing(x, rx)));
  }

  /** And from there on: the gate tells, the creation is stored and acknowledged. */
  lemma StaleCreationEnds(v: CodeView, x: Call, y: Call, rx: Response, ry: Response)
    requires Rivals(x, y) && rx.effect.admits && Is(ry.effect.record, Active) && !ry.effect.admits
    requires rx.effect.record.Some? && !TakesOff(x, rx)
    ensures var p := Play(Play(Play(Play(Pair(v, Some(Sending(x, rx)), Some(Writing(y, ry))), true), false), false), false);
            p.a.None? && p.b.None? && Is(p.v.record, Active) && p.v.admitted == v.admitted + 1
  {
    var p1 := Play(Pair(v, Some(Sending(x, rx)), Some(Writing(y, ry))), true);
    assert p1.a.None? && p1.b == Some(Writing(y, ry)) && p1.v.admitted == v.admitted + 1;
    var p2 := Play(p1, false);
    assert p2.a.None? && p2.b == Some(Sending(y, ry)) && p2.v.admitted == p1.v.admitted && p2.v.record == ry.effect.record;
    var p3 := Play(p2, false);
    assert p3.a.None? && p3.v.admitted == p2.v.admitted && p3.v.record == p2.v.record;
    assert p3.b == if TakesOff(y, ry) then Some(Acking(y, ry)) else None;
  }

  lemma StaleCreationPlays(v: CodeView, x: Call, y: Call)
    requires Sound(v) && v.row.Some? && v.row.value.code == x.Code() && Rivals(x, y) && y.message in v.queued
    requires EntersLive(v, x) && Caches(v, y)
    ensures var p := PlayAll(Pair(v, Some(Reading(x)), Some(Reading(y))), STALE_CREATION);
            p.a.None? && p.b.None? && Is(p.v.record, Active) && p.v.admitted == v.admitted + 1
  {
    var p0, rx, ry := Pair(v, Some(Reading(x)), Some(Reading(y))), Respond(v.row, None, x), Respond(v.row, None, y);
    assert v.(record := None) == v;
    CreationWrites(v.row, None, y);
    LiveGain(v, x);
    RespondShaped(v.row, None, x);
    RespondShaped(v.row, None, y);
    StaleCreationReads(v, x, y);
    StaleCreationEnds(ApplyView(v, WritePart(rx.effect)), x, y, rx, ry);
    PlayFour(p0, STALE_CREATION);
    PlayFour(Pair(ApplyView(v, WritePart(rx.effect)), Some(Sending(x, rx)), Some(Writing(y, ry))), STALE_CREATION[4..]);
  }

  /** Wherever the gate would admit live and the creation could be cached, the gate admits, its
      use is lost, and the cache says active. */
  lemma StaleCreationLosesUse(trace: seq<Action>, x: Call, y: Call)
    requires Rivals(x, y) && y.message in Run(EMPTY, trace).bus.queued
    requires EntersLive(View(Run(EMPTY, trace), x.Code()), x) && Caches(View(Run(EMPTY, trace), x.Code()), y)
    ensures var w, c := Run(EMPTY, trace), x.Code();
            var f := FineRun(Both(w, "gate", "queue", x, y), Advances(Lanes(STALE_CREATION, "gate", "queue")));
            && f.threads == map[] && ValidTickets(f.w)
            && f.w.hist.admitted[c] == w.hist.admitted[c] + 1 && Is(Lookup(f.w.cache, c), Active)
  {
    ReachableIsSafe(trace);
    var w, c := Run(EMPTY, trace), x.Code();
    var v := View(w, c);
    assert Sound(v) && y.message in v.queued;
    PlayStarts(w, "gate", "queue", x, y);
    PlayIsRun(Both(w, "gate", "queue", x, y), c, "gate", "queue", Pair(v, Some(Reading(x)), Some(Reading(y))), STALE_CREATION);
    StaleCreationPlays(v, x, y);
    BothGone(FineRun(Both(w, "gate", "queue", x, y), Advances(Lanes(STALE_CREATION, "gate", "queue"))), "gate", "queue");
  }

  lemma BothGone(f: Fine, x: string, y: string)
    requires f.threads.Keys <= {x, y}
    ensures ThreadAt(f, x).None? && ThreadAt(f, y).None? ==> f.threads == map[]
  {
  }

  /* ----- a cancelled ticket that is used again ----- */

  /** The delivery reads; the owner cancels; the delivery writes and is acknowledged. */
  const STALE_USE: seq<bool> := [false, true, true, true, false, false, false]

  /** Where the owner has cancelled. */
  const CANCELLED_BY_THEN := 4

  predicate OwnerAndUse(x: Call, y: Call) {
    && x.Cancel? && x.io == ALL_UP && y.Deliver? && y.message.TicketUsed? && y.io == ALL_UP && x.Code() == y.Code()
  }

  lemma OwnerAnswers(row: TicketRow, record: Option<CacheRecord>, x: Call, y: Call)
    requires row.status == Emitted && OwnerAndUse(x, y)
    ensures var e := Respond(Some(row), record, x).effect; e.row.Some? && e.row.value.status == TicketStatus.Cancelled
    ensures var e := Respond(Some(row), record, y).effect; e.row.Some? && e.row.value.status == TicketStatus.Used
  {
  }

  /** The delivery has read, and the owner's call runs from its read to its end. */
  lemma OwnerRuns(v: CodeView, x: Call, b: Option<Thread>)
    requires x.Cancel?
    ensures var rx := Respond(v.row, v.record, x);
            var p := Play(Play(Play(Pair(v, Some(Reading(x)), b), true), true), true);
            p.a.None? && p.b == b && p.v.row == if rx.effect.row.Some? then rx.effect.row else v.row
  {
    var rx := Respond(v.row, v.record, x);
    var p1 := Play(Pair(v, Some(Reading(x)), b), true);
    assert p1 == Pair(v, Some(Writing(x, rx)), b);
    var p2 := Play(p1, true);
    assert p2 == Pair(ApplyView(v, WritePart(rx.effect)), Some(Sending(x, rx)), b);
  }

  lemma StaleUsePlays(v: CodeView, x: Call, y: Call)
    requires v.row.Some? && v.row.value.status == Emitted && v.row.value.code == x.Code() && OwnerAndUse(x, y)
    ensures var p0 := Pair(v, Some(Reading(x)), Some(Reading(y)));
            var p4 := PlayAll(p0, STALE_USE[..CANCELLED_BY_THEN]);
            var p := PlayAll(p0, STALE_USE);
            && p4.a.None? && p4.v.row.Some? && p4.v.row.value.status == TicketStatus.Cancelled
            && p.a.None? && p.b.None? && p.v.row.Some? && p.v.row.value.status == TicketStatus.Used
  {
    var ry := Respond(v.row, v.record, y);
    var p0 := Pair(v, Some(Reading(x)), Some(Reading(y)));
    OwnerAnswers(v.row.value, v.record, x, y);
    assert Play(p0, false) == Pair(v, Some(Reading(x)), Some(Writing(y, ry)));
    OwnerRuns(v, x, Some(Writing(y, ry)));
    PlayFour(p0, STALE_USE[..CANCELLED_BY_THEN]);
    PlayFour(p0, STALE_USE);
    UseEnds(Play(Play(Play(Play(p0, false), true), true), true), y, ry, STALE_USE[4..]);
  }

  lemma UseEnds(p: Pair, y: Call, ry: Response, turns: seq<bool>)
    requires p.a.None? && p.b == Some(Writing(y, ry)) && ry.effect.row.Some? && turns == [false, false, false]
    ensures var p' := PlayAll(p, turns);
            p'.a.None? && p'.b.None? && p'.v.row == ry.effect.row
  {
    assert turns[1..] == [false, false] && turns[2..] == [false] && turns[1..][1..] == turns[2..] && turns[2..][1..] == [];
    var p1 := Play(p, false);
    assert p1.b == Some(Sending(y, ry)) && p1.v.row == ry.effect.row;
    var p2 := Play(p1, false);
    assert p2.v.row == ry.effect.row;
    assert PlayAll(p, turns) == PlayAll(p1, turns[1..]) == PlayAll(p2, turns[2..]) == PlayAll(Play(p2, false), []);
  }

  /** Wherever a use waits for an emitted ticket: the owner cancels it, and the stale delivery marks
      it used all the same. Its status has moved twice. */
  lemma StaleUseRevives(trace: seq<Action>, x: Call, y: Call)
    requires OwnerAndUse(x, y)
    requires var row := ByCode(Run(EMPTY, trace).db.tickets, x.Code()); row.Some? && row.value.status == Emitted
    ensures var f := Both(Run(EMPTY, trace), "owner", "queue", x, y);
            var f4 := FineRun(f, Advances(Lanes(STALE_USE[..CANCELLED_BY_THEN], "owner", "queue")));
            var f' := FineRun(f, Advances(Lanes(STALE_USE, "owner", "queue")));
            var row4, row' := ByCode(f4.w.db.tickets, x.Code()), ByCode(f'.w.db.tickets, x.Code());
            && row4.Some? && row4.value.status == TicketStatus.Cancelled
            && f'.threads == map[] && row'.Some? && row'.value.status == TicketStatus.Used
  {
    ReachableIsSafe(trace);
    var w, c := Run(EMPTY, trace), x.Code();
    var f, p0 := Both(w, "owner", "queue", x, y), Pair(View(w, c), Some(Reading(x)), Some(Reading(y)));
    PlayStarts(w, "owner", "queue", x, y);
    PlayIsRun(f, c, "owner", "queue", p0, STALE_USE);
    PlayIsRun(f, c, "owner", "queue", p0, STALE_USE[..CANCELLED_BY_THEN]);
    StaleUsePlays(View(w, c), x, y);
    BothGone(FineRun(f, Advances(Lanes(STALE_USE, "owner", "queue"))), "owner", "queue");
  }
}
