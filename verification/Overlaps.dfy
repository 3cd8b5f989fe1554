/** Why calls on one code must not overlap: two validations of the same code, their steps
    merged in any order, and exactly when both of them admit. */
module Overlaps {
  import opened Wrappers
  import opened TicketDomain
  import opened TicketStore
  import opened ValidatorDomain
  import opened Calls
  import opened Protocol
  import opened Views
  import opened Safety
  import opened Guarantees
  import opened Reduction
  import opened Samples

  /** The call has not read the cache yet. */
  predicate Unread(th: Option<Thread>) {
    th.Some? && th.value.Reading?
  }

  /** The call has written what it writes. */
  predicate Wrote(th: Option<Thread>) {
    th.None? || th.value.Sending? || th.value.Acking?
  }

  /** A validation's next step, seen from its own code. */
  function MoveView(v: CodeView, th: Thread): CodeView {
    match th
    case Writing(_, r) => ApplyView(v, WritePart(r.effect))
    case Sending(_, r) => ApplyView(v, TellPart(r.effect))
    case _ => v
  }

  function MoveThread(v: CodeView, th: Thread): Option<Thread> {
    match th
    case Reading(call) => Some(if AsksLive(v.record, call) then Asking(call) else Writing(call, Respond(v.row, v.record, call)))
    case Asking(call) => Some(Writing(call, Respond(v.row, None, call)))
    case Writing(call, r) => Some(Sending(call, r))
    case _ => None
  }

  /* ----- two validations, seen from their code ----- */

  /** What the cache says after `call` alone. */
  function After(base: CodeView, call: Call): Option<CacheRecord> {
    ServeView(base, call).record
  }

  /** The validation `x`, in progress as `th`, found `seen` in the cache if it read it. */
  predicate Found(base: CodeView, x: Call, th: Option<Thread>, seen: Option<CacheRecord>) {
    th.Some? ==>
      && th.value.call == x
      && match th.value
         case Reading(_) => true
         case Asking(_) => AsksLive(seen, x)
         case Writing(_, r) => r == Respond(base.row, seen, x)
         case Sending(_, r) => r == Respond(base.row, seen, x)
         case Acking(_, _) => false
  }

  /** What `x` finds, if `y` overtakes it or not. */
  function Seen(base: CodeView, y: Call, overtaken: bool): Option<CacheRecord> {
    if overtaken then After(base, y) else base.record
  }

  function Entered(base: CodeView, x: Call, th: Option<Thread>, seen: Option<CacheRecord>): nat
    requires x.Validate?
  {
    Count(th.None? && Opens(base.(record := seen), x))
  }

  /** Both started from `base`; `v` is the view now. `xy` says that `x` wrote before `y`
      read, `yx` the reverse. */
  ghost predicate Joint(base: CodeView, v: CodeView, x: Call, y: Call, tx: Option<Thread>, ty: Option<Thread>, xy: bool, yx: bool)
    requires x.Validate? && y.Validate?
  {
    && !(xy && yx) && (xy ==> Wrote(tx)) && (yx ==> Wrote(ty))
    && (Wrote(tx) && Unread(ty) ==> xy) && (Wrote(ty) && Unread(tx) ==> yx)
    && v.row == base.row
    && Found(base, x, tx, Seen(base, y, yx)) && Found(base, y, ty, Seen(base, x, xy))
    && (!Wrote(tx) && !Wrote(ty) ==> v.record == base.record)
    && (Wrote(tx) && !Wrote(ty) ==> v.record == After(base, x))
    && (Wrote(ty) && !Wrote(tx) ==> v.record == After(base, y))
    && v.admitted == base.admitted + Entered(base, x, tx, Seen(base, y, yx)) + Entered(base, y, ty, Seen(base, x, xy))
  }

  lemma JointSwaps(base: CodeView, v: CodeView, x: Call, y: Call, tx: Option<Thread>, ty: Option<Thread>, xy: bool, yx: bool)
    requires x.Validate? && y.Validate? && Joint(base, v, x, y, tx, ty, xy, yx)
    ensures Joint(base, v, y, x, ty, tx, yx, xy)
  {
  }

  lemma AdmitsIffOpens(base: CodeView, seen: Option<CacheRecord>, x: Call)
    requires x.Validate?
    ensures var e := Respond(base.row, seen, x).effect;
            (e.admits <==> Opens(base.(record := seen), x)) && e.row.None?
    ensures After(base, x) == ApplyView(base, Respond(base.row, base.record, x).effect).record
  {
  }

  lemma ReadMoves(base: CodeView, v: CodeView, x: Call, y: Call, tx: Thread, ty: Option<Thread>, xy: bool, yx: bool)
    requires x.Validate? && y.Validate? && Joint(base, v, x, y, Some(tx), ty, xy, yx)
    requires tx.Reading? || tx.Asking?
    ensures Joint(base, v, x, y, MoveThread(v, tx), ty, xy, yx)
  {
  }

  lemma WriteMoves(base: CodeView, v: CodeView, x: Call, y: Call, tx: Thread, ty: Option<Thread>, xy: bool, yx: bool)
    requires x.Validate? && y.Validate? && Joint(base, v, x, y, Some(tx), ty, xy, yx) && tx.Writing?
    ensures Joint(base, MoveView(v, tx), x, y, MoveThread(v, tx), ty, xy || Unread(ty), yx)
  {
    AdmitsIffOpens(base, Seen(base, y, yx), x);
  }

  lemma SendMoves(base: CodeView, v: CodeView, x: Call, y: Call, tx: Thread, ty: Option<Thread>, xy: bool, yx: bool)
    requires x.Validate? && y.Validate? && Joint(base, v, x, y, Some(tx), ty, xy, yx) && tx.Sending?
    ensures Joint(base, MoveView(v, tx), x, y, MoveThread(v, tx), ty, xy, yx)
  {
    AdmitsIffOpens(base, Seen(base, y, yx), x);
  }

  lemma JointMoves(base: CodeView, v: CodeView, x: Call, y: Call, tx: Thread, ty: Option<Thread>, xy: bool, yx: bool)
    requires x.Validate? && y.Validate? && Joint(base, v, x, y, Some(tx), ty, xy, yx)
    ensures Joint(base, MoveView(v, tx), x, y, MoveThread(v, tx), ty, xy || (Wrote(MoveThread(v, tx)) && Unread(ty)), yx)
  {
    match tx
    case Writing(_, _) => WriteMoves(base, v, x, y, tx, ty, xy, yx);
    case Sending(_, _) => SendMoves(base, v, x, y, tx, ty, xy, yx);
    case _ => ReadMoves(base, v, x, y, tx, ty, xy, yx);
  }

  /* ----- two validations in the interleaved system ----- */

  function Advances(schedule: seq<string>): seq<FineAction> {
    seq(|schedule|, i requires 0 <= i < |schedule| => Advance(schedule[i]))
  }

  /** At some moment of the schedule the call on lane `x` has written and that on `y` has not read. */
  ghost predicate Overtakes(f: Fine, schedule: seq<string>, x: string, y: string)
    decreases |schedule|
  {
    || (Wrote(ThreadAt(f, x)) && Unread(ThreadAt(f, y)))
    || (schedule != [] && Overtakes(FineStep(f, Advance(schedule[0])), schedule[1..], x, y))
  }

  /** Two validations of one code, and nothing else, are in progress. */
  ghost predicate Running(base: CodeView, f: Fine, c: string, x: string, y: string, first: Call, second: Call,
      xy: bool, yx: bool) {
    && ValidTickets(f.w) && x != y && f.threads.Keys <= {x, y}
    && first.Validate? && second.Validate? && first.Code() == c == second.Code()
    && Joint(base, View(f.w, c), first, second, ThreadAt(f, x), ThreadAt(f, y), xy, yx)
  }

  lemma EffectIsLocal(w: World, call: Call, seen: Option<CacheRecord>)
    requires call.Validate?
    ensures var row := ByCode(w.db.tickets, call.Code());
            var e := Respond(row, seen, call).effect;
            e.code == call.Code() && Local(row, e)
  {
    var _ := RespondIsLocal(ByCode(w.db.tickets, call.Code()), seen, call);
  }

  /** Writing and publishing, on the lane's own code. */
  lemma PartMoves(f: Fine, c: string, lane: string)
    requires ValidTickets(f.w) && lane in f.threads && (f.threads[lane].Writing? || f.threads[lane].Sending?)
    requires f.threads[lane].call.Validate? && f.threads[lane].call.Code() == c
    requires var e := f.threads[lane].r.effect; e.code == c && Local(ByCode(f.w.db.tickets, c), e)
    ensures var f' := Advanced(f, lane);
            ValidTickets(f'.w) && View(f'.w, c) == MoveView(View(f.w, c), f.threads[lane])
  {
    var e := f.threads[lane].r.effect;
    if f.threads[lane].Writing? {
      ApplyPart(f.w, WritePart(e), c);
    } else {
      ApplyPart(f.w, TellPart(e), c);
    }
  }

  lemma ThreadMoves(f: Fine, c: string, lane: string)
    requires lane in f.threads && f.threads[lane].call.Validate? && f.threads[lane].call.Code() == c
    ensures var f' := Advanced(f, lane);
            && ThreadAt(f', lane) == MoveThread(View(f.w, c), f.threads[lane])
            && f'.threads.Keys <= f.threads.Keys
            && forall l :: l != lane ==> ThreadAt(f', l) == ThreadAt(f, l)
  {
  }

  /** The lane's next step, in the system and in the view. */
  lemma AdvanceMoves(base: CodeView, f: Fine, c: string, lane: string, call: Call, seen: Option<CacheRecord>)
    requires ValidTickets(f.w) && lane in f.threads && call.Validate? && call.Code() == c
    requires Found(base, call, ThreadAt(f, lane), seen) && View(f.w, c).row == base.row
    ensures var f', th := Advanced(f, lane), f.threads[lane];
            && ValidTickets(f'.w) && View(f'.w, c) == MoveView(View(f.w, c), th)
            && ThreadAt(f', lane) == MoveThread(View(f.w, c), th)
            && f'.threads.Keys <= f.threads.Keys
            && forall l :: l != lane ==> ThreadAt(f', l) == ThreadAt(f, l)
  {
    ThreadMoves(f, c, lane);
    if f.threads[lane].Writing? || f.threads[lane].Sending? {
      EffectIsLocal(f.w, call, seen);
      PartMoves(f, c, lane);
    }
  }

  lemma RunningMoves(base: CodeView, f: Fine, c: string, x: string, y: string, first: Call, second: Call, xy: bool, yx: bool)
    requires Running(base, f, c, x, y, first, second, xy, yx) && x in f.threads
    ensures var f' := Advanced(f, x);
            Running(base, f', c, x, y, first, second, xy || (Wrote(ThreadAt(f', x)) && Unread(ThreadAt(f', y))), yx)
  {
    AdvanceMoves(base, f, c, x, first, Seen(base, second, yx));
    JointMoves(base, View(f.w, c), first, second, f.threads[x], ThreadAt(f, y), xy, yx);
  }

  lemma RunningSwaps(base: CodeView, f: Fine, c: string, x: string, y: string, first: Call, second: Call, xy: bool, yx: bool)
    requires Running(base, f, c, x, y, first, second, xy, yx)
    ensures Running(base, f, c, y, x, second, first, yx, xy)
  {
    JointSwaps(base, View(f.w, c), first, second, ThreadAt(f, x), ThreadAt(f, y), xy, yx);
  }

  ghost function Overtaken(f: Fine, x: string, y: string, before: bool): bool {
    before || (Wrote(ThreadAt(f, x)) && Unread(ThreadAt(f, y)))
  }

  lemma RunningSteps(base: CodeView, f: Fine, c: string, lane: string, x: string, y: string, first: Call,
      second: Call, xy: bool, yx: bool)
    requires Running(base, f, c, x, y, first, second, xy, yx) && (lane == x || lane == y)
    ensures var f' := FineStep(f, Advance(lane));
            Running(base, f', c, x, y, first, second, Overtaken(f', x, y, xy), Overtaken(f', y, x, yx))
  {
    var f' := FineStep(f, Advance(lane));
    if lane !in f.threads {
      assert f' == f;
    } else if lane == x {
      RunningMoves(base, f, c, x, y, first, second, xy, yx);
    } else {
      RunningSwaps(base, f, c, x, y, first, second, xy, yx);
      RunningMoves(base, f, c, y, x, second, first, yx, xy);
      RunningSwaps(base, f', c, y, x, second, first, Overtaken(f', y, x, yx), xy);
    }
  }

  lemma {:induction false} RunningEnds(base: CodeView, f: Fine, c: string, schedule: seq<string>, x: string,
      y: string, first: Call, second: Call, xy: bool, yx: bool)
    requires Running(base, f, c, x, y, first, second, xy, yx)
    requires forall lane :: lane in schedule ==> lane == x || lane == y
    ensures Running(base, FineRun(f, Advances(schedule)), c, x, y, first, second,
                    xy || Overtakes(f, schedule, x, y), yx || Overtakes(f, schedule, y, x))
    decreases |schedule|
  {
    if schedule != [] {
      var lane := schedule[0];
      assert lane in schedule;
      var f' := FineStep(f, Advance(lane));
      RunningSteps(base, f, c, lane, x, y, first, second, xy, yx);
      assert forall l :: l in schedule[1..] ==> l in schedule;
      RunningEnds(base, f', c, schedule[1..], x, y, first, second, Overtaken(f', x, y, xy), Overtaken(f', y, x, yx));
      AdvancesFirst(f, schedule);
    }
  }

  lemma AdvancesFirst(f: Fine, schedule: seq<string>)
    requires schedule != []
    ensures FineRun(f, Advances(schedule)) == FineRun(FineStep(f, Advance(schedule[0])), Advances(schedule[1..]))
  {
    assert Advances(schedule) == [Advance(schedule[0])] + Advances(schedule[1..]);
    FoldCons(FineStep, f, Advance(schedule[0]), Advances(schedule[1..]));
  }

  /* ----- exactly when both admit ----- */

  /** Both calls have started and neither has read. */
  ghost function Both(w: World, x: string, y: string, first: Call, second: Call): Fine {
    Fine(w, map[x := Reading(first), y := Reading(second)])
  }

  /** An admission that will leave no record. */
  predicate Misses(v: CodeView, call: Call) {
    v.record.None? && !Recorded(Request(call))
  }

  lemma OpensAfter(v: CodeView, x: Call, y: Call)
    requires Sound(v) && x.Validate? && y.Validate? && Opens(v, x)
    ensures Opens(v.(record := After(v, x)), y) <==> Opens(v, y) && Misses(v, x)
  {
  }

  /** In every reachable world, of two validations of one code whose steps are merged in any order, both
      admit if and only if both could alone, and neither wrote before the other read, unless
      what it wrote was no record. */
  lemma BothAdmitIff(trace: seq<Action>, x: string, y: string, first: Call, second: Call, schedule: seq<string>)
    requires x != y && first.Validate? && second.Validate? && first.Code() == second.Code()
    requires forall lane :: lane in schedule ==> lane == x || lane == y
    requires FineRun(Both(Run(EMPTY, trace), x, y, first, second), Advances(schedule)).threads == map[]
    ensures var w, c := Run(EMPTY, trace), first.Code();
            var v, f := View(w, c), Both(w, x, y, first, second);
            var admitted := FineRun(f, Advances(schedule)).w.hist.admitted[c];
            && w.hist.admitted[c] <= admitted <= w.hist.admitted[c] + 2
            && (admitted == w.hist.admitted[c] + 2 <==>
                  && Opens(v, first) && Opens(v, second)
                  && (Overtakes(f, schedule, x, y) ==> Misses(v, first))
                  && (Overtakes(f, schedule, y, x) ==> Misses(v, second)))
  {
    ReachableIsSafe(trace);
    var w, c := Run(EMPTY, trace), first.Code();
    var v, f := View(w, c), Both(w, x, y, first, second);
    BothStart(w, x, y, first, second);
    RunningEnds(v, f, c, schedule, x, y, first, second, false, false);
    assert Sound(v);
    Joined(v, View(FineRun(f, Advances(schedule)).w, c), first, second,
           Overtakes(f, schedule, x, y), Overtakes(f, schedule, y, x));
  }

  lemma BothStart(w: World, x: string, y: string, first: Call, second: Call)
    requires ValidTickets(w) && x != y && first.Validate? && second.Validate? && first.Code() == second.Code()
    ensures Running(View(w, first.Code()), Both(w, x, y, first, second), first.Code(), x, y, first, second, false, false)
  {
  }

  /** What is known when both have returned. */
  lemma Joined(base: CodeView, v: CodeView, x: Call, y: Call, xy: bool, yx: bool)
    requires Sound(base) && x.Validate? && y.Validate? && Joint(base, v, x, y, None, None, xy, yx)
    ensures base.admitted <= v.admitted <= base.admitted + 2
    ensures v.admitted == base.admitted + 2 <==>
              Opens(base, x) && Opens(base, y) && (xy ==> Misses(base, x)) && (yx ==> Misses(base, y))
  {
    if Opens(base, x) {
      OpensAfter(base, x, y);
    } else {
      ClosedStaysOut(base, x);
    }
    if Opens(base, y) {
      OpensAfter(base, y, x);
    } else {
      ClosedStaysOut(base, y);
    }
  }

  /** A call that admits nobody leaves the cache as it is. */
  lemma ClosedStaysOut(v: CodeView, x: Call)
    requires x.Validate?
    ensures !Opens(v, x) ==> After(v, x) == v.record
  {
  }

  /* ----- a reachable overlap ----- */

  /** How many steps a validation may still take. */
  function StepsLeft(th: Option<Thread>): nat {
    if th.None? then 0
    else match th.value
         case Reading(_) => 4
         case Asking(_) => 3
         case Writing(_, _) => 2
         case _ => 1
  }

  function Turns(schedule: seq<string>, lane: string): nat {
    if schedule == [] then 0 else Count(schedule[0] == lane) + Turns(schedule[1..], lane)
  }

  lemma StepTaken(f: Fine, lane: string, l: string)
    requires lane in f.threads && f.threads[lane].call.Validate?
    ensures l != lane ==> ThreadAt(Advanced(f, lane), l) == ThreadAt(f, l)
    ensures l == lane ==> StepsLeft(ThreadAt(Advanced(f, lane), l)) < StepsLeft(ThreadAt(f, l))
    ensures l in Advanced(f, lane).threads ==> l in f.threads && Advanced(f, lane).threads[l].call == f.threads[l].call
  {
    AdvancedKeepsCallsIf(f, lane, l);
  }

  lemma AdvancedKeepsCallsIf(f: Fine, lane: string, l: string)
    requires lane in f.threads
    ensures l in Advanced(f, lane).threads ==> l in f.threads && Advanced(f, lane).threads[l].call == f.threads[l].call
  {
    if l in Advanced(f, lane).threads {
      AdvancedKeepsCalls(f, lane, l);
    }
  }

  ghost predicate AllValidations(f: Fine) {
    forall l :: l in f.threads ==> f.threads[l].call.Validate?
  }

  lemma InProgress(f: Fine, l: string)
    ensures l in f.threads ==> StepsLeft(ThreadAt(f, l)) > 0
  {
  }

  /** Validations that get enough turns all return. */
  lemma {:induction false} EnoughTurns(f: Fine, schedule: seq<string>)
    requires AllValidations(f) && forall l :: l in f.threads ==> StepsLeft(ThreadAt(f, l)) <= Turns(schedule, l)
    ensures FineRun(f, Advances(schedule)).threads == map[]
    decreases |schedule|
  {
    if schedule == [] {
      forall l ensures l !in f.threads {
        InProgress(f, l);
      }
    } else {
      var lane := schedule[0];
      var f' := FineStep(f, Advance(lane));
      forall l | l in f'.threads
        ensures f'.threads[l].call.Validate? && StepsLeft(ThreadAt(f', l)) <= Turns(schedule[1..], l)
      {
        if lane in f.threads {
          StepTaken(f, lane, l);
        }
      }
      EnoughTurns(f', schedule[1..]);
      AdvancesFirst(f, schedule);
    }
  }

  /** Once a call has read it is not overtaken. */
  lemma {:induction false} NotOvertaken(f: Fine, schedule: seq<string>, x: string, y: string)
    requires AllValidations(f) && !Unread(ThreadAt(f, y))
    ensures !Overtakes(f, schedule, x, y)
    decreases |schedule|
  {
    if schedule != [] {
      var lane := schedule[0];
      var f' := FineStep(f, Advance(lane));
      if lane in f.threads {
        StepTaken(f, lane, y);
        forall l | l in f'.threads ensures f'.threads[l].call.Validate? {
          StepTaken(f, lane, l);
        }
      }
      NotOvertaken(f', schedule[1..], x, y);
    }
  }

  /** Both read, then both go on. */
  function ReadBoth(x: string, y: string): seq<string> {
    [x] + ([y] + [x, x, x, y, y, y])
  }

  lemma ReadBothSuffices(f: Fine, x: string, y: string)
    requires AllValidations(f) && x != y && f.threads.Keys == {x, y}
    requires Unread(ThreadAt(f, x)) && Unread(ThreadAt(f, y))
    ensures FineRun(f, Advances(ReadBoth(x, y))).threads == map[]
  {
    var s := ReadBoth(x, y);
    assert s == [x, y, x, x, x, y, y, y];
    TurnsOf(s, x, y, x);
    TurnsOf(s, x, y, y);
    EnoughTurns(f, s);
  }

  lemma TurnsOf(s: seq<string>, x: string, y: string, lane: string)
    requires s == [x, y, x, x, x, y, y, y] && x != y && (lane == x || lane == y)
    ensures Turns(s, lane) == 4
  {
    assert s[1..] == [y, x, x, x, y, y, y] && s[1..][1..] == [x, x, x, y, y, y];
    assert s[2..] == [x, x, x, y, y, y] && s[2..][1..] == [x, x, y, y, y] && s[3..][1..] == [x, y, y, y];
    assert s[4..][1..] == [y, y, y] && s[5..][1..] == [y, y] && s[6..][1..] == [y] && s[7..][1..] == [];
    assert Turns(s[7..], lane) == Count(y == lane) && Turns(s[6..], lane) == 2 * Count(y == lane);
    assert Turns(s[5..], lane) == 3 * Count(y == lane);
    assert Turns(s[4..], lane) == 3 * Count(y == lane) + Count(x == lane);
    assert Turns(s[3..], lane) == 3 * Count(y == lane) + 2 * Count(x == lane);
    assert Turns(s[2..], lane) == 3 * Count(y == lane) + 3 * Count(x == lane);
  }

  lemma OvertakesCons(f: Fine, lane: string, rest: seq<string>, x: string, y: string)
    requires !Wrote(ThreadAt(f, x)) && Overtakes(f, [lane] + rest, x, y)
    ensures Overtakes(FineStep(f, Advance(lane)), rest, x, y)
  {
    assert ([lane] + rest)[0] == lane && ([lane] + rest)[1..] == rest;
  }

  lemma ReadBothOvertakesNobody(f: Fine, x: string, y: string, a: string, b: string)
    requires AllValidations(f) && x != y && f.threads.Keys == {x, y} && {a, b} == {x, y}
    requires Unread(ThreadAt(f, x)) && Unread(ThreadAt(f, y))
    ensures !Overtakes(f, ReadBoth(x, y), a, b)
  {
    if Overtakes(f, ReadBoth(x, y), a, b) {
      var f1 := FineStep(f, Advance(x));
      var f2 := FineStep(f1, Advance(y));
      FirstRead(f, x, y);
      OvertakesCons(f, x, [y] + [x, x, x, y, y, y], a, b);
      OvertakesCons(f1, y, [x, x, x, y, y, y], a, b);
      NotOvertaken(f2, [x, x, x, y, y, y], a, b);
    }
  }

  /** After one turn each, both have read and neither has written. */
  lemma FirstRead(f: Fine, x: string, y: string)
    requires AllValidations(f) && x != y && f.threads.Keys == {x, y}
    requires Unread(ThreadAt(f, x)) && Unread(ThreadAt(f, y))
    ensures var f1 := FineStep(f, Advance(x));
            var f2 := FineStep(f1, Advance(y));
            && !Wrote(ThreadAt(f1, x)) && !Wrote(ThreadAt(f1, y))
            && AllValidations(f2) && !Unread(ThreadAt(f2, x)) && !Unread(ThreadAt(f2, y))
  {
    var f1 := FineStep(f, Advance(x));
    forall l ensures l in FineStep(f1, Advance(y)).threads ==> l in f.threads {
      StepTaken(f, x, l);
      StepTaken(f, x, y);
      StepTaken(f1, y, l);
    }
    StepTaken(f, x, x);
    StepTaken(f1, y, x);
    StepTaken(f1, y, y);
  }

  /** Wherever two validations of one code could each admit alone, they can overlap and both admit. */
  lemma OverlapAdmitsTwice(trace: seq<Action>, x: string, y: string, first: Call, second: Call)
    requires x != y && first.Validate? && second.Validate? && first.Code() == second.Code()
    requires var v := View(Run(EMPTY, trace), first.Code()); Opens(v, first) && Opens(v, second)
    ensures var w := Run(EMPTY, trace);
            var f := FineRun(Both(w, x, y, first, second), Advances(ReadBoth(x, y)));
            f.threads == map[] && f.w.hist.admitted[first.Code()] == w.hist.admitted[first.Code()] + 2
  {
    var f := Both(Run(EMPTY, trace), x, y, first, second);
    ReadBothSuffices(f, x, y);
    ReadBothOvertakesNobody(f, x, y, x, y);
    ReadBothOvertakesNobody(f, x, y, y, x);
    BothAdmitIff(trace, x, y, first, second, ReadBoth(x, y));
  }

  /** And such a world is reachable: from nothing, with every call successful and every
      lookup honest, one ticket admits two holders. */
  lemma OverlapIsReachable(code: Uuid)
    ensures var scan := Validate(code, Contract, ALL_UP, 0);
            var f := FineRun(Both(Run(EMPTY, OneTicket(code)), "x", "y", scan, scan), Advances(ReadBoth("x", "y")));
            && (forall a :: a in OneTicket(code) ==> Recorded(a)) && Recorded(Request(scan))
            && f.threads == map[] && f.w.hist.admitted[code] >= 2
  {
    OneTicketRecorded(code);
    OneTicketCached(code);
    var scan := Validate(code, Contract, ALL_UP, 0);
    assert Opens(View(Run(EMPTY, OneTicket(code)), code), scan);
    OverlapAdmitsTwice(OneTicket(code), "x", "y", scan, scan);
  }
}
