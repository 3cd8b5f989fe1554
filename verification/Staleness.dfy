/** Calls that overlap in any way: what holds of every interleaving, and why no call may
    write a record or a row that another call has written since it was read. */
module Staleness {
  import opened Wrappers
  import opened TicketDomain
  import opened TicketStore
  import opened ValidatorDomain
  import opened Calls
  import opened Protocol
  import opened Views
  import opened Accounting
  import opened Safety
  import opened Guarantees
  import opened Reduction

  /** These calls write the cache, the others the ticket's row. */
  predicate WritesCache(call: Call) {
    call.Validate? || (call.Deliver? && !call.message.TicketUsed?)
  }

  /** A call writes one store; and it writes a use exactly when it admits on record. */
  predicate Shaped(call: Call, e: Effect) {
    && (e.record.Some? ==> WritesCache(call)) && (e.row.Some? ==> !WritesCache(call))
    && (e.admits && !e.missed <==> Is(e.record, ValidTicketStatus.Used)) && (e.missed ==> e.admits)
  }

  lemma RespondShaped(row: Option<TicketRow>, record: Option<CacheRecord>, call: Call)
    ensures Shaped(call, Respond(row, record, call).effect)
  {
  }

  /** The answer a call carries is about its own code, and its row differs from the stored one in status only. */
  ghost predicate AnchoredThread(row: Option<TicketRow>, th: Thread) {
    th.Writing? || th.Sending? || th.Acking? ==>
      th.r.effect.code == th.call.Code() && Local(row, th.r.effect) && Shaped(th.call, th.r.effect)
      && (th.Acking? ==> th.call.Deliver?)
  }

  ghost predicate Anchored(f: Fine) {
    ValidTickets(f.w)
    && forall lane :: lane in f.threads ==> AnchoredThread(ByCode(f.w.db.tickets, f.threads[lane].call.Code()), f.threads[lane])
  }

  /* ----- one step, seen from a code ----- */

  function MovedView(v: CodeView, th: Thread): CodeView {
    match th
    case Writing(_, r) => ApplyView(v, WritePart(r.effect))
    case Sending(_, r) => ApplyView(v, TellPart(r.effect))
    case Acking(call, r) => if call.Deliver? then AckView(v, call.message, r.effect.early) else v
    case _ => v
  }

  function MovedThread(v: CodeView, th: Thread): Option<Thread> {
    match th
    case Reading(call) =>
      Some(if AsksLive(v.record, call) then Asking(call) else Writing(call, Respond(v.row, v.record, call)))
    case Asking(call) => Some(Writing(call, Respond(v.row, None, call)))
    case Writing(call, r) => Some(Sending(call, r))
    case Sending(call, r) => if TakesOff(call, r) then Some(Acking(call, r)) else None
    case Acking(_, _) => None
  }

  lemma AdvanceViews(f: Fine, lane: string, c: string)
    requires Anchored(f) && lane in f.threads
    ensures var f', th := Advanced(f, lane), f.threads[lane];
            && ValidTickets(f'.w)
            && View(f'.w, c) == if c == th.call.Code() then MovedView(View(f.w, c), th) else View(f.w, c)
  {
    var th := f.threads[lane];
    assert AnchoredThread(ByCode(f.w.db.tickets, th.call.Code()), th);
    match th
    case Writing(_, r) => ApplyIsLocal(f.w, WritePart(r.effect), c);
    case Sending(_, r) => ApplyIsLocal(f.w, TellPart(r.effect), c);
    case Acking(call, r) => AckIsLocal(f.w, call.message, r.effect.early, c);
    case _ =>
  }

  /** The lane's thread after its step; the others are as they were. */
  lemma AdvanceThreads(f: Fine, lane: string)
    requires lane in f.threads
    ensures var f', th, c := Advanced(f, lane), f.threads[lane], f.threads[lane].call.Code();
            && ThreadAt(f', lane) == MovedThread(View(f.w, c), th)
            && forall l :: l != lane ==> ThreadAt(f', l) == ThreadAt(f, l)
  {
  }

  /** A purchase step changes no record and no count, and a row only where there was none. */
  lemma BuyViews(w: World, a: Action, c: string)
    requires ValidTickets(w) && !a.Request?
    ensures ValidTickets(Step(w, a))
    ensures var v, v' := View(w, c), View(Step(w, a), c);
            && v'.record == v.record && v'.admitted == v.admitted && v'.missed == v.missed
            && (v.row.Some? ==> v'.row == v.row)
  {
    if Emits(w, a) {
      EmitIsLocal(w, a, c);
    } else if Announces(w, a) {
      AnnounceSlots(w, a, c);
      AnnounceKeepsTickets(w, a);
    } else {
      OtherSteps(w, a);
      OtherTickets(w, a);
      assert View(Step(w, a), c) == View(w, c);
    }
  }

  lemma OtherTickets(w: World, a: Action)
    requires !a.Request? && !Emits(w, a) && !Announces(w, a)
    ensures Step(w, a).db.tickets == w.db.tickets && Step(w, a).db.nextTicket == w.db.nextTicket
  {
  }

  /** A row that keeps its key columns keeps the answers anchored. */
  lemma StillAnchored(row: Option<TicketRow>, row': Option<TicketRow>, th: Thread)
    requires AnchoredThread(row, th)
    requires row.Some? ==> row'.Some? && SameTicket(row'.value, row.value)
    ensures AnchoredThread(row', th)
  {
  }

  lemma NewAnswerAnchored(f: Fine, call: Call, record: Option<CacheRecord>)
    ensures var row := ByCode(f.w.db.tickets, call.Code());
            AnchoredThread(row, Writing(call, Respond(row, record, call)))
  {
    var r := RespondIsLocal(ByCode(f.w.db.tickets, call.Code()), record, call);
    RespondShaped(ByCode(f.w.db.tickets, call.Code()), record, call);
  }

  lemma MovedRow(v: CodeView, th: Thread)
    requires AnchoredThread(v.row, th)
    ensures var v' := MovedView(v, th);
            v.row.Some? ==> v'.row.Some? && SameTicket(v'.row.value, v.row.value)
    ensures var v' := MovedView(v, th); v.row.None? ==> v'.row.None?
  {
  }

  lemma AdvanceKeepsAnchored(f: Fine, lane: string)
    requires Anchored(f) && lane in f.threads
    ensures Anchored(Advanced(f, lane))
  {
    var f', th := Advanced(f, lane), f.threads[lane];
    AdvanceThreads(f, lane);
    assert AnchoredThread(ByCode(f.w.db.tickets, th.call.Code()), th);
    AdvanceViews(f, lane, th.call.Code());
    forall l | l in f'.threads
      ensures AnchoredThread(ByCode(f'.w.db.tickets, f'.threads[l].call.Code()), f'.threads[l])
    {
      var c := f'.threads[l].call.Code();
      AdvanceViews(f, lane, c);
      MovedRow(View(f.w, th.call.Code()), th);
      if l != lane {
        assert ThreadAt(f', l) == ThreadAt(f, l);
        StillAnchored(View(f.w, c).row, View(f'.w, c).row, f.threads[l]);
      } else if th.Reading? || th.Asking? {
        NewAnswerAnchored(f, th.call, if th.Reading? then Lookup(f.w.cache, c) else None);
        StillAnchored(View(f.w, c).row, View(f'.w, c).row, f'.threads[l]);
      } else {
        StillAnchored(View(f.w, c).row, View(f'.w, c).row, f.threads[l]);
      }
    }
  }

  lemma FineStepKeepsAnchored(f: Fine, a: FineAction)
    requires Anchored(f)
    ensures Anchored(FineStep(f, a))
  {
    match a
    case Start(_, _) =>
    case Advance(lane) =>
      if lane in f.threads {
        AdvanceKeepsAnchored(f, lane);
      }
    case Buy(step) =>
      if !step.Request? {
        BuyViews(f.w, step, "");
        forall l | l in f.threads
          ensures AnchoredThread(ByCode(Step(f.w, step).db.tickets, f.threads[l].call.Code()), f.threads[l])
        {
          var c := f.threads[l].call.Code();
          BuyViews(f.w, step, c);
          StillAnchored(View(f.w, c).row, View(Step(f.w, step), c).row, f.threads[l]);
        }
      }
  }

  /* ----- the admission law of every interleaving ----- */

  /** The call has put a use on record, and has not told anybody yet. */
  predicate Enters(th: Thread, c: string) {
    th.Sending? && th.call.Code() == c && th.r.effect.admits && !th.r.effect.missed
  }

  function Entering(f: Fine, c: string): set<string> {
    set lane | lane in f.threads && Enters(f.threads[lane], c)
  }

  /** The step writes the record of `c` over a use. */
  ghost predicate Overwrites(f: Fine, a: FineAction, c: string) {
    && a.Advance? && a.lane in f.threads && f.threads[a.lane].Writing? && f.threads[a.lane].call.Code() == c
    && f.threads[a.lane].r.effect.record.Some? && Is(Lookup(f.w.cache, c), ValidTicketStatus.Used)
  }

  /** How often a run writes over a use of `c`. */
  ghost function Overwritten(f: Fine, trace: seq<FineAction>, c: string): nat
    decreases |trace|
  {
    if trace == [] then 0 else Count(Overwrites(f, trace[0], c)) + Overwritten(FineStep(f, trace[0]), trace[1..], c)
  }

  /** Admissions, told or about to be, are the missed ones, the one that the cache shows, and those overwritten. */
  ghost predicate Law(f: Fine, c: string, overwritten: int) {
    var v := View(f.w, c);
    v.admitted + |Entering(f, c)| == v.missed + Count(Is(v.record, ValidTicketStatus.Used)) + overwritten
  }

  lemma OneElementMoves(s: set<string>, t: set<string>, x: string)
    requires forall l :: l != x ==> (l in s <==> l in t)
    ensures |t| == |s| - Count(x in s) + Count(x in t)
  {
    var rest := s - {x};
    assert t - {x} == rest;
    assert x in s ==> s == rest + {x};
    assert x !in s ==> s == rest;
    assert x in t ==> t == rest + {x};
    assert x !in t ==> t == rest;
  }

  /** The set of entering lanes follows the one thread that moved. */
  lemma EnteringMoves(f: Fine, f': Fine, lane: string, c: string)
    requires forall l :: l != lane ==> ThreadAt(f', l) == ThreadAt(f, l)
    ensures var before, after := lane in f.threads && Enters(f.threads[lane], c), lane in f'.threads && Enters(f'.threads[lane], c);
            |Entering(f', c)| == |Entering(f, c)| - Count(before) + Count(after)
  {
    forall l | l != lane ensures l in Entering(f, c) <==> l in Entering(f', c) {
      assert ThreadAt(f', l) == ThreadAt(f, l);
    }
    OneElementMoves(Entering(f, c), Entering(f', c), lane);
  }

  /** What one step of a call does to the counts of its own code. */
  lemma MovedCounts(v: CodeView, th: Thread)
    requires AnchoredThread(v.row, th)
    ensures var v' := MovedView(v, th);
            var e := if th.Writing? || th.Sending? then th.r.effect else Nothing("");
            var told := th.Sending?;
            && v'.admitted == v.admitted + Count(told && e.admits) && v'.missed == v.missed + Count(told && e.missed)
            && v'.record == (if th.Writing? && e.record.Some? then e.record else v.record)
            && (e.admits && !e.missed <==> Is(e.record, ValidTicketStatus.Used)) && (e.missed ==> e.admits)
  {
  }

  lemma EntersMoves(v: CodeView, th: Thread, c: string)
    ensures var next := MovedThread(v, th);
            next.Some? && Enters(next.value, c) <==>
              th.Writing? && th.call.Code() == c && th.r.effect.admits && !th.r.effect.missed
  {
  }

  /** The law, from counts alone. */
  lemma LawMoves(v: CodeView, v': CodeView, th: Thread, entering: int, entering': int, overwritten: int)
    requires AnchoredThread(v.row, th) && v' == MovedView(v, th)
    requires v.admitted + entering == v.missed + Count(Is(v.record, ValidTicketStatus.Used)) + overwritten
    requires var enters := (th.Writing? || th.Sending?) && th.r.effect.admits && !th.r.effect.missed;
             entering' == entering - Count(th.Sending? && enters) + Count(th.Writing? && enters)
    ensures var over := th.Writing? && th.r.effect.record.Some? && Is(v.record, ValidTicketStatus.Used);
            v'.admitted + entering' == v'.missed + Count(Is(v'.record, ValidTicketStatus.Used)) + overwritten + Count(over)
  {
    MovedCounts(v, th);
  }

  lemma AdvanceKeepsLaw(f: Fine, lane: string, c: string, overwritten: int)
    requires Anchored(f) && lane in f.threads && Law(f, c, overwritten)
    ensures Law(Advanced(f, lane), c, overwritten + Count(Overwrites(f, Advance(lane), c)))
  {
    var f', th := Advanced(f, lane), f.threads[lane];
    var code := th.call.Code();
    AdvanceThreads(f, lane);
    AdvanceViews(f, lane, c);
    EntersMoves(View(f.w, code), th, c);
    EnteringMoves(f, f', lane, c);
    assert ThreadAt(f', lane) == MovedThread(View(f.w, code), th);
    if c == code {
      assert AnchoredThread(View(f.w, c).row, th);
      LawMoves(View(f.w, c), View(f'.w, c), th, |Entering(f, c)|, |Entering(f', c)|, overwritten);
    }
  }

  lemma FineStepKeepsLaw(f: Fine, a: FineAction, c: string, overwritten: int)
    requires Anchored(f) && Law(f, c, overwritten)
    ensures Law(FineStep(f, a), c, overwritten + Count(Overwrites(f, a, c)))
  {
    match a
    case Start(lane, call) =>
      if CanStart(f, lane, call) {
        EnteringMoves(f, FineStep(f, a), lane, c);
      }
    case Advance(lane) =>
      if lane in f.threads {
        AdvanceKeepsLaw(f, lane, c, overwritten);
      }
    case Buy(step) =>
      if !step.Request? {
        BuyViews(f.w, step, c);
        assert Entering(FineStep(f, a), c) == Entering(f, c);
      }
  }

  lemma {:induction false} FineRunKeepsLaw(f: Fine, trace: seq<FineAction>, c: string, overwritten: int)
    requires Anchored(f) && Law(f, c, overwritten)
    ensures Law(FineRun(f, trace), c, overwritten + Overwritten(f, trace, c))
    decreases |trace|
  {
    if trace != [] {
      FineStepKeepsLaw(f, trace[0], c, overwritten);
      FineStepKeepsAnchored(f, trace[0]);
      FineRunKeepsLaw(FineStep(f, trace[0]), trace[1..], c, overwritten + Count(Overwrites(f, trace[0], c)));
    }
  }

  lemma StartIsSound(c: string)
    ensures Anchored(START) && Law(START, c, 0)
  {
    ReachableIsSafe([]);
    assert Sound(View(EMPTY, c)) && Entering(START, c) == {};
  }

  /** The law, at every moment of every interleaving, whatever overlaps and whatever fails: a
      code has been admitted once for each live admission that left no record, once if
      the cache says used, and once for each time a use was overwritten. */
  lemma InterleavedAdmissionLaw(fine: seq<FineAction>, c: string)
    ensures var f := FineRun(START, fine);
            f.w.hist.admitted[c] + |Entering(f, c)| ==
            f.w.hist.missed[c] + Count(Is(Lookup(f.w.cache, c), ValidTicketStatus.Used)) + Overwritten(START, fine, c)
  {
    StartIsSound(c);
    FineRunKeepsLaw(START, fine, c, 0);
  }

  /* ----- stale calls ----- */

  /** The lane's step writes the store that the call on `l` has read and may still write. */
  ghost predicate Disturbs(f: Fine, lane: string, l: string) {
    && lane != l && lane in f.threads && l in f.threads && f.threads[lane].Writing?
    && f.threads[l].call.Code() == f.threads[lane].call.Code()
    && (f.threads[l].Asking? || f.threads[l].Writing?)
    && var e := f.threads[lane].r.effect;
       if WritesCache(f.threads[l].call) then e.record.Some? else e.row.Some?
  }

  /** The lanes whose calls have been disturbed since they read. */
  ghost function Disturbed(f: Fine, a: FineAction, stale: set<string>): set<string> {
    match a
    case Start(lane, call) => if CanStart(f, lane, call) then stale - {lane} else stale
    case Advance(lane) => stale + set l | l in f.threads && Disturbs(f, lane, l)
    case Buy(_) => stale
  }

  ghost predicate Writes(f: Fine, a: FineAction) {
    && a.Advance? && a.lane in f.threads && f.threads[a.lane].Writing?
    && (f.threads[a.lane].r.effect.record.Some? || f.threads[a.lane].r.effect.row.Some?)
  }

  /** No call writes a record or a row that another call has written since it was read. */
  ghost predicate Fresh(f: Fine, trace: seq<FineAction>, stale: set<string>)
    decreases |trace|
  {
    trace != [] ==>
      && (Writes(f, trace[0]) ==> trace[0].lane !in stale)
      && Fresh(FineStep(f, trace[0]), trace[1..], Disturbed(f, trace[0], stale))
  }

  /** What a call that is not stale has read is still there. */
  predicate CurrentThread(row: Option<TicketRow>, record: Option<CacheRecord>, th: Thread) {
    && (th.Asking? ==> record.None?)
    && (th.Writing? && th.r.effect.record.Some? ==>
          record.None? || (record.value.status == Active && th.r.effect.record.value.eventId == record.value.eventId))
    && (th.Writing? && th.r.effect.row.Some? ==> row.Some? && row.value.status == Emitted)
  }

  ghost predicate CurrentAt(f: Fine, l: string) {
    l in f.threads ==>
      var c := f.threads[l].call.Code();
      CurrentThread(ByCode(f.w.db.tickets, c), Lookup(f.w.cache, c), f.threads[l])
  }

  ghost predicate Current(f: Fine, stale: set<string>) {
    forall l :: l !in stale ==> CurrentAt(f, l)
  }

  /** The call that moves. */
  lemma MoverStaysCurrent(f: Fine, lane: string)
    requires Anchored(f) && lane in f.threads && CurrentAt(f, lane)
    ensures CurrentAt(Advanced(f, lane), lane)
  {
    var f', th, c := Advanced(f, lane), f.threads[lane], f.threads[lane].call.Code();
    AdvanceThreads(f, lane);
    AdvanceViews(f, lane, c);
    var v := View(f.w, c);
    if th.Reading? || th.Asking? {
      assert View(f'.w, c) == v;
      assert f'.threads[lane] == ThreadAt(f', lane).value;
      RespondAdvances(v.row, v.record, th.call);
    } else if lane in f'.threads {
      assert f'.threads[lane] == ThreadAt(f', lane).value;
    }
  }

  /** A step that does not disturb a call leaves what it read. */
  lemma OtherStaysCurrent(row: Option<TicketRow>, record: Option<CacheRecord>, e: Effect, mover: Call, th: Thread,
      row': Option<TicketRow>, record': Option<CacheRecord>)
    requires CurrentThread(row, record, th) && AnchoredThread(row, th) && Shaped(mover, e)
    requires row' == (if e.row.Some? then e.row else row) && record' == (if e.record.Some? then e.record else record)
    requires th.Asking? || th.Writing? ==> if WritesCache(th.call) then e.record.None? else e.row.None?
    requires th.Asking? ==> th.call.Validate?
    ensures CurrentThread(row', record', th)
  {
  }

  /** Only a validation asks. */
  ghost predicate Askers(f: Fine) {
    forall l :: l in f.threads && f.threads[l].Asking? ==> f.threads[l].call.Validate?
  }

  lemma OthersStayCurrent(f: Fine, lane: string, l: string)
    requires Anchored(f) && Askers(f) && lane in f.threads && l in f.threads && l != lane
    requires CurrentAt(f, l) && !Disturbs(f, lane, l)
    ensures CurrentAt(Advanced(f, lane), l)
  {
    var th, c := f.threads[lane], f.threads[l].call.Code();
    AdvanceThreads(f, lane);
    AdvanceViews(f, lane, c);
    assert ThreadAt(Advanced(f, lane), l) == ThreadAt(f, l);
    assert AnchoredThread(ByCode(f.w.db.tickets, th.call.Code()), th);
    assert AnchoredThread(ByCode(f.w.db.tickets, c), f.threads[l]);
    var v, v' := View(f.w, c), View(Advanced(f, lane).w, c);
    if c == th.call.Code() && th.Writing? {
      OtherStaysCurrent(v.row, v.record, th.r.effect, th.call, f.threads[l], v'.row, v'.record);
    } else {
      assert v'.row == v.row && v'.record == v.record;
    }
  }

  lemma AskersStay(f: Fine, a: FineAction)
    requires Askers(f)
    ensures Askers(FineStep(f, a))
  {
    if a.Advance? && a.lane in f.threads {
      AdvanceThreads(f, a.lane);
      forall l | l in Advanced(f, a.lane).threads && Advanced(f, a.lane).threads[l].Asking?
        ensures Advanced(f, a.lane).threads[l].call.Validate?
      {
        assert ThreadAt(Advanced(f, a.lane), l).Some?;
        assert l != a.lane ==> ThreadAt(Advanced(f, a.lane), l) == ThreadAt(f, l);
      }
    }
  }

  lemma FineStepKeepsCurrent(f: Fine, a: FineAction, stale: set<string>)
    requires Anchored(f) && Askers(f) && Current(f, stale)
    ensures Current(FineStep(f, a), Disturbed(f, a, stale))
  {
    var f' := FineStep(f, a);
    forall l | l !in Disturbed(f, a, stale) ensures CurrentAt(f', l) {
      match a
      case Start(lane, call) =>
        assert l != lane ==> CurrentAt(f, l);
      case Advance(lane) =>
        assert CurrentAt(f, l);
        if lane in f.threads {
          if l == lane {
            MoverStaysCurrent(f, lane);
          } else if l in f.threads {
            OthersStayCurrent(f, lane, l);
          } else {
            AdvanceThreads(f, lane);
            assert ThreadAt(f', l) == ThreadAt(f, l);
          }
        }
      case Buy(step) =>
        assert CurrentAt(f, l);
        if !step.Request? && l in f.threads {
          BuyViews(f.w, step, f.threads[l].call.Code());
          assert View(f'.w, f.threads[l].call.Code()).record == View(f.w, f.threads[l].call.Code()).record;
        }
    }
  }

  /* ----- what fresh interleavings keep ----- */

  lemma MovedOnce(v: CodeView, th: Thread)
    requires AnchoredThread(v.row, th)
    requires th.Writing? && (th.r.effect.record.Some? || th.r.effect.row.Some?) ==> CurrentThread(v.row, v.record, th)
    ensures MovesOnce(v, MovedView(v, th))
    ensures th.Writing? && th.r.effect.record.Some? ==> !Is(v.record, ValidTicketStatus.Used)
  {
  }

  lemma FreshStep(f: Fine, a: FineAction, stale: set<string>, c: string)
    requires Anchored(f) && Current(f, stale) && (Writes(f, a) ==> a.lane !in stale)
    ensures MovesOnce(View(f.w, c), View(FineStep(f, a).w, c)) && !Overwrites(f, a, c)
  {
    match a
    case Start(_, _) =>
    case Advance(lane) =>
      if lane in f.threads {
        AdvanceViews(f, lane, c);
        if c == f.threads[lane].call.Code() {
          assert Writes(f, a) ==> CurrentAt(f, lane);
          MovedOnce(View(f.w, c), f.threads[lane]);
        }
      }
    case Buy(step) =>
      if !step.Request? {
        BuyViews(f.w, step, c);
      }
  }

  lemma MovesOnceTwice(v: CodeView, v': CodeView, v'': CodeView)
    requires MovesOnce(v, v') && MovesOnce(v', v'')
    ensures MovesOnce(v, v'')
  {
  }

  /** However calls overlap, if none writes what has changed since it read, statuses move
      once in both stores and no use is overwritten. */
  lemma {:induction false} FreshRun(f: Fine, trace: seq<FineAction>, stale: set<string>, c: string)
    requires Anchored(f) && Askers(f) && Current(f, stale) && Fresh(f, trace, stale)
    ensures MovesOnce(View(f.w, c), View(FineRun(f, trace).w, c)) && Overwritten(f, trace, c) == 0
    decreases |trace|
  {
    if trace != [] {
      var f' := FineStep(f, trace[0]);
      FreshStep(f, trace[0], stale, c);
      FineStepKeepsAnchored(f, trace[0]);
      AskersStay(f, trace[0]);
      FineStepKeepsCurrent(f, trace[0], stale);
      FreshRun(f', trace[1..], Disturbed(f, trace[0], stale), c);
      MovesOnceTwice(View(f.w, c), View(f'.w, c), View(FineRun(f, trace).w, c));
    }
  }

  /* ----- recorded interleavings ----- */

  /** Every ticket, and every purchase in progress, names an event; every ticket has a code. */
  ghost predicate Named(w: World) {
    && (forall id :: id in w.db.tickets ==> w.db.tickets[id].eventId > 0 && w.db.tickets[id].code != "")
    && (forall e :: e in w.running ==> w.running[e].purchase.eventId > 0)
  }

  lemma StepKeepsNamed(w: World, a: Action)
    requires Named(w) && !a.Request?
    ensures Named(Step(w, a))
  {
    match a
    case OpenEvent(_, _, _, _, _) =>
    case StartPurchase(_, _, _) =>
    case EmitTicket(_, _, _) =>
    case AnnounceTicket(_, _) =>
    case SettlePurchase(_, _) =>
    case CompletePurchase(_, _) =>
  }

  lemma AdvanceKeepsNamed(f: Fine, lane: string)
    requires Anchored(f) && Named(f.w) && lane in f.threads
    ensures Named(Advanced(f, lane).w)
  {
    var th := f.threads[lane];
    assert AnchoredThread(ByCode(f.w.db.tickets, th.call.Code()), th);
    if th.Writing? {
      WriteRowKeepsTickets(f.w.db.tickets, f.w.db.nextTicket, WritePart(th.r.effect));
      assert Advanced(f, lane).w.db.tickets.Keys == f.w.db.tickets.Keys;
    }
  }

  /** Every call in progress is recorded, and none will be or was missed. */
  ghost predicate NoneMissed(f: Fine) {
    && AllRecorded(f) && f.w.hist.missed == multiset{}
    && forall l :: l in f.threads && (f.threads[l].Writing? || f.threads[l].Sending?) ==> !f.threads[l].r.effect.missed
  }

  lemma RowNamed(w: World, c: string)
    requires Named(w)
    ensures var row := ByCode(w.db.tickets, c); row.Some? ==> row.value.eventId > 0 && row.value.code != ""
  {
  }

  lemma AdvanceMissesNone(f: Fine, lane: string)
    requires Named(f.w) && NoneMissed(f) && lane in f.threads
    ensures NoneMissed(Advanced(f, lane))
  {
    var f', th, c := Advanced(f, lane), f.threads[lane], f.threads[lane].call.Code();
    FineStepRecorded(f, Advance(lane));
    AdvanceThreads(f, lane);
    RowNamed(f.w, c);
    RespondRecords(ByCode(f.w.db.tickets, c), Lookup(f.w.cache, c), th.call);
    RespondRecords(ByCode(f.w.db.tickets, c), None, th.call);
    forall l | l in f'.threads && (f'.threads[l].Writing? || f'.threads[l].Sending?) ensures !f'.threads[l].r.effect.missed {
      assert ThreadAt(f', l) == Some(f'.threads[l]);
      assert l != lane ==> ThreadAt(f, l) == ThreadAt(f', l);
    }
    assert multiset{} + multiset{} == f.w.hist.missed;
  }

  lemma StepMissesNone(w: World, a: Action)
    requires !a.Request?
    ensures Step(w, a).hist.missed == w.hist.missed
  {
  }

  lemma FineStepMissesNone(f: Fine, a: FineAction)
    requires Anchored(f) && Named(f.w) && NoneMissed(f) && RecordedStart(a)
    ensures Named(FineStep(f, a).w) && NoneMissed(FineStep(f, a))
  {
    match a
    case Start(_, _) => FineStepRecorded(f, a);
    case Advance(lane) =>
      if lane in f.threads {
        AdvanceKeepsNamed(f, lane);
        AdvanceMissesNone(f, lane);
      }
    case Buy(step) =>
      if !step.Request? {
        StepKeepsNamed(f.w, step);
        StepMissesNone(f.w, step);
      }
  }

  lemma {:induction false} FineRunMissesNone(f: Fine, trace: seq<FineAction>)
    requires Anchored(f) && Named(f.w) && NoneMissed(f) && forall a :: a in trace ==> RecordedStart(a)
    ensures NoneMissed(FineRun(f, trace))
    decreases |trace|
  {
    if trace != [] {
      assert trace[0] in trace;
      FineStepMissesNone(f, trace[0]);
      FineStepKeepsAnchored(f, trace[0]);
      FineRunMissesNone(FineStep(f, trace[0]), trace[1..]);
    }
  }

  /** When cache writes succeed and lookups honour their contract: a code is admitted once more
      than the cache shows exactly for each time that one of its uses was overwritten. So no code
      is admitted twice before a use of it was overwritten, and the call that does that is stale. */
  lemma RecordedLaw(fine: seq<FineAction>, c: string)
    requires forall a :: a in fine ==> RecordedStart(a)
    ensures var f := FineRun(START, fine);
            && f.w.hist.admitted[c] + |Entering(f, c)| ==
               Count(Is(Lookup(f.w.cache, c), ValidTicketStatus.Used)) + Overwritten(START, fine, c)
            && (f.w.hist.admitted[c] > 1 ==> Overwritten(START, fine, c) > 0)
            && (Fresh(START, fine, {}) ==> f.w.hist.admitted[c] <= 1)
  {
    StartIsSound(c);
    InterleavedAdmissionLaw(fine, c);
    FineRunMissesNone(START, fine);
    if Fresh(START, fine, {}) {
      FreshRun(START, fine, {}, c);
    }
  }

  /** Statuses move once in every interleaving in which no call writes stale. */
  lemma FreshStatusesMoveOnce(before: seq<FineAction>, after: seq<FineAction>, c: string)
    requires Fresh(START, before + after, {})
    ensures MovesOnce(View(FineRun(START, before).w, c), View(FineRun(START, before + after).w, c))
  {
    StartIsSound(c);
    FoldConcat(FineStep, START, before, after);
    FreshSuffix(START, before, after, {}, c);
  }

  lemma {:induction false} FreshSuffix(f: Fine, before: seq<FineAction>, after: seq<FineAction>, stale: set<string>, c: string)
    requires Anchored(f) && Askers(f) && Current(f, stale) && Fresh(f, before + after, stale)
    ensures MovesOnce(View(FineRun(f, before).w, c), View(FineRun(FineRun(f, before), after).w, c))
    decreases |before|
  {
    if before == [] {
      assert before + after == after;
      FreshRun(f, after, stale, c);
    } else {
      assert (before + after)[0] == before[0] && (before + after)[1..] == before[1..] + after;
      FineStepKeepsAnchored(f, before[0]);
      AskersStay(f, before[0]);
      FineStepKeepsCurrent(f, before[0], stale);
      FreshSuffix(FineStep(f, before[0]), before[1..], after, Disturbed(f, before[0], stale), c);
    }
  }

  /* ----- calls that do not overlap are fresh ----- */

  /** All calls about a code are on the lane named after it. */
  ghost predicate OneLaneEach(f: Fine) {
    forall l :: l in f.threads ==> f.threads[l].call.Code() == l
  }

  lemma DisjointStaysFresh(f: Fine, a: FineAction)
    requires OneLaneEach(f) && Disjoint(f, a)
    ensures OneLaneEach(FineStep(f, a)) && Disturbed(f, a, {}) == {}
  {
    if a.Advance? && a.lane in f.threads {
      forall l | l in Advanced(f, a.lane).threads ensures Advanced(f, a.lane).threads[l].call.Code() == l {
        AdvancedKeepsCalls(f, a.lane, l);
      }
    }
  }

  /** So the hypothesis on overlaps is the weaker one. */
  lemma {:induction false} NoOverlapIsFresh(f: Fine, trace: seq<FineAction>)
    requires OneLaneEach(f) && NoOverlap(f, trace)
    ensures Fresh(f, trace, {})
    decreases |trace|
  {
    if trace != [] {
      DisjointStaysFresh(f, trace[0]);
      NoOverlapIsFresh(FineStep(f, trace[0]), trace[1..]);
    }
  }
}
