/** Serial access is enough: calls broken into their reads, writes, publishes and
    acknowledgements, and purchases broken into their steps, may interleave freely, as
    long as calls on the same code do not overlap; the result is a run of whole calls
    and purchase steps. */
module Reduction {
  import opened Wrappers
  import opened Messages
  import opened TicketStore
  import opened ValidatorDomain
  import opened Calls
  import opened PurchaseSteps
  import opened Protocol
  import opened Views
  import opened Safety
  import opened Guarantees

  /** How far a call has come. A validation that found no record asks the
      ticket service in a read of its own. */
  datatype Thread =
    | Reading(call: Call)
    | Asking(call: Call)
    | Writing(call: Call, r: Response)
    | Sending(call: Call, r: Response)
    | Acking(call: Call, r: Response)

  /** Each call in progress has a lane of its own. */
  datatype Fine = Fine(w: World, threads: map<string, Thread>)

  /** A call starts; a call moves on; a purchase moves on. */
  datatype FineAction = Start(lane: string, call: Call) | Advance(lane: string) | Buy(step: Action)

  function WritePart(e: Effect): Effect {
    e.(send := None, admits := false, missed := false)
  }

  function TellPart(e: Effect): Effect {
    e.(row := None, record := None)
  }

  predicate AsksLive(record: Option<CacheRecord>, call: Call) {
    call.Validate? && call.io.get && record.None?
  }

  /** The next read, write, publish or acknowledgement of the call on `lane`. */
  ghost function Advanced(f: Fine, lane: string): Fine
    requires lane in f.threads
  {
    var c := f.threads[lane].call.Code();
    var row, record := ByCode(f.w.db.tickets, c), Lookup(f.w.cache, c);
    match f.threads[lane]
    case Reading(call) =>
      if AsksLive(record, call) then f.(threads := f.threads[lane := Asking(call)])
      else f.(threads := f.threads[lane := Writing(call, Respond(row, record, call))])
    case Asking(call) => f.(threads := f.threads[lane := Writing(call, Respond(row, None, call))])
    case Writing(call, r) => Fine(Apply(f.w, WritePart(r.effect)), f.threads[lane := Sending(call, r)])
    case Sending(call, r) =>
      Fine(Apply(f.w, TellPart(r.effect)),
           if TakesOff(call, r) then f.threads[lane := Acking(call, r)] else f.threads - {lane})
    case Acking(call, r) =>
      Fine(if call.Deliver? then Acknowledge(f.w, call.message, r.effect.early) else f.w, f.threads - {lane})
  }

  ghost predicate CanStart(f: Fine, lane: string, call: Call) {
    lane !in f.threads && (call.Deliver? ==> call.message in f.w.bus.queued)
  }

  ghost function FineStep(f: Fine, a: FineAction): Fine {
    match a
    case Start(lane, call) => if CanStart(f, lane, call) then f.(threads := f.threads[lane := Reading(call)]) else f
    case Advance(lane) => if lane in f.threads then Advanced(f, lane) else f
    case Buy(step) => if step.Request? then f else f.(w := Step(f.w, step))
  }

  /** No overlap on a code: all calls about it use the one lane named after it, and
      no ticket of that code is stored while such a call is in progress. */
  ghost predicate Disjoint(f: Fine, a: FineAction) {
    match a
    case Start(lane, call) => lane == call.Code()
    case Advance(_) => true
    case Buy(step) => step.EmitTicket? ==> step.code !in f.threads
  }

  ghost predicate NoOverlap(f: Fine, trace: seq<FineAction>)
    decreases |trace|
  {
    trace != [] ==> Disjoint(f, trace[0]) && NoOverlap(FineStep(f, trace[0]), trace[1..])
  }

  ghost function FineRun(f: Fine, trace: seq<FineAction>): Fine {
    Fold(FineStep, f, trace)
  }

  /** The step with which the call on `c` returns. */
  predicate Finishes(th: Thread) {
    th.Acking? || (th.Sending? && !TakesOff(th.call, th.r))
  }

  /* ----- the simulation ----- */

  /** `base` is the code's view in the serial world, `v` its view in the fine
      one, and `th` the call between them. */
  ghost predicate Related(c: string, base: CodeView, v: CodeView, th: Option<Thread>) {
    if th.None? then v == base
    else
      var call := th.value.call;
      && call.Code() == c
      && (call.Deliver? ==> call.message in base.queued)
      && (th.value.Writing? || th.value.Sending? || th.value.Acking? ==>
            th.value.r == Respond(base.row, base.record, call))
      && match th.value
         case Reading(_) => v == base
         case Asking(_) => v == base && AsksLive(base.record, call)
         case Writing(_, _) => v == base
         case Sending(_, r) => v == ApplyView(base, WritePart(r.effect))
         case Acking(_, r) => v == ApplyView(base, r.effect) && TakesOff(call, r)
  }

  function ThreadAt(f: Fine, c: string): Option<Thread> {
    if c in f.threads then Some(f.threads[c]) else None
  }

  /** The parts no call touches. */
  ghost predicate SameRest(u: World, w: World) {
    w == World(u.db.(tickets := w.db.tickets), w.cache, w.bus.(completed := u.bus.completed), u.running,
               w.hist.(announced := u.hist.announced, settled := u.hist.settled))
  }

  ghost predicate Simulates(u: World, f: Fine) {
    && ValidTickets(u) && ValidTickets(f.w) && SameRest(u, f.w)
    && forall c :: Related(c, View(u, c), View(f.w, c), ThreadAt(f, c))
  }

  /** Only code `c` moved, and it is still related. */
  lemma OneMoved(u: World, f: Fine, u': World, f': Fine, c: string)
    requires Simulates(u, f)
    requires ValidTickets(u') && ValidTickets(f'.w) && SameRest(u', f'.w)
    requires forall d :: d != c ==>
               View(u', d) == View(u, d) && View(f'.w, d) == View(f.w, d) && ThreadAt(f', d) == ThreadAt(f, d)
    requires Related(c, View(u', c), View(f'.w, c), ThreadAt(f', c))
    ensures Simulates(u', f')
  {
    forall d ensures Related(d, View(u', d), View(f'.w, d), ThreadAt(f', d)) {
      if d != c {
        assert Related(d, View(u, d), View(f.w, d), ThreadAt(f, d));
      }
    }
  }

  lemma ReadKeeps(u: World, f: Fine, c: string)
    requires Simulates(u, f) && c in f.threads && (f.threads[c].Reading? || f.threads[c].Asking?)
    ensures Simulates(u, Advanced(f, c))
  {
    assert Related(c, View(u, c), View(f.w, c), ThreadAt(f, c));
    OneMoved(u, f, u, Advanced(f, c), c);
  }

  lemma PartsCompose(v: CodeView, e: Effect)
    ensures ApplyView(ApplyView(v, WritePart(e)), TellPart(e)) == ApplyView(v, e)
  {
  }

  lemma ApplyTouchesNoRest(w: World, e: Effect)
    ensures SameRest(w, Apply(w, e))
  {
  }

  /** An effect on `c` alone. */
  lemma ApplyPart(w: World, e: Effect, c: string)
    requires ValidTickets(w) && Local(ByCode(w.db.tickets, c), e) && e.code == c
    ensures ValidTickets(Apply(w, e)) && SameRest(w, Apply(w, e))
    ensures View(Apply(w, e), c) == ApplyView(View(w, c), e)
    ensures forall d :: d != c ==> View(Apply(w, e), d) == View(w, d)
  {
    ApplyTouchesNoRest(w, e);
    forall d
      ensures ValidTickets(Apply(w, e))
      ensures View(Apply(w, e), d) == if d == c then ApplyView(View(w, d), e) else View(w, d) {
      ApplyIsLocal(w, e, d);
    }
  }

  lemma WriteKeeps(u: World, f: Fine, c: string)
    requires Simulates(u, f) && c in f.threads && f.threads[c].Writing?
    ensures Simulates(u, Advanced(f, c))
  {
    assert Related(c, View(u, c), View(f.w, c), ThreadAt(f, c));
    var r := RespondIsLocal(View(u, c).row, View(u, c).record, f.threads[c].call);
    ApplyPart(f.w, WritePart(r.effect), c);
    OneMoved(u, f, u, Advanced(f, c), c);
  }

  lemma SendKeeps(u: World, f: Fine, c: string)
    requires Simulates(u, f) && c in f.threads && f.threads[c].Sending? && !Finishes(f.threads[c])
    ensures Simulates(u, Advanced(f, c))
  {
    assert Related(c, View(u, c), View(f.w, c), ThreadAt(f, c));
    var r := RespondIsLocal(View(u, c).row, View(u, c).record, f.threads[c].call);
    PartsCompose(View(u, c), r.effect);
    ApplyPart(f.w, TellPart(r.effect), c);
    OneMoved(u, f, u, Advanced(f, c), c);
  }

  lemma ServeTouchesNoRest(u: World, call: Call)
    ensures SameRest(u, Serve(u, call))
  {
  }

  /** What the serial world sees after the whole call. */
  lemma Served(u: World, call: Call, r: Response)
    requires ValidTickets(u) && (call.Deliver? ==> call.message in View(u, call.Code()).queued)
    requires r == Respond(View(u, call.Code()).row, View(u, call.Code()).record, call)
    ensures ValidTickets(Serve(u, call)) && SameRest(u, Serve(u, call))
    ensures View(Serve(u, call), call.Code()) == ServeViewWith(View(u, call.Code()), call, r)
    ensures forall d :: d != call.Code() ==> View(Serve(u, call), d) == View(u, d)
  {
    ServeTouchesNoRest(u, call);
    forall d
      ensures ValidTickets(Serve(u, call))
      ensures View(Serve(u, call), d) == if d == call.Code() then ServeView(View(u, d), call) else View(u, d)
    {
      ServeIsLocal(u, call, d);
    }
  }

  /** The worlds move on at code `c` alone, and agree there. */
  ghost predicate MeetAt(u: World, w: World, u': World, w': World, c: string) {
    && ValidTickets(u') && ValidTickets(w') && SameRest(u', w') && View(u', c) == View(w', c)
    && forall d :: d != c ==> View(u', d) == View(u, d) && View(w', d) == View(w, d)
  }

  lemma FinishedAt(u: World, f: Fine, u': World, w': World, c: string)
    requires Simulates(u, f) && MeetAt(u, f.w, u', w', c)
    ensures Simulates(u', Fine(w', f.threads - {c}))
  {
    OneMoved(u, f, u', Fine(w', f.threads - {c}), c);
  }

  lemma SendMeets(u: World, w: World, call: Call, r: Response)
    requires ValidTickets(u) && ValidTickets(w) && SameRest(u, w)
    requires var c := call.Code();
             && (call.Deliver? ==> call.message in View(u, c).queued)
             && r == Respond(View(u, c).row, View(u, c).record, call) && !TakesOff(call, r)
             && View(w, c) == ApplyView(View(u, c), WritePart(r.effect))
    ensures MeetAt(u, w, Serve(u, call), Apply(w, TellPart(r.effect)), call.Code())
  {
    var c := call.Code();
    var r' := RespondIsLocal(View(u, c).row, View(u, c).record, call);
    PartsCompose(View(u, c), r.effect);
    ApplyPart(w, TellPart(r.effect), c);
    Served(u, call, r);
  }

  lemma AckPart(w: World, m: Message, early: bool)
    requires ValidTickets(w)
    ensures var w' := Acknowledge(w, m, early);
            && ValidTickets(w') && SameRest(w, w')
            && View(w', m.code) == AckView(View(w, m.code), m, early)
            && forall d :: d != m.code ==> View(w', d) == View(w, d)
  {
    forall d
      ensures View(Acknowledge(w, m, early), d) == if d == m.code then AckView(View(w, d), m, early) else View(w, d)
    {
      AckIsLocal(w, m, early, d);
    }
  }

  lemma AckMeets(u: World, w: World, call: Call, r: Response)
    requires ValidTickets(u) && ValidTickets(w) && SameRest(u, w)
    requires var c := call.Code();
             && call.Deliver? && call.message in View(u, c).queued
             && r == Respond(View(u, c).row, View(u, c).record, call) && TakesOff(call, r)
             && View(w, c) == ApplyView(View(u, c), r.effect)
    ensures MeetAt(u, w, Serve(u, call), Acknowledge(w, call.message, r.effect.early), call.Code())
  {
    AckPart(w, call.message, r.effect.early);
    Served(u, call, r);
  }

  /** The step with which a call returns is the whole call in the serial world. */
  lemma FinishSimulated(u: World, f: Fine, c: string)
    requires Simulates(u, f) && c in f.threads && Finishes(f.threads[c])
    ensures Simulates(Serve(u, f.threads[c].call), Advanced(f, c))
  {
    var th := f.threads[c];
    assert Related(c, View(u, c), View(f.w, c), ThreadAt(f, c));
    if th.Acking? {
      AckMeets(u, f.w, th.call, th.r);
    } else {
      SendMeets(u, f.w, th.call, th.r);
    }
    FinishedAt(u, f, Serve(u, th.call), Advanced(f, c).w, c);
  }

  /** Any other step is none in the serial world. */
  lemma MiddleSimulated(u: World, f: Fine, c: string)
    requires Simulates(u, f) && c in f.threads && !Finishes(f.threads[c])
    ensures Simulates(u, Advanced(f, c))
  {
    match f.threads[c]
    case Writing(_, _) => WriteKeeps(u, f, c);
    case Sending(_, _) => SendKeeps(u, f, c);
    case _ => ReadKeeps(u, f, c);
  }

  lemma StartSimulated(u: World, f: Fine, call: Call)
    requires Simulates(u, f) && CanStart(f, call.Code(), call)
    ensures Simulates(u, FineStep(f, Start(call.Code(), call)))
  {
    var c := call.Code();
    assert Related(c, View(u, c), View(f.w, c), ThreadAt(f, c));
    OneMoved(u, f, u, FineStep(f, Start(c, call)), c);
  }

  /* ----- purchase steps ----- */

  lemma BeginSeesNoTickets(db: Db, db': Db, input: PurchaseInput, getUp: bool, addUp: bool)
    requires db' == db.(tickets := db'.tickets)
    ensures var b, b' := Begin(db, input, getUp, addUp), Begin(db', input, getUp, addUp);
            b'.run == b.run && b'.db == b.db.(tickets := db'.tickets)
  {
    assert db'.events == db.events && db'.purchases == db.purchases && db'.nextPurchase == db.nextPurchase;
    var b, b' := Begin(db, input, getUp, addUp), Begin(db', input, getUp, addUp);
    assert b.run.None? ==> b.db == db;
    assert b'.run.None? ==> b'.db == db';
    assert b.run.None? <==> b'.run.None?;
    if b.run.Some? {
      assert b.run.value == b'.run.value;
    }
  }

  lemma StartKeepsRest(u: World, w: World, a: Action)
    requires SameRest(u, w) && a.StartPurchase?
    ensures SameRest(Step(u, a), Step(w, a))
  {
    if a.input.eventId !in u.running {
      BeginSeesNoTickets(u.db, w.db, a.input, a.getUp, a.addUp);
      var b, b' := Begin(u.db, a.input, a.getUp, a.addUp), Begin(w.db, a.input, a.getUp, a.addUp);
      assert Step(w, a).db == b'.db && Step(u, a).db == b.db;
      assert Step(w, a).running == Step(u, a).running;
    }
  }

  lemma EmitKeepsRest(u: World, w: World, a: Action)
    requires SameRest(u, w) && a.EmitTicket? && (ByCode(u.db.tickets, a.code).None? <==> ByCode(w.db.tickets, a.code).None?)
    ensures SameRest(Step(u, a), Step(w, a))
  {
  }

  /** The purchase steps see the same in both worlds. */
  lemma BuyKeepsRest(u: World, w: World, a: Action)
    requires SameRest(u, w) && !a.Request?
    requires a.EmitTicket? ==> (ByCode(u.db.tickets, a.code).None? <==> ByCode(w.db.tickets, a.code).None?)
    ensures SameRest(Step(u, a), Step(w, a))
  {
    match a
    case OpenEvent(_, _, _, _, _) =>
    case StartPurchase(_, _, _) => StartKeepsRest(u, w, a);
    case EmitTicket(_, _, _) => EmitKeepsRest(u, w, a);
    case AnnounceTicket(_, _) =>
    case SettlePurchase(_, _) =>
    case CompletePurchase(_, _) =>
  }

  lemma BuySees(u: World, w: World, a: Action)
    requires SameRest(u, w)
    requires a.EmitTicket? ==> (ByCode(u.db.tickets, a.code).None? <==> ByCode(w.db.tickets, a.code).None?)
    ensures Emits(u, a) <==> Emits(w, a)
    ensures Announces(u, a) <==> Announces(w, a)
    ensures Announces(u, a) ==> NextAnnounced(u, a) == NextAnnounced(w, a)
    ensures Emits(u, a) ==> TicketOf(u.db, u.running[a.eventId], a.code) == TicketOf(w.db, w.running[a.eventId], a.code)
  {
  }

  /** A purchase step that neither stores nor announces a ticket is seen by no code. */
  lemma OtherSteps(w: World, a: Action)
    requires !a.Request? && !Emits(w, a) && !Announces(w, a)
    ensures SameViews(w, Step(w, a))
  {
  }

  /** An announcement and a call in progress on the same code do not disturb each other. */
  lemma RelatedAnnounced(c: string, base: CodeView, v: CodeView, th: Option<Thread>, m: Message, up: bool)
    requires Related(c, base, v, th)
    ensures Related(c, AnnounceView(base, m, up), AnnounceView(v, m, up), th)
  {
    var base', v' := AnnounceView(base, m, up), AnnounceView(v, m, up);
    assert base'.row == base.row && base'.record == base.record;
    assert forall x :: x in base.queued ==> x in base'.queued;
    if th.Some? {
      match th.value
      case Sending(_, r) => AnnounceCommutes(base, WritePart(r.effect), m, up);
      case Acking(_, r) => AnnounceCommutes(base, r.effect, m, up);
      case _ =>
    }
  }

  lemma AnnounceCommutes(v: CodeView, e: Effect, m: Message, up: bool)
    ensures ApplyView(AnnounceView(v, m, up), e) == AnnounceView(ApplyView(v, e), m, up)
  {
    var l, r := ApplyView(AnnounceView(v, m, up), e), AnnounceView(ApplyView(v, e), m, up);
    assert l.queued == r.queued && l.lost == r.lost;
  }

  lemma EmitSimulated(u: World, f: Fine, a: Action)
    requires Simulates(u, f) && Emits(u, a) && a.code !in f.threads
    ensures Simulates(Step(u, a), f.(w := Step(f.w, a)))
  {
    assert Related(a.code, View(u, a.code), View(f.w, a.code), ThreadAt(f, a.code));
    BuyKeepsRest(u, f.w, a);
    BuySees(u, f.w, a);
    forall c
      ensures ValidTickets(Step(u, a)) && ValidTickets(Step(f.w, a))
      ensures Related(c, View(Step(u, a), c), View(Step(f.w, a), c), ThreadAt(f, c))
    {
      assert Related(c, View(u, c), View(f.w, c), ThreadAt(f, c));
      EmitIsLocal(u, a, c);
      EmitIsLocal(f.w, a, c);
    }
    SimulatesAgain(f, Step(u, a), Step(f.w, a));
  }

  lemma AnnounceSimulated(u: World, f: Fine, a: Action)
    requires Simulates(u, f) && Announces(u, a)
    ensures Simulates(Step(u, a), f.(w := Step(f.w, a)))
  {
    BuyKeepsRest(u, f.w, a);
    BuySees(u, f.w, a);
    AnnounceKeepsTickets(u, a);
    AnnounceKeepsTickets(f.w, a);
    var t := NextAnnounced(u, a);
    forall c ensures Related(c, View(Step(u, a), c), View(Step(f.w, a), c), ThreadAt(f, c)) {
      assert Related(c, View(u, c), View(f.w, c), ThreadAt(f, c));
      AnnounceSlots(u, a, c);
      AnnounceSlots(f.w, a, c);
      if c == t.code {
        RelatedAnnounced(c, View(u, c), View(f.w, c), ThreadAt(f, c), CreatedOf(t), a.up);
      }
    }
    SimulatesAgain(f, Step(u, a), Step(f.w, a));
  }

  lemma AnnounceKeepsTickets(w: World, a: Action)
    requires ValidTickets(w) && a.AnnounceTicket?
    ensures ValidTickets(Step(w, a))
  {
  }

  lemma SimulatesAgain(f: Fine, u': World, w': World)
    requires ValidTickets(u') && ValidTickets(w') && SameRest(u', w')
    requires forall c :: Related(c, View(u', c), View(w', c), ThreadAt(f, c))
    ensures Simulates(u', f.(w := w'))
  {
    forall c ensures Related(c, View(u', c), View(w', c), ThreadAt(f.(w := w'), c)) {
      assert ThreadAt(f.(w := w'), c) == ThreadAt(f, c);
    }
  }

  lemma BuySimulated(u: World, f: Fine, a: Action)
    requires Simulates(u, f) && !a.Request? && (a.EmitTicket? ==> a.code !in f.threads)
    ensures Simulates(Step(u, a), f.(w := Step(f.w, a)))
  {
    if a.EmitTicket? {
      assert Related(a.code, View(u, a.code), View(f.w, a.code), ThreadAt(f, a.code));
    }
    BuyKeepsRest(u, f.w, a);
    BuySees(u, f.w, a);
    if Emits(u, a) {
      EmitSimulated(u, f, a);
    } else if Announces(u, a) {
      AnnounceSimulated(u, f, a);
    } else {
      OtherSteps(u, a);
      OtherSteps(f.w, a);
      forall c ensures Related(c, View(Step(u, a), c), View(Step(f.w, a), c), ThreadAt(f, c)) {
        assert Related(c, View(u, c), View(f.w, c), ThreadAt(f, c));
        assert View(Step(u, a), c) == View(u, c) && View(Step(f.w, a), c) == View(f.w, c);
      }
      assert Step(u, a).db.nextTicket == u.db.nextTicket && Step(f.w, a).db.nextTicket == f.w.db.nextTicket;
      SimulatesAgain(f, Step(u, a), Step(f.w, a));
    }
  }

  /* ----- whole runs ----- */

  /** What the serial world does at this step: the call that returns, or the purchase step. */
  ghost function Returns(f: Fine, a: FineAction): seq<Action> {
    match a
    case Start(_, _) => []
    case Advance(lane) =>
      if lane in f.threads && Finishes(f.threads[lane]) then [Request(f.threads[lane].call)] else []
    case Buy(step) => if step.Request? then [] else [step]
  }

  lemma FineStepSimulated(u: World, f: Fine, a: FineAction)
    requires Simulates(u, f) && Disjoint(f, a)
    ensures Simulates(if Returns(f, a) == [] then u else Step(u, Returns(f, a)[0]), FineStep(f, a))
  {
    match a
    case Start(lane, call) =>
      if CanStart(f, lane, call) {
        StartSimulated(u, f, call);
      }
    case Advance(c) =>
      if c in f.threads && Finishes(f.threads[c]) {
        FinishSimulated(u, f, c);
        RequestIsServe(u, f.threads[c].call);
      } else if c in f.threads {
        MiddleSimulated(u, f, c);
      }
    case Buy(step) =>
      if !step.Request? {
        BuySimulated(u, f, step);
      }
  }

  /** The serial run: each call where it returns, and the purchase steps between them. */
  ghost function Serial(f: Fine, trace: seq<FineAction>): seq<Action>
    decreases |trace|
  {
    if trace == [] then [] else Returns(f, trace[0]) + Serial(FineStep(f, trace[0]), trace[1..])
  }

  lemma {:induction false} FineRunSimulated(u: World, f: Fine, trace: seq<FineAction>)
    requires Simulates(u, f) && NoOverlap(f, trace)
    ensures Simulates(Run(u, Serial(f, trace)), FineRun(f, trace))
    decreases |trace|
  {
    if trace != [] {
      var done, rest := Returns(f, trace[0]), Serial(FineStep(f, trace[0]), trace[1..]);
      FineStepSimulated(u, f, trace[0]);
      if done == [] {
        assert done + rest == rest;
        FineRunSimulated(u, FineStep(f, trace[0]), trace[1..]);
      } else {
        assert done == [done[0]];
        FoldOne(Step, u, done[0]);
        FineRunSimulated(Step(u, done[0]), FineStep(f, trace[0]), trace[1..]);
        FoldConcat(Step, u, done, rest);
      }
    }
  }

  /** The reduction theorem: whatever the interleaving, once every call has returned the
      world is the one that the same calls and purchase steps reach when every
      call runs whole, in the order in which they returned. */
  lemma Reduction(w: World, trace: seq<FineAction>)
    requires ValidTickets(w) && NoOverlap(Fine(w, map[]), trace)
    requires FineRun(Fine(w, map[]), trace).threads == map[]
    ensures FineRun(Fine(w, map[]), trace).w == Run(w, Serial(Fine(w, map[]), trace))
  {
    var f := Fine(w, map[]);
    FineRunSimulated(w, f, trace);
    var f', u := FineRun(f, trace), Run(w, Serial(f, trace));
    forall c ensures View(u, c) == View(f'.w, c) {
      assert Related(c, View(u, c), View(f'.w, c), ThreadAt(f', c));
    }
    ViewsDetermine(u, f'.w);
  }

  /* ----- what holds of whole calls holds of interleaved ones ----- */

  const START: Fine := Fine(EMPTY, map[])

  /** However far an interleaving has come, every code without a call in progress
      looks as it does in a reachable world; with no call in progress the world is one. */
  lemma InterleavedIsReachable(fine: seq<FineAction>)
    requires NoOverlap(START, fine)
    ensures var f, u := FineRun(START, fine), Run(EMPTY, Serial(START, fine));
            && Simulates(u, f)
            && (forall c :: c !in f.threads ==> View(f.w, c) == View(u, c))
            && (f.threads == map[] ==> f.w == u)
  {
    ReachableIsSafe([]);
    FineRunSimulated(EMPTY, START, fine);
    var f, u := FineRun(START, fine), Run(EMPTY, Serial(START, fine));
    forall c | c !in f.threads ensures View(f.w, c) == View(u, c) {
      assert Related(c, View(u, c), View(f.w, c), ThreadAt(f, c));
    }
    if f.threads == map[] {
      Reduction(EMPTY, fine);
    }
  }

  ghost predicate AllRecorded(f: Fine) {
    forall lane :: lane in f.threads ==> Recorded(Request(f.threads[lane].call))
  }

  predicate RecordedStart(a: FineAction) {
    a.Start? ==> Recorded(Request(a.call))
  }

  /** A call that moves on stays the same call, and the others stay as they are. */
  lemma AdvancedKeepsCalls(f: Fine, lane: string, l: string)
    requires lane in f.threads && l in Advanced(f, lane).threads
    ensures l in f.threads && Advanced(f, lane).threads[l].call == f.threads[l].call
  {
    match f.threads[lane]
    case Reading(_) =>
    case Asking(_) =>
    case Writing(_, _) =>
    case Sending(_, _) =>
    case Acking(_, _) =>
  }

  lemma FineStepRecorded(f: Fine, a: FineAction)
    requires AllRecorded(f) && RecordedStart(a)
    ensures AllRecorded(FineStep(f, a))
  {
    if a.Advance? && a.lane in f.threads {
      forall l | l in Advanced(f, a.lane).threads ensures Recorded(Request(Advanced(f, a.lane).threads[l].call)) {
        AdvancedKeepsCalls(f, a.lane, l);
      }
    } else {
      assert FineStep(f, a).threads == f.threads || (a.Start? && FineStep(f, a).threads == f.threads[a.lane := Reading(a.call)]);
    }
  }

  lemma {:induction false} SerialRecorded(f: Fine, fine: seq<FineAction>)
    requires AllRecorded(f) && forall a :: a in fine ==> RecordedStart(a)
    ensures forall a :: a in Serial(f, fine) ==> Recorded(a)
    decreases |fine|
  {
    if fine != [] {
      assert fine[0] in fine;
      FineStepRecorded(f, fine[0]);
      SerialRecorded(FineStep(f, fine[0]), fine[1..]);
      assert forall a :: a in Returns(f, fine[0]) ==> Recorded(a);
    }
  }

  /** A call in progress has not counted its admission yet. */
  lemma NotYetAdmitted(c: string, base: CodeView, v: CodeView, th: Option<Thread>)
    requires Related(c, base, v, th)
    ensures v.admitted == base.admitted
  {
  }

  /** At most one admission, at every moment of every interleaving without overlap,
      when cache writes succeed and lookups honour their contract. */
  lemma InterleavedAtMostOnce(fine: seq<FineAction>, c: string)
    requires NoOverlap(START, fine) && forall a :: a in fine ==> RecordedStart(a)
    ensures FineRun(START, fine).w.hist.admitted[c] <= 1
  {
    InterleavedIsReachable(fine);
    SerialRecorded(START, fine);
    AtMostOnce(Serial(START, fine), c);
    var f, u := FineRun(START, fine), Run(EMPTY, Serial(START, fine));
    NotYetAdmitted(c, View(u, c), View(f.w, c), ThreadAt(f, c));
  }
}
