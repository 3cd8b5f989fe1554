/** One concrete run: an event, a purchase of its only ticket, and the news of it. */
module Samples {
  import opened Wrappers
  import opened Messages
  import opened TicketDomain
  import opened TicketStore
  import opened ValidatorDomain
  import opened Calls
  import opened PurchaseSteps
  import opened Protocol
  import opened Views
  import opened Safety
  import opened Guarantees

  /** One event, one ticket: sold, announced, and cached. */
  function OneTicket(code: Uuid): seq<Action> {
    [OpenEvent("show", "hall", 1, 1, 1.0)] + [StartPurchase(PurchaseInput("buyer", 1, 1), true, true)]
    + [EmitTicket(1, code, true)] + [AnnounceTicket(1, true)]
    + [Request(Deliver(TicketCreated(1000, code, 1), ALL_UP, 0, true))]
  }

  /** The ticket it sells. */
  function SoldTicket(code: Uuid): TicketRow {
    TicketRow(1000, code, 1, 1000, Emitted, None)
  }

  lemma RunStep(trace: seq<Action>, a: Action)
    ensures Run(EMPTY, trace + [a]) == Step(Run(EMPTY, trace), a)
  {
    FoldConcat(Step, EMPTY, trace, [a]);
    FoldOne(Step, Run(EMPTY, trace), a);
  }

  lemma OpenedShow()
    ensures var w := Step(EMPTY, OpenEvent("show", "hall", 1, 1, 1.0));
            w == EMPTY.(db := EMPTY.db.(events := map[1 := EventRow(1, "show", "hall", 1, 1, 1.0, 0)], nextEvent := 2))
  {
  }

  lemma StartedPurchase(w: World)
    requires w.db.events == map[1 := EventRow(1, "show", "hall", 1, 1, 1.0, 0)] && w.running == map[]
    ensures var w' := Step(w, StartPurchase(PurchaseInput("buyer", 1, 1), true, true));
            && w'.db.tickets == w.db.tickets && w'.db.nextTicket == w.db.nextTicket
            && w'.cache == w.cache && w'.bus == w.bus && w'.hist == w.hist
            && 1 in w'.running && w'.running[1].tickets == [] && w'.running[1].announced == 0 && !w'.running[1].settled
            && w'.running[1].purchase.id == w.db.nextPurchase && w'.running[1].purchase.eventId == 1
            && w'.running[1].purchase.quantity == 1
  {
  }

  lemma StoredTicket(w: World, code: Uuid)
    requires 1 in w.running && CanEmit(w.running[1]) && w.running[1].tickets == [] && w.db.tickets == map[]
    ensures var w' := Step(w, EmitTicket(1, code, true));
            && 1 in w'.running && w'.cache == w.cache && w'.bus == w.bus && w'.hist == w.hist
            && w'.running[1] == w.running[1].(tickets := [TicketOf(w.db, w.running[1], code)])
            && w'.db.tickets == map[w.db.nextTicket := TicketOf(w.db, w.running[1], code)]
  {
    assert ByCode(w.db.tickets, code).None?;
    assert [] + [TicketOf(w.db, w.running[1], code)] == [TicketOf(w.db, w.running[1], code)];
  }

  lemma OneTicketStored(code: Uuid)
    ensures var w := Run(EMPTY, OneTicket(code)[..3]);
            && 1 in w.running && CanAnnounce(w.running[1]) && w.running[1].announced == 0
            && w.running[1].tickets == [SoldTicket(code)] && w.db.tickets == map[1000 := SoldTicket(code)]
            && w.cache == map[] && w.bus == EMPTY.bus && w.hist == EMPTY.hist
  {
    var t := OneTicket(code);
    OpenedShow();
    var w1 := Step(EMPTY, t[0]);
    StartedPurchase(w1);
    var w2 := Step(w1, t[1]);
    StoredTicket(w2, code);
    FirstThree(t);
  }

  lemma FirstThree(t: seq<Action>)
    requires |t| >= 3
    ensures Run(EMPTY, t[..3]) == Step(Step(Step(EMPTY, t[0]), t[1]), t[2])
  {
    FoldOne(Step, EMPTY, t[0]);
    RunStep([t[0]], t[1]);
    RunStep([t[0]] + [t[1]], t[2]);
    assert t[..3] == [t[0]] + [t[1]] + [t[2]];
  }

  /** The ticket is stored, and nobody has heard of it. */
  lemma StoredView(code: Uuid)
    ensures View(Run(EMPTY, OneTicket(code)[..3]), code) == BLANK.(row := Some(SoldTicket(code)))
  {
    OneTicketStored(code);
    var w := Run(EMPTY, OneTicket(code)[..3]);
    ReachableIsSafe(OneTicket(code)[..3]);
    ByCodeFinds(w.db.tickets, w.db.nextTicket, 1000);
    assert About(multiset{}, code) == multiset{};
  }

  /** It is announced, and its message waits. */
  lemma AnnouncedView(code: Uuid)
    ensures View(Run(EMPTY, OneTicket(code)[..4]), code) ==
            BLANK.(row := Some(SoldTicket(code)), queued := multiset{CreatedOf(SoldTicket(code))}, announced := true)
  {
    var t := OneTicket(code);
    StoredView(code);
    OneTicketStored(code);
    RunStep(t[..3], t[3]);
    assert t[..4] == t[..3] + [t[3]];
    AnnounceSlots(Run(EMPTY, t[..3]), t[3], code);
  }

  lemma OneTicketCached(code: Uuid)
    ensures Lookup(Run(EMPTY, OneTicket(code)).cache, code) == Some(CacheRecord(1, Active, None))
  {
    var t := OneTicket(code);
    AnnouncedView(code);
    RunStep(t[..4], t[4]);
    assert t == t[..4] + [t[4]];
    var w := Run(EMPTY, t[..4]);
    assert t[4].call.message in View(w, code).queued;
    assert Lookup(w.cache, code).None?;
    Delivered(w, t[4].call);
  }

  lemma Delivered(w: World, call: Call)
    requires call.Deliver? && call.message.TicketCreated? && call.message in w.bus.queued && call.io == ALL_UP
    requires call.message.code !in w.cache && call.message.code != "" && call.message.eventId > 0
    ensures Lookup(Step(w, Request(call)).cache, call.message.code) == Some(CacheRecord(call.message.eventId, Active, None))
  {
    RequestIsServe(w, call);
  }

  lemma OneTicketRecorded(code: Uuid)
    ensures forall a :: a in OneTicket(code) ==> Recorded(a)
  {
  }

  /** A call appended to a run, seen from its code. */
  lemma RequestView(trace: seq<Action>, call: Call)
    ensures View(Run(EMPTY, trace + [Request(call)]), call.Code()) == ServeView(View(Run(EMPTY, trace), call.Code()), call)
  {
    ReachableIsSafe(trace);
    RunStep(trace, Request(call));
    RequestIsServe(Run(EMPTY, trace), call);
    ServeIsLocal(Run(EMPTY, trace), call, call.Code());
  }
}
