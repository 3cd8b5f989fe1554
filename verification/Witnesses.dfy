/** Reachable runs that show what happens without the lookup contract, without the delivery
    order, and when calls on one code or purchases on one event overlap. */
module Witnesses {
  import opened Wrappers
  import opened Messages
  import opened TicketDomain
  import opened TicketStore
  import opened ValidatorDomain
  import opened Calls
  import opened PurchaseSteps
  import opened Protocol
  import opened Views
  import opened Safety
  import opened Guarantees
  import opened Draining
  import opened Convergence
  import opened Samples
  import opened Reduction
  import opened Overlaps
  import opened Races
  import opened Accounting
  import opened LostSales

  /** A ticket is sold. Twice the gate asks about it before it hears of it, and the lookup
      answers without the event id, as the HTTP client does: two holders enter, one call after
      the other, with every call successful. */
  lemma LookupContractMatters(code: Uuid)
    ensures var scan := Request(Validate(code, HttpClient, ALL_UP, 0));
            Run(EMPTY, OneTicket(code)[..3] + [scan] + [scan]).hist.admitted[code] >= 2
  {
    var scan := Validate(code, HttpClient, ALL_UP, 0);
    var sold := OneTicket(code)[..3];
    StoredView(code);
    ReachableIsSafe(sold);
    RequestView(sold, scan);
    RequestView(sold + [Request(scan)], scan);
    var v := View(Run(EMPTY, sold), code);
    assert Sound(v);
    ReadmitsIffMissed(v, scan, scan);
  }

  /** A ticket is sold, announced and cancelled, and the cancellation is delivered first. */
  function CancelledFirst(code: Uuid): seq<Action> {
    OneTicket(code)[..4] + [Request(Cancel(code, ALL_UP))]
    + [Request(CleanDelivery(CancelledOf(SoldTicket(code)), 0))]
    + [Request(CleanDelivery(CreatedOf(SoldTicket(code)), 0))]
  }

  /** The view of the ticket once it is cancelled and both messages wait. */
  lemma CancelledView(code: Uuid)
    ensures var t := SoldTicket(code);
            View(Run(EMPTY, OneTicket(code)[..4] + [Request(Cancel(code, ALL_UP))]), code) ==
            BLANK.(row := TicketDomain.MarkCancelled(t), queued := multiset{CreatedOf(t)} + multiset{CancelledOf(t)},
                   announced := true)
  {
    AnnouncedView(code);
    RequestView(OneTicket(code)[..4], Cancel(code, ALL_UP));
  }

  lemma CancelledFirstView(code: Uuid)
    ensures var t := SoldTicket(code);
            View(Run(EMPTY, CancelledFirst(code)), code) ==
            BLANK.(row := TicketDomain.MarkCancelled(t), record := Some(CacheRecord(1, Active, None)), early := 1, announced := true)
  {
    var t := SoldTicket(code);
    var trace := OneTicket(code)[..4] + [Request(Cancel(code, ALL_UP))];
    var v := View(Run(EMPTY, trace), code);
    CancelledView(code);
    RequestView(trace, CleanDelivery(CancelledOf(t), 0));
    RequestView(trace + [Request(CleanDelivery(CancelledOf(t), 0))], CleanDelivery(CreatedOf(t), 0));
    CancelUncached(v, CancelledOf(t), 0);
    CreateUncached(ServeView(v, CleanDelivery(CancelledOf(t), 0)), CreatedOf(t), 0);
    assert multiset{CreatedOf(t)} + multiset{CancelledOf(t)} - multiset{CancelledOf(t)} - multiset{CreatedOf(t)} == multiset{};
  }

  /** The run ends with nothing about the ticket queued and the stores in disagreement, and the
      holder of the cancelled ticket is admitted. */
  lemma DeliveryOrderMatters(code: Uuid)
    ensures var w := Run(EMPTY, CancelledFirst(code));
            var scan := Validate(code, Contract, ALL_UP, 0);
            && QuietFor(w, code) && !Agreed(w, code)
            && ByCode(w.db.tickets, code).Some? && ByCode(w.db.tickets, code).value.status == TicketStatus.Cancelled
            && Run(EMPTY, CancelledFirst(code) + [Request(scan)]).hist.admitted[code] == 1
  {
    var w, scan := Run(EMPTY, CancelledFirst(code)), Validate(code, Contract, ALL_UP, 0);
    CancelledFirstView(code);
    AgreedIsLocal(w, code);
    assert forall m :: m in View(w, code).queued <==> m in w.bus.queued && m.code == code;
    RequestView(CancelledFirst(code), scan);
    ValidateAdmitsIff(View(w, code), scan);
    assert View(Run(EMPTY, CancelledFirst(code) + [Request(scan)]), code).admitted == 1;
  }

  /** A ticket is sold and announced. The validator reads the cache for the creation; the gate admits a holder
      live; the creation is written; and the gate, in a second call that overlaps with nothing,
      admits another. Every call succeeds and every lookup is honest. */
  lemma StaleCreationAdmitsTwice(code: Uuid)
    ensures var w := Run(EMPTY, OneTicket(code)[..4]);
            var scan, created := Validate(code, Contract, ALL_UP, 0), CleanDelivery(CreatedOf(SoldTicket(code)), 0);
            var f := FineRun(Both(w, "gate", "queue", scan, created), Advances(Lanes(STALE_CREATION, "gate", "queue")));
            && Recorded(Request(scan))
            && f.threads == map[] && Serve(f.w, scan).hist.admitted[code] >= 2
  {
    var w := Run(EMPTY, OneTicket(code)[..4]);
    var scan, created := Validate(code, Contract, ALL_UP, 0), CleanDelivery(CreatedOf(SoldTicket(code)), 0);
    AnnouncedView(code);
    assert created.message in View(w, code).queued;
    StaleCreationLosesUse(OneTicket(code)[..4], scan, created);
    var f := FineRun(Both(w, "gate", "queue", scan, created), Advances(Lanes(STALE_CREATION, "gate", "queue")));
    ActiveAdmits(f.w, scan);
  }

  lemma ActiveAdmits(w: World, scan: Call)
    requires ValidTickets(w) && scan.Validate? && scan.io == ALL_UP && Is(Lookup(w.cache, scan.c), Active)
    ensures Serve(w, scan).hist.admitted[scan.c] == w.hist.admitted[scan.c] + 1
  {
    ServeIsLocal(w, scan, scan.c);
    ValidateAdmitsIff(View(w, scan.c), scan);
    assert View(Serve(w, scan), scan.c).admitted == Serve(w, scan).hist.admitted[scan.c];
  }

  /** A ticket is sold, announced, cached and used at the gate; its use waits. The consumer reads the row,
      the owner cancels the ticket, the consumer writes: a cancelled ticket turns used. */
  lemma StaleUseIsReachable(code: Uuid)
    ensures var trace := OneTicket(code) + [Request(Validate(code, Contract, ALL_UP, 0))];
            var cancel, used := Cancel(code, ALL_UP), CleanDelivery(TicketUsed(code, 1), 0);
            var f := Both(Run(EMPTY, trace), "owner", "queue", cancel, used);
            var f4 := FineRun(f, Advances(Lanes(STALE_USE[..CANCELLED_BY_THEN], "owner", "queue")));
            var f' := FineRun(f, Advances(Lanes(STALE_USE, "owner", "queue")));
            && used.message in Run(EMPTY, trace).bus.queued
            && f'.threads == map[] && !MovesOnce(View(f4.w, code), View(f'.w, code))
  {
    var trace := OneTicket(code) + [Request(Validate(code, Contract, ALL_UP, 0))];
    UsedOnceView(code);
    assert TicketUsed(code, 1) in View(Run(EMPTY, trace), code).queued;
    StaleUseRevives(trace, Cancel(code, ALL_UP), CleanDelivery(TicketUsed(code, 1), 0));
  }

  lemma UsedOnceView(code: Uuid)
    ensures var v := View(Run(EMPTY, OneTicket(code) + [Request(Validate(code, Contract, ALL_UP, 0))]), code);
            v.row == Some(SoldTicket(code)) && TicketUsed(code, 1) in v.queued
  {
    var t := OneTicket(code);
    AnnouncedView(code);
    assert t == t[..4] + [t[4]];
    RequestView(t[..4], t[4].call);
    CreateUncached(View(Run(EMPTY, t[..4]), code), CreatedOf(SoldTicket(code)), 0);
    RequestView(t, Validate(code, Contract, ALL_UP, 0));
  }

  /** An event with one seat: two purchases overlap, both succeed, two tickets are stored,
      and the event says that one was sold. */
  lemma OneSeatTwoTickets(code1: Uuid, code2: Uuid)
    requires code1 != code2
    ensures var w := Run(EMPTY, OneTicket(code1)[..1]);
            var buyer := Waiting(PurchaseInput("buyer", 1, 1));
            var s := TakeTurns(Shop(w.db, w.bus, buyer, buyer), Overlapping([code1], [code2]));
            && 1 in w.db.events && w.db.events[1].capacity == 1
            && HasSettled(s.first) && HasSettled(s.second) && 1 in s.db.events
            && s.db.events[1].soldCount == 1 && |RowsOfEvent(s.db.tickets, 1)| == 2
  {
    var input := PurchaseInput("buyer", 1, 1);
    OpenedShow();
    var a := OneTicket(code1)[0];
    var w := Step(EMPTY, a);
    FoldOne(Step, EMPTY, a);
    assert OneTicket(code1)[..1] == [a];
    OneSeatBegins(w.db, input);
    assert [code1] + [code2] == [code1, code2];
    assert NewCodes(w.db.tickets, [code1, code2]);
    assert RowsOfEvent(w.db.tickets, 1) == {};
    OverlapLosesSale(w.db, w.bus, input, input, [code1], [code2]);
  }

  lemma OneSeatBegins(db: Db, input: PurchaseInput)
    requires db.events == map[1 := EventRow(1, "show", "hall", 1, 1, 1.0, 0)] && input == PurchaseInput("buyer", 1, 1)
    ensures Begin(db, input, true, true).run.Some?
  {
  }
}
