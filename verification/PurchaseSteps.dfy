/** The purchase flow as a sequence of small steps, each one repository or
    publisher call, so that other calls can run between them. */
module PurchaseSteps {
  import opened Wrappers
  import opened Messages
  import opened TicketDomain
  import opened TicketStore

  /** The MySQL database: three tables and their AUTO_INCREMENT counters. */
  datatype Db = Tables(
    events: map<int, EventRow>, nextEvent: int,
    purchases: map<int, PurchaseRow>, nextPurchase: int,
    tickets: TicketTable, nextTicket: int)

  datatype PurchaseInput = PurchaseInput(buyerEmail: string, eventId: int, quantity: int)

  /** A purchase that has its own row and has not returned yet. `event` is its
      private copy of the event, already reserved; `announced` of its `tickets` are published. */
  datatype Running = Running(
    purchase: PurchaseRow, event: EventRow, tickets: seq<TicketRow>, announced: nat, settled: bool)

  /** The stores after a step, and the purchase if it goes on. */
  datatype Moved = Moved(db: Db, bus: Bus, next: Option<Running>)

  datatype Begun = Begun(db: Db, outcome: Outcome, run: Option<Running>)

  function Begin(db: Db, input: PurchaseInput, getUp: bool, addUp: bool): Begun {
    if !getUp then Begun(db, Internal, None)
    else if input.eventId !in db.events then Begun(db, NotFound, None)
    else
      var event := db.events[input.eventId].(id := input.eventId);
      var reserved := Reserve(event, input.quantity);
      if reserved.None? then Begun(db, BusinessRule, None)
      else
        var total := event.ticketPrice * input.quantity as real;
        if input.buyerEmail == "" || input.eventId <= 0 || total < 0.0 || !addUp then Begun(db, Internal, None)
        else
          var p := PurchaseRow(db.nextPurchase, input.buyerEmail, input.eventId, input.quantity, total);
          Begun(db.(purchases := db.purchases[p.id := p], nextPurchase := p.id + 1), Ok,
                Some(Running(p, reserved.value, [], 0, false)))
  }

  function TicketOf(db: Db, run: Running, code: string): TicketRow {
    TicketRow(db.nextTicket, code, run.purchase.eventId, run.purchase.id, Emitted, None)
  }

  ghost function Emit(db: Db, bus: Bus, run: Running, code: string, up: bool): Moved {
    if !up || ByCode(db.tickets, code).Some? then Moved(db, bus, None)
    else
      var t := TicketOf(db, run, code);
      Moved(db.(tickets := db.tickets[t.id := t], nextTicket := t.id + 1), bus,
            Some(run.(tickets := run.tickets + [t])))
  }

  function CreatedOf(t: TicketRow): Message {
    TicketCreated(t.id, t.code, t.eventId)
  }

  ghost function Announce(db: Db, bus: Bus, run: Running, up: bool): Moved
    requires run.announced < |run.tickets|
  {
    Moved(db, Sent(bus, CreatedOf(run.tickets[run.announced]), up),
          if up then Some(run.(announced := run.announced + 1)) else None)
  }

  function Settle(db: Db, bus: Bus, run: Running, up: bool): Moved {
    if !up then Moved(db, bus, None)
    else
      var events := if run.event.id in db.events then db.events[run.event.id := run.event] else db.events;
      Moved(db.(events := events), bus, Some(run.(settled := true)))
  }

  function Codes(tickets: seq<TicketRow>): (codes: seq<string>)
    ensures |codes| == |tickets| && forall i :: 0 <= i < |codes| ==> codes[i] == tickets[i].code
  {
    seq(|tickets|, i requires 0 <= i < |tickets| => tickets[i].code)
  }

  ghost function Complete(bus: Bus, run: Running, up: bool): Bus {
    SentCompleted(
      bus, PurchaseCompleted(run.purchase.id, run.purchase.buyerEmail, run.event.name, Codes(run.tickets)), up)
  }

  /* ----- the whole call ----- */

  /** How the infrastructure answers one call of Purchase; `code(i)` is the
      i-th UUID drawn. */
  datatype PurchaseIO = PurchaseIO(
    getEvent: bool, addPurchase: bool,
    code: nat -> Uuid, addTicket: nat -> bool, publishCreated: nat -> bool,
    updateEvent: bool, publishCompleted: bool)

  ghost function EmitAll(db: Db, bus: Bus, run: Running, io: PurchaseIO): Moved
    requires run.announced == |run.tickets|
    decreases run.purchase.quantity - |run.tickets|
  {
    var i := |run.tickets|;
    if i >= run.purchase.quantity then Moved(db, bus, Some(run))
    else
      var e := Emit(db, bus, run, io.code(i), io.addTicket(i));
      if e.next.None? then e
      else
        var a := Announce(e.db, e.bus, e.next.value, io.publishCreated(i));
        if a.next.None? then a else EmitAll(a.db, a.bus, a.next.value, io)
  }

  /** The stores after the call, its outcome, and on success the finished purchase. */
  datatype Purchased = Purchased(db: Db, bus: Bus, outcome: Outcome, receipt: Option<Running>)

  ghost function PurchaseCall(db: Db, bus: Bus, input: PurchaseInput, io: PurchaseIO): Purchased {
    var b := Begin(db, input, io.getEvent, io.addPurchase);
    if b.run.None? then Purchased(b.db, bus, b.outcome, None)
    else Finish(EmitAll(b.db, bus, b.run.value, io), io)
  }

  ghost function Finish(m: Moved, io: PurchaseIO): Purchased {
    if m.next.None? then Purchased(m.db, m.bus, Internal, None)
    else
      var s := Settle(m.db, m.bus, m.next.value, io.updateEvent);
      if s.next.None? then Purchased(s.db, s.bus, Internal, None)
      else
        var bus := Complete(s.bus, s.next.value, io.publishCompleted);
        if io.publishCompleted then Purchased(s.db, bus, Ok, s.next) else Purchased(s.db, bus, Internal, None)
  }
}
