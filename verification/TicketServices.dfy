/** The ticket service: each method reads, changes one entity, writes it back
    and publishes, and is proved against the call it performs. */
module TicketServices {
  import opened Wrappers
  import opened Messages
  import opened TicketDomain
  import opened TicketStore
  import opened PurchaseSteps
  import opened Calls

  datatype PurchaseResult = PurchaseResult(purchaseId: int, tickets: seq<Ticket>, event: Event, totalPrice: real)

  /** The objects hold exactly these values. */
  ghost predicate Holds(tickets: seq<Ticket>, rows: seq<TicketRow>)
    reads tickets
  {
    |tickets| == |rows| && forall i :: 0 <= i < |rows| ==> tickets[i].Row() == rows[i]
  }

  class TicketService {
    const events: EventRepository
    const tickets: TicketRepository
    const purchases: PurchaseRepository
    const broker: Broker

    constructor (events: EventRepository, tickets: TicketRepository, purchases: PurchaseRepository, broker: Broker)
      ensures this.events == events && this.tickets == tickets && this.purchases == purchases && this.broker == broker
    {
      this.events, this.tickets, this.purchases, this.broker := events, tickets, purchases, broker;
    }

    ghost function Db(): Db
      reads events, tickets, purchases
    {
      Tables(events.rows, events.nextId, purchases.rows, purchases.nextId, tickets.rows, tickets.nextId)
    }

    ghost predicate Valid()
      reads tickets, purchases
    {
      tickets.Valid() && purchases.nextId > 0
    }

    method CancelTicket(code: string, io: IO) returns (outcome: Outcome)
      requires Valid()
      modifies tickets, broker
      ensures Valid()
      ensures var r := Calls.CancelTicket(ByCode(old(tickets.rows), code), code, io);
              && outcome == r.outcome
              && tickets.rows == WriteRow(old(tickets.rows), r.effect)
              && tickets.nextId == old(tickets.nextId)
              && broker.Value() == Send(old(broker.Value()), r.effect)
      ensures var row := ByCode(old(tickets.rows), code);
              && (outcome == NotFound <==> io.get && row.None?)
              && (outcome == BusinessRule <==> io.get && row.Some? && row.value.status != Emitted)
              && (outcome == Ok <==> io == ALL_UP && row.Some? && row.value.status == Emitted)
              && tickets.rows ==
                 if io.get && io.write && row.Some? && row.value.status == Emitted
                 then old(tickets.rows)[row.value.id := row.value.(status := TicketStatus.Cancelled)] else old(tickets.rows)
    {
      var ok, t := tickets.GetByCode(code, io.get);
      if !ok {
        return Internal;
      }
      if t == null {
        return NotFound;
      }
      ok := t.Cancel();
      if !ok {
        return BusinessRule;
      }
      ok := tickets.Update(t, io.write);
      if !ok {
        return Internal;
      }
      ok := broker.Publish(TicketCancelled(t.id, t.code, t.eventId), io.publish);
      return if ok then Ok else Internal;
    }

    method SyncTicketUsed(code: string, io: IO, now: int) returns (outcome: Outcome)
      requires Valid()
      modifies tickets
      ensures Valid()
      ensures var r := Calls.SyncTicketUsed(ByCode(old(tickets.rows), code), code, io, now);
              && outcome == r.outcome
              && tickets.rows == WriteRow(old(tickets.rows), r.effect)
              && tickets.nextId == old(tickets.nextId)
              && r.effect.send.None?
      ensures var row := ByCode(old(tickets.rows), code);
              var marks := io.get && row.Some? && row.value.status == Emitted && io.write;
              && (outcome == Ok <==> marks || (io.get && (row.None? || row.value.status == TicketStatus.Used)))
              && (outcome == Internal <==> outcome != Ok)
              && tickets.rows ==
                 if marks then old(tickets.rows)[row.value.id := row.value.(status := TicketStatus.Used, usedAt := Some(now))]
                 else old(tickets.rows)
    {
      var ok, t := tickets.GetByCode(code, io.get);
      if !ok {
        return Internal;
      }
      if t == null {
        return Ok;
      }
      if t.status == TicketStatus.Used {
        return Ok;
      }
      ok := t.MarkAsUsed(now);
      if !ok {
        return Internal;
      }
      ok := tickets.Update(t, io.write);
      return if ok then Ok else Internal;
    }

    method GetTicketByCode(code: string, up: bool) returns (outcome: Outcome, t: Ticket?)
      requires Valid()
      ensures outcome == if !up then Internal else if ByCode(tickets.rows, code).None? then NotFound else Ok
      ensures t != null <==> outcome == Ok
      ensures t != null ==> fresh(t) && Some(t.Row()) == ByCode(tickets.rows, code)
    {
      var ok, found := tickets.GetByCode(code, up);
      if !ok {
        return Internal, null;
      }
      if found == null {
        return NotFound, null;
      }
      return Ok, found;
    }

    /* ----- Purchase, in three parts so that each proof stays small ----- */

    /** The in-memory purchase and event are the ones `run` describes. */
    ghost predicate Tracks(purchase: TicketDomain.Purchase, event: Event, run: Running)
      reads purchase, purchase.tickets, event
    {
      && purchase.Row() == run.purchase && event.Row() == run.event && !run.settled
      && run.purchase.id > 0 && run.purchase.eventId > 0
      && run.announced == |run.tickets|
      && Holds(purchase.tickets, run.tickets)
    }

    /** service.go:89-111 */
    method BeginPurchase(input: PurchaseInput, io: PurchaseIO)
      returns (outcome: Outcome, purchase: TicketDomain.Purchase?, event: Event?, ghost run: Running)
      requires Valid()
      modifies purchases
      ensures Valid()
      ensures var b := Begin(old(Db()), input, io.getEvent, io.addPurchase);
              && Db() == b.db && outcome == b.outcome
              && (outcome == Ok <==> b.run.Some?)
              && (outcome == Ok ==>
                    && purchase != null && event != null && fresh(purchase) && fresh(event)
                    && b.run == Some(run) && purchase.tickets == [] && Tracks(purchase, event, run)
                    && run.purchase.quantity == input.quantity && run.purchase.eventId == input.eventId
                    && run.purchase.buyerEmail == input.buyerEmail)
    {
      run := *;
      purchase, event := null, null;
      var ok;
      ok, event := events.Get(input.eventId, io.getEvent);
      if !ok {
        return Internal, null, null, run;
      }
      if event == null {
        return NotFound, null, null, run;
      }
      ok := event.ReserveTickets(input.quantity);
      if !ok {
        return BusinessRule, null, null, run;
      }
      var totalPrice := event.ticketPrice * input.quantity as real;
      purchase := TicketDomain.Purchase.NewPurchase(0, input.buyerEmail, input.eventId, input.quantity, totalPrice);
      if purchase == null {
        return Internal, null, null, run;
      }
      ok := purchases.Add(purchase, io.addPurchase);
      if !ok {
        return Internal, null, null, run;
      }
      run := Running(purchase.Row(), event.Row(), [], 0, false);
      return Ok, purchase, event, run;
    }

    /** One round of the loop, service.go:114-133. Neither NewTicket nor
        AddTicket can fail here: their error branches are dead. */
    method IssueTicket(purchase: TicketDomain.Purchase, event: Event, io: PurchaseIO, ghost run: Running)
      returns (ok: bool, ghost next: Running)
      requires Valid() && Tracks(purchase, event, run) && |purchase.tickets| < purchase.quantity
      modifies tickets, broker, purchase`tickets
      ensures Valid()
      ensures ok ==>
                && Tracks(purchase, event, next)
                && |purchase.tickets| == |old(purchase.tickets)| + 1
                && next.purchase == run.purchase
      ensures EmitAll(old(Db()), old(broker.Value()), run, io) ==
              if ok then EmitAll(Db(), broker.Value(), next, io) else Moved(Db(), broker.Value(), None)
    {
      next := run;
      var i := |purchase.tickets|;
      var t := Ticket.NewTicket(0, purchase.eventId, purchase.id, io.code(i));
      assert t != null;
      ghost var emitted := Emit(Db(), broker.Value(), run, io.code(i), io.addTicket(i));
      ok := tickets.Add(t, io.addTicket(i));
      assert Db() == emitted.db;
      if !ok {
        return;
      }
      ok := purchase.AddTicket(t);
      assert ok;
      next := emitted.next.value;
      ghost var announced := Announce(Db(), broker.Value(), next, io.publishCreated(i));
      ok := broker.Publish(TicketCreated(t.id, t.code, purchase.eventId), io.publishCreated(i));
      if ok {
        next := announced.next.value;
      }
    }

    /** service.go:136-154 */
    method FinishPurchase(purchase: TicketDomain.Purchase, event: Event, io: PurchaseIO, ghost run: Running)
      returns (outcome: Outcome, result: Option<PurchaseResult>)
      requires Valid() && Tracks(purchase, event, run)
      modifies events, broker
      ensures Valid()
      ensures var p := Finish(Moved(old(Db()), old(broker.Value()), Some(run)), io);
              && Db() == p.db && broker.Value() == p.bus && outcome == p.outcome
              && (result.Some? <==> p.receipt.Some?)
              && (result.Some? ==> Reports(result.value, p.receipt.value))
    {
      var ok := events.Update(event, io.updateEvent);
      if !ok {
        return Internal, None;
      }
      var codes := purchase.TicketCodes();
      assert codes == Codes(run.tickets);
      ok := broker.PublishPurchaseCompleted(
        PurchaseCompleted(purchase.id, purchase.buyerEmail, event.name, codes), io.publishCompleted);
      if !ok {
        return Internal, None;
      }
      return Ok, Some(PurchaseResult(purchase.id, purchase.tickets, event, purchase.totalPrice));
    }

    ghost predicate Reports(result: PurchaseResult, receipt: Running)
      reads result.event, result.tickets
    {
      && result.purchaseId == receipt.purchase.id
      && result.totalPrice == receipt.purchase.totalPrice
      && result.event.Row() == receipt.event
      && Holds(result.tickets, receipt.tickets)
    }

    method Purchase(input: PurchaseInput, io: PurchaseIO) returns (outcome: Outcome, result: Option<PurchaseResult>)
      requires Valid()
      modifies events, tickets, purchases, broker
      ensures Valid()
      ensures var p := PurchaseCall(old(Db()), old(broker.Value()), input, io);
              && Db() == p.db && broker.Value() == p.bus && outcome == p.outcome
              && (result.Some? <==> p.receipt.Some?)
              && (result.Some? ==> Reports(result.value, p.receipt.value))
    {
      var begun, purchase, event;
      ghost var run;
      begun, purchase, event, run := BeginPurchase(input, io);
      if begun != Ok {
        return begun, None;
      }
      ghost var all := EmitAll(Db(), broker.Value(), run, io);
      for i := 0 to input.quantity
        invariant Valid()
        invariant fresh(purchase) && fresh(event)
        invariant Tracks(purchase, event, run)
        invariant |purchase.tickets| == i && run.purchase.quantity == input.quantity
        invariant all == EmitAll(Db(), broker.Value(), run, io)
      {
        var ok;
        ok, run := IssueTicket(purchase, event, io, run);
        if !ok {
          return Internal, None;
        }
      }
      outcome, result := FinishPurchase(purchase, event, io, run);
    }
  }
}
