/** The entities of the ticket service: Event, Purchase and Ticket.
    Each class is the in-memory object; each `...Row` is the same entity as a value. */
module TicketDomain {
  import opened Wrappers

  datatype TicketStatus = Emitted | Used | Cancelled

  function StatusText(s: TicketStatus): string {
    match s
    case Emitted => "emitted"
    case Used => "used"
    case Cancelled => "cancelled"
  }

  datatype TicketRow =
    TicketRow(id: int, code: string, eventId: int, purchaseId: int, status: TicketStatus, usedAt: Option<int>)

  datatype EventRow =
    EventRow(id: int, name: string, location: string, date: int, capacity: int, ticketPrice: real, soldCount: int)

  datatype PurchaseRow =
    PurchaseRow(id: int, buyerEmail: string, eventId: int, quantity: int, totalPrice: real)

  /** What `uuid.NewString` returns: 36 characters, hex digits and dashes only. */
  type Uuid = s: string | |s| == 36 && '.' !in s
    witness seq(36, i => '0')

  /* ----- the transitions of the entities, on values ----- */

  function MarkUsed(t: TicketRow, now: int): Option<TicketRow> {
    if t.status == Emitted then Some(t.(status := Used, usedAt := Some(now))) else None
  }

  function MarkCancelled(t: TicketRow): Option<TicketRow> {
    if t.status == Emitted then Some(t.(status := Cancelled)) else None
  }

  function Reserve(e: EventRow, quantity: int): Option<EventRow> {
    if quantity <= 0 || e.capacity - e.soldCount < quantity then None
    else Some(e.(soldCount := e.soldCount + quantity))
  }

  class Ticket {
    var id: int
    const code: string
    const eventId: int
    const purchaseId: int
    var status: TicketStatus
    var usedAt: Option<int>

    function Row(): TicketRow
      reads this
    {
      TicketRow(id, code, eventId, purchaseId, status, usedAt)
    }

    /** `NewTicketFromRepository`: rebuilds the entity without validation. */
    constructor FromRow(r: TicketRow)
      ensures Row() == r
    {
      id, code, eventId, purchaseId := r.id, r.code, r.eventId, r.purchaseId;
      status, usedAt := r.status, r.usedAt;
    }

    static method NewTicket(id: int, eventId: int, purchaseId: int, code: Uuid) returns (t: Ticket?)
      ensures t == null <==> id < 0 || eventId <= 0 || purchaseId <= 0
      ensures t != null ==> fresh(t) && t.Row() == TicketRow(id, code, eventId, purchaseId, Emitted, None)
    {
      if id < 0 || eventId <= 0 || purchaseId <= 0 {
        return null;
      }
      t := new Ticket.FromRow(TicketRow(id, code, eventId, purchaseId, Emitted, None));
    }

    method SetId(id: int) returns (ok: bool)
      modifies this`id
      ensures ok <==> old(this.id) == 0 && id > 0
      ensures Row() == if ok then old(Row()).(id := id) else old(Row())
    {
      if this.id != 0 || id <= 0 {
        return false;
      }
      this.id := id;
      return true;
    }

    method MarkAsUsed(now: int) returns (ok: bool)
      modifies this`status, this`usedAt
      ensures ok <==> MarkUsed(old(Row()), now).Some?
      ensures Row() == MarkUsed(old(Row()), now).GetOr(old(Row()))
      ensures ok <==> old(status) == Emitted
      ensures Row() == if ok then old(Row()).(status := Used, usedAt := Some(now)) else old(Row())
    {
      if status == Used || status == Cancelled {
        return false;
      }
      status, usedAt := Used, Some(now);
      return true;
    }

    method Cancel() returns (ok: bool)
      modifies this`status
      ensures ok <==> MarkCancelled(old(Row())).Some?
      ensures Row() == MarkCancelled(old(Row())).GetOr(old(Row()))
      ensures ok <==> old(status) == Emitted
      ensures Row() == if ok then old(Row()).(status := Cancelled) else old(Row())
    {
      if status == Used || status == Cancelled {
        return false;
      }
      status := Cancelled;
      return true;
    }
  }

  class Event {
    var id: int
    const name: string
    const location: string
    const date: int
    const capacity: int
    const ticketPrice: real
    var soldCount: int

    function Row(): EventRow
      reads this
    {
      EventRow(id, name, location, date, capacity, ticketPrice, soldCount)
    }

    constructor FromRow(r: EventRow)
      ensures Row() == r
    {
      id, name, location, date := r.id, r.name, r.location, r.date;
      capacity, ticketPrice, soldCount := r.capacity, r.ticketPrice, r.soldCount;
    }

    /** A zero `date` is Go's zero time. */
    static method NewEvent(id: int, name: string, location: string, date: int, capacity: int, ticketPrice: real)
      returns (e: Event?)
      ensures e == null <==>
              id < 0 || name == "" || location == "" || date == 0 || capacity <= 0 || ticketPrice <= 0.0
      ensures e != null ==> fresh(e) && e.Row() == EventRow(id, name, location, date, capacity, ticketPrice, 0)
    {
      if id < 0 || name == "" || location == "" || date == 0 || capacity <= 0 || ticketPrice <= 0.0 {
        return null;
      }
      e := new Event.FromRow(EventRow(id, name, location, date, capacity, ticketPrice, 0));
    }

    function AvailableTickets(): int
      reads this
    {
      capacity - soldCount
    }

    predicate HasAvailableTickets(quantity: int)
      reads this
    {
      AvailableTickets() >= quantity
    }

    method ReserveTickets(quantity: int) returns (ok: bool)
      modifies this`soldCount
      ensures ok <==> Reserve(old(Row()), quantity).Some?
      ensures Row() == Reserve(old(Row()), quantity).GetOr(old(Row()))
      ensures ok <==> 0 < quantity <= capacity - old(soldCount)
      ensures soldCount == if ok then old(soldCount) + quantity else old(soldCount)
    {
      if quantity <= 0 {
        return false;
      }
      if !HasAvailableTickets(quantity) {
        return false;
      }
      soldCount := soldCount + quantity;
      return true;
    }
  }

  class Purchase {
    var id: int
    const buyerEmail: string
    const eventId: int
    const quantity: int
    const totalPrice: real
    var tickets: seq<Ticket>

    function Row(): PurchaseRow
      reads this
    {
      PurchaseRow(id, buyerEmail, eventId, quantity, totalPrice)
    }

    constructor FromRow(r: PurchaseRow)
      ensures Row() == r && tickets == []
    {
      id, buyerEmail, eventId, quantity, totalPrice := r.id, r.buyerEmail, r.eventId, r.quantity, r.totalPrice;
      tickets := [];
    }

    static method NewPurchase(id: int, buyerEmail: string, eventId: int, quantity: int, totalPrice: real)
      returns (p: Purchase?)
      ensures p == null <==> id < 0 || buyerEmail == "" || eventId <= 0 || quantity <= 0 || totalPrice < 0.0
      ensures p != null ==>
                fresh(p) && p.tickets == [] && p.Row() == PurchaseRow(id, buyerEmail, eventId, quantity, totalPrice)
    {
      if id < 0 || buyerEmail == "" || eventId <= 0 || quantity <= 0 || totalPrice < 0.0 {
        return null;
      }
      p := new Purchase.FromRow(PurchaseRow(id, buyerEmail, eventId, quantity, totalPrice));
    }

    method SetId(id: int) returns (ok: bool)
      modifies this`id
      ensures ok <==> old(this.id) == 0 && id > 0
      ensures Row() == if ok then old(Row()).(id := id) else old(Row())
    {
      if this.id != 0 || id <= 0 {
        return false;
      }
      this.id := id;
      return true;
    }

    method AddTicket(t: Ticket?) returns (ok: bool)
      modifies this`tickets
      ensures ok <==> t != null && |old(tickets)| < quantity
      ensures tickets == if ok then old(tickets) + [t] else old(tickets)
    {
      if t == null {
        return false;
      }
      if |tickets| >= quantity {
        return false;
      }
      tickets := tickets + [t];
      return true;
    }

    method TicketCodes() returns (codes: seq<string>)
      ensures |codes| == |tickets| && forall i :: 0 <= i < |codes| ==> codes[i] == tickets[i].code
    {
      codes := [];
      for i := 0 to |tickets|
        invariant |codes| == i && forall j :: 0 <= j < i ==> codes[j] == tickets[j].code
      {
        codes := codes + [tickets[i].code];
      }
    }
  }
}
