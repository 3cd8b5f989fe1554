/** The messages of the `ticket.events` exchange and the broker that carries them. */
module Messages {

  /** A lifecycle message. Its constructor says which of the three queues
      (`ticket.created`, `ticket.cancelled`, `ticket.used`) it is routed to. */
  datatype Message =
    | TicketCreated(ticketId: int, code: string, eventId: int)
    | TicketCancelled(ticketId: int, code: string, eventId: int)
    | TicketUsed(code: string, eventId: int)

  datatype PurchaseCompleted =
    PurchaseCompleted(purchaseId: int, buyerEmail: string, eventName: string, ticketCodes: seq<string>)

  /** The broker as a value: what is queued, and which lifecycle messages
      were lost because their publish failed. */
  datatype Bus = Bus(queued: multiset<Message>, lost: multiset<Message>, completed: multiset<PurchaseCompleted>)

  ghost function Sent(bus: Bus, m: Message, up: bool): Bus {
    if up then bus.(queued := bus.queued + multiset{m})
    else bus.(lost := bus.lost + multiset{m})
  }

  ghost function SentCompleted(bus: Bus, m: PurchaseCompleted, up: bool): Bus {
    if up then bus.(completed := bus.completed + multiset{m}) else bus
  }

  /** The exchange with its queues. `up` is the broker's answer to the call. */
  class Broker {
    var queued: multiset<Message>
    var completed: multiset<PurchaseCompleted>
    ghost var lost: multiset<Message>

    constructor ()
      ensures Value() == Bus(multiset{}, multiset{}, multiset{})
    {
      queued, completed, lost := multiset{}, multiset{}, multiset{};
    }

    ghost function Value(): Bus
      reads this
    {
      Bus(queued, lost, completed)
    }

    method Publish(m: Message, up: bool) returns (ok: bool)
      modifies this
      ensures ok == up
      ensures Value() == Sent(old(Value()), m, up)
    {
      if up {
        queued := queued + multiset{m};
      } else {
        lost := lost + multiset{m};
      }
      ok := up;
    }

    method PublishPurchaseCompleted(m: PurchaseCompleted, up: bool) returns (ok: bool)
      modifies this
      ensures ok == up
      ensures Value() == SentCompleted(old(Value()), m, up)
    {
      if up {
        completed := completed + multiset{m};
      }
      ok := up;
    }
  }

  /** `r` holds the messages of `q` about one ticket code, with their multiplicities. */
  ghost predicate IsAbout(r: multiset<Message>, q: multiset<Message>, code: string) {
    forall m :: r[m] == if m.code == code then q[m] else 0
  }

  ghost function About(q: multiset<Message>, code: string): (r: multiset<Message>)
    ensures IsAbout(r, q, code)
  {
    AboutExists(q, code);
    var r :| IsAbout(r, q, code);
    r
  }

  lemma {:induction false} AboutExists(q: multiset<Message>, code: string)
    ensures exists r :: IsAbout(r, q, code)
    decreases |q|
  {
    if q == multiset{} {
      assert IsAbout(q, q, code);
    } else {
      var m :| m in q;
      AboutExists(q[m := 0], code);
      var rest :| IsAbout(rest, q[m := 0], code);
      assert IsAbout(if m.code == code then rest[m := q[m]] else rest, q, code);
    }
  }
}
