/** The two services, their stores and the broker as one transition system.
    The steps are the calls of the services; purchases advance one repository
    or publisher call at a time, at most one purchase per event. */
module Protocol {
  import opened Wrappers
  import opened Messages
  import opened TicketDomain
  import opened TicketStore
  import opened ValidatorDomain
  import opened Calls
  import opened PurchaseSteps

  /** What no store keeps: how often each code was admitted, admitted without a
      cache record, and cancelled before it was cached; which codes were announced;
      and which purchases wrote their event back. */
  datatype History = History(
    admitted: multiset<string>, missed: multiset<string>, early: multiset<string>,
    announced: set<string>, settled: set<int>)

  /** `running` holds the purchase in progress on each event. */
  datatype World = World(db: Db, cache: Cache, bus: Bus, running: map<int, Running>, hist: History)

  const EMPTY: World := World(
    Tables(map[], 1, map[], 1000, map[], 1000), map[], Bus(multiset{}, multiset{}, multiset{}), map[],
    History(multiset{}, multiset{}, multiset{}, {}, {}))

  /** How the live lookup answers: not at all; as its port promises, with the
      ticket's own event id; or with event id 0, as the HTTP client fills it in. */
  datatype Port = Down | Contract | HttpClient

  datatype Call =
    | Validate(c: string, port: Port, io: IO, now: int)
    | Cancel(c: string, io: IO)
    | Deliver(message: Message, io: IO, now: int, acked: bool)
  {
    function Code(): string {
      if Deliver? then message.code else c
    }
  }

  function ReplyOf(row: Option<TicketRow>, port: Port): Reply {
    if port == Down then Unreachable
    else if row.None? then Unknown
    else Info(row.value.code, if port == Contract then row.value.eventId else 0, TicketDomain.StatusText(row.value.status))
  }

  function Respond(row: Option<TicketRow>, record: Option<CacheRecord>, call: Call): Response {
    match call
    case Validate(code, port, io, now) =>
      var v := ValidateTicket(record, ReplyOf(row, port), code, io, now);
      Response(v.effect, v.outcome)
    case Cancel(code, io) => CancelTicket(row, code, io)
    case Deliver(m, io, now, _) =>
      match m
      case TicketCreated(_, code, eventId) => SyncTicketCreated(record, code, eventId, io)
      case TicketCancelled(_, code, _) => SyncTicketCancelled(record, code, io)
      case TicketUsed(code, _) => SyncTicketUsed(row, code, io, now)
  }

  function Times(yes: bool, code: string): multiset<string> {
    if yes then multiset{code} else multiset{}
  }

  function Apply(w: World, e: Effect): World {
    World(
      w.db.(tickets := WriteRow(w.db.tickets, e)),
      WriteRecord(w.cache, e),
      Send(w.bus, e),
      w.running,
      w.hist.(admitted := w.hist.admitted + Times(e.admits, e.code), missed := w.hist.missed + Times(e.missed, e.code)))
  }

  /** The broker forgets a message once it is acknowledged, or dropped. */
  ghost function Acknowledge(w: World, m: Message, early: bool): World {
    w.(bus := w.bus.(queued := w.bus.queued - multiset{m}),
       hist := w.hist.(early := w.hist.early + Times(early, m.code)))
  }

  /** The call, on what the stores say about its code. */
  ghost function Answer(w: World, call: Call): Response {
    Respond(ByCode(w.db.tickets, call.Code()), Lookup(w.cache, call.Code()), call)
  }

  /** One whole service call, run without interruption. A delivery is
      taken off its queue unless its handler requeues it; `acked` is false when that
      decision is lost and the message will be delivered again. */
  ghost function Serve(w: World, call: Call): World {
    if call.Deliver? && call.message !in w.bus.queued then w
    else ServeWith(w, call, Answer(w, call))
  }

  ghost function ServeWith(w: World, call: Call, r: Response): World {
    var w' := Apply(w, r.effect);
    if TakesOff(call, r) then Acknowledge(w', call.message, r.effect.early) else w'
  }

  /** The handler's decision takes the message off the queue: it is not to be delivered again. */
  predicate TakesOff(call: Call, r: Response) {
    call.Deliver? && call.acked && Decide(Some(call.message), r.outcome) != Requeue
  }

  /** Whole calls, one after the other. */
  ghost function ServeAll(w: World, calls: seq<Call>): World {
    Fold(Serve, w, calls)
  }

  datatype Action =
    | OpenEvent(name: string, location: string, date: int, capacity: int, ticketPrice: real)
    | StartPurchase(input: PurchaseInput, getUp: bool, addUp: bool)
    | EmitTicket(eventId: int, code: Uuid, up: bool)
    | AnnounceTicket(eventId: int, up: bool)
    | SettlePurchase(eventId: int, up: bool)
    | CompletePurchase(eventId: int, up: bool)
    | Request(call: Call)

  function Resume(w: World, eventId: int, m: Moved): World {
    w.(db := m.db, bus := m.bus,
       running := if m.next.Some? then w.running[eventId := m.next.value] else w.running - {eventId})
  }

  /** An action that is not enabled leaves the world as it is. */
  ghost function Step(w: World, a: Action): World {
    match a
    case OpenEvent(name, location, date, capacity, ticketPrice) =>
      if name == "" || location == "" || date == 0 || capacity <= 0 || ticketPrice <= 0.0 then w
      else
        var id := w.db.nextEvent;
        var e := EventRow(id, name, location, date, capacity, ticketPrice, 0);
        w.(db := w.db.(events := w.db.events[id := e], nextEvent := id + 1))
    case StartPurchase(input, getUp, addUp) =>
      if input.eventId in w.running then w
      else
        var b := Begin(w.db, input, getUp, addUp);
        w.(db := b.db, running := if b.run.Some? then w.running[input.eventId := b.run.value] else w.running)
    case EmitTicket(e, code, up) =>
      if !(e in w.running && CanEmit(w.running[e])) then w
      else Resume(w, e, Emit(w.db, w.bus, w.running[e], code, up))
    case AnnounceTicket(e, up) =>
      if !(e in w.running && CanAnnounce(w.running[e])) then w
      else
        var run := w.running[e];
        var w' := Resume(w, e, Announce(w.db, w.bus, run, up));
        if up then w'.(hist := w.hist.(announced := w.hist.announced + {run.tickets[run.announced].code})) else w'
    case SettlePurchase(e, up) =>
      if !(e in w.running && CanSettle(w.running[e])) then w
      else
        var w' := Resume(w, e, Settle(w.db, w.bus, w.running[e], up));
        if up then w'.(hist := w.hist.(settled := w.hist.settled + {w.running[e].purchase.id})) else w'
    case CompletePurchase(e, up) =>
      if !(e in w.running && w.running[e].settled) then w
      else w.(bus := Complete(w.bus, w.running[e], up), running := w.running - {e})
    case Request(call) => Serve(w, call)
  }

  predicate CanEmit(run: Running) {
    !run.settled && run.announced == |run.tickets| < run.purchase.quantity
  }

  predicate CanAnnounce(run: Running) {
    !run.settled && run.announced < |run.tickets|
  }

  predicate CanSettle(run: Running) {
    !run.settled && run.announced == |run.tickets| >= run.purchase.quantity
  }

  ghost function Run(w: World, trace: seq<Action>): World {
    Fold(Step, w, trace)
  }
}
