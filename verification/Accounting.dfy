/** Purchase accounting over whole runs, with a failure possible at every
    repository and publish call of every purchase. */
module Accounting {
  import opened Messages
  import opened TicketDomain
  import opened TicketStore
  import opened Calls
  import opened PurchaseSteps
  import opened Protocol
  import opened Views

  ghost function RowsOfEvent(tickets: TicketTable, e: int): set<int> {
    set id | id in tickets && tickets[id].eventId == e
  }

  ghost function RowsOfPurchase(tickets: TicketTable, p: int): set<int> {
    set id | id in tickets && tickets[id].purchaseId == p
  }

  /** The rows of an event whose purchase wrote the event back. */
  ghost function SettledRows(w: World, e: int): set<int> {
    set id | id in w.db.tickets && w.db.tickets[id].eventId == e && w.db.tickets[id].purchaseId in w.hist.settled
  }

  ghost function Ids(tickets: seq<TicketRow>): set<int> {
    set t | t in tickets :: t.id
  }

  /** The columns of a ticket row that never change. */
  predicate SameTicket(t: TicketRow, u: TicketRow) {
    t.id == u.id && t.code == u.code && t.eventId == u.eventId && t.purchaseId == u.purchaseId
  }

  ghost predicate EventsSound(w: World) {
    && w.db.nextEvent > 0
    && forall e :: e in w.db.events ==>
         && 0 < e < w.db.nextEvent && w.db.events[e].id == e && w.db.events[e].ticketPrice > 0.0
         && 0 <= w.db.events[e].soldCount <= w.db.events[e].capacity
  }

  ghost predicate PurchasesSound(w: World) {
    && w.db.nextPurchase > 0
    && (forall p :: p in w.db.purchases ==>
          && 0 < p < w.db.nextPurchase && w.db.purchases[p].id == p && w.db.purchases[p].quantity > 0
          && w.db.purchases[p].eventId in w.db.events)
    && (forall p :: p in w.hist.settled ==>
          && p in w.db.purchases
          && |RowsOfPurchase(w.db.tickets, p)| == w.db.purchases[p].quantity)
  }

  /** Each ticket belongs to a purchase of its own event. */
  ghost predicate TicketsSound(w: World) {
    && ValidTickets(w)
    && forall id :: id in w.db.tickets ==>
         && w.db.tickets[id].purchaseId in w.db.purchases
         && w.db.purchases[w.db.tickets[id].purchaseId].eventId == w.db.tickets[id].eventId
         && w.db.tickets[id].code != ""
  }

  /** The purchase in progress on event `e`. */
  ghost predicate Live(w: World, e: int, run: Running) {
    && run.purchase.id in w.db.purchases && w.db.purchases[run.purchase.id] == run.purchase
    && e in w.db.events && run.purchase.eventId == e == run.event.id && run.event.name == w.db.events[e].name
    && run.announced <= |run.tickets| <= run.purchase.quantity
    && (run.settled <==> run.purchase.id in w.hist.settled)
    && (!run.settled ==>
          && run.event == w.db.events[e].(soldCount := w.db.events[e].soldCount + run.purchase.quantity)
          && run.event.soldCount <= run.event.capacity)
    && RowsOfPurchase(w.db.tickets, run.purchase.id) == Ids(run.tickets)
    && |Ids(run.tickets)| == |run.tickets|
    && (forall t :: t in run.tickets ==> t.id in w.db.tickets && SameTicket(w.db.tickets[t.id], t))
  }

  ghost predicate RunningSound(w: World) {
    forall e :: e in w.running ==> Live(w, e, w.running[e])
  }

  /** sold_count counts exactly the rows of the purchases that settled. */
  ghost predicate SoldSound(w: World) {
    forall e :: e in w.db.events ==> w.db.events[e].soldCount == |SettledRows(w, e)|
  }

  ghost predicate Books(w: World) {
    EventsSound(w) && PurchasesSound(w) && TicketsSound(w) && RunningSound(w) && SoldSound(w)
  }

  /* ----- each action keeps the books ----- */

  /** The two tables differ in status and use time only. */
  ghost predicate SameTickets(w: World, w': World) {
    && w'.db.tickets.Keys == w.db.tickets.Keys
    && w'.hist.settled == w.hist.settled
    && forall id :: id in w.db.tickets ==> SameTicket(w'.db.tickets[id], w.db.tickets[id])
  }

  /** The counts depend on the tickets and the settled purchases only. */
  lemma SameCounts(w: World, w': World)
    requires SameTickets(w, w')
    ensures forall e :: SettledRows(w', e) == SettledRows(w, e)
    ensures forall e :: RowsOfEvent(w'.db.tickets, e) == RowsOfEvent(w.db.tickets, e)
    ensures forall p :: RowsOfPurchase(w'.db.tickets, p) == RowsOfPurchase(w.db.tickets, p)
  {
    forall id
      ensures id in w'.db.tickets <==> id in w.db.tickets
      ensures id in w.db.tickets ==> SameTicket(w'.db.tickets[id], w.db.tickets[id])
    {
      assert id in w'.db.tickets.Keys <==> id in w.db.tickets.Keys;
    }
    forall e ensures SettledRows(w', e) == SettledRows(w, e) {
      forall id ensures id in SettledRows(w', e) <==> id in SettledRows(w, e) {
      }
    }
    forall e ensures RowsOfEvent(w'.db.tickets, e) == RowsOfEvent(w.db.tickets, e) {
      forall id ensures id in RowsOfEvent(w'.db.tickets, e) <==> id in RowsOfEvent(w.db.tickets, e) {
      }
    }
    forall p ensures RowsOfPurchase(w'.db.tickets, p) == RowsOfPurchase(w.db.tickets, p) {
      forall id ensures id in RowsOfPurchase(w'.db.tickets, p) <==> id in RowsOfPurchase(w.db.tickets, p) {
      }
    }
  }

  /** `w'` is `w` with one more event. */
  ghost predicate Opened(w: World, w': World) {
    var id := w.db.nextEvent;
    && id in w'.db.events && w'.db.events[id].id == id && w'.db.events[id].soldCount == 0
    && w'.db.events[id].ticketPrice > 0.0 && w'.db.events[id].capacity > 0
    && w' == w.(db := w.db.(events := w.db.events[id := w'.db.events[id]], nextEvent := id + 1))
  }

  lemma OpenStep(w: World, a: Action)
    requires a.OpenEvent?
    ensures Step(w, a) == w || Opened(w, Step(w, a))
  {
  }

  lemma OpenEventKeepsBooks(w: World, a: Action)
    requires Books(w) && a.OpenEvent?
    ensures Books(Step(w, a))
  {
    OpenStep(w, a);
    if Step(w, a) != w {
      OpenedKeepsBooks(w, Step(w, a));
    }
  }

  lemma OpenedKeepsBooks(w: World, w': World)
    requires Books(w) && Opened(w, w')
    ensures Books(w')
  {
    SameCounts(w, w');
    assert RunningSound(w') by {
      forall e | e in w'.running ensures Live(w', e, w'.running[e]) {
        assert Live(w, e, w.running[e]);
      }
    }
    assert SoldSound(w') by {
      assert forall id :: id in w.db.tickets ==> w.db.tickets[id].eventId in w.db.events;
      assert SettledRows(w', w.db.nextEvent) == {};
    }
  }

  /** `w'` is `w` after `run` took its purchase row. */
  ghost predicate Starts(w: World, w': World, run: Running) {
    var p, e := run.purchase, run.purchase.eventId;
    && e !in w.running && e in w.db.events
    && p.id == w.db.nextPurchase && p.quantity > 0 && w.db.events[e].soldCount + p.quantity <= w.db.events[e].capacity
    && run == Running(p, w.db.events[e].(soldCount := w.db.events[e].soldCount + p.quantity), [], 0, false)
    && w' == w.(db := w.db.(purchases := w.db.purchases[p.id := p], nextPurchase := p.id + 1),
                running := w.running[e := run])
  }

  lemma StartPurchaseKeepsBooks(w: World, a: Action)
    requires Books(w) && a.StartPurchase?
    ensures Books(Step(w, a))
  {
    var b := Begin(w.db, a.input, a.getUp, a.addUp);
    if a.input.eventId in w.running || b.run.None? {
      assert Step(w, a) == w;
    } else {
      assert w.db.events[a.input.eventId].(id := a.input.eventId) == w.db.events[a.input.eventId];
      StartKeepsBooks(w, Step(w, a), b.run.value);
    }
  }

  /** The new purchase owns no row yet. */
  lemma StartedIsLive(w: World, w': World, run: Running)
    requires Books(w) && Starts(w, w', run)
    ensures Live(w', run.purchase.eventId, run)
  {
    var rows := RowsOfPurchase(w'.db.tickets, run.purchase.id);
    forall id ensures id !in rows {
      if id in w.db.tickets {
        assert w.db.tickets[id].purchaseId in w.db.purchases;
      }
    }
    assert rows == {} == Ids([]);
    assert run.purchase.id !in w.hist.settled;
  }

  /** A purchase on another event goes on. */
  lemma StartLeavesLive(w: World, w': World, run: Running, e: int)
    requires Books(w) && Starts(w, w', run) && e in w.running
    ensures e in w'.running && Live(w', e, w'.running[e])
  {
    assert Live(w, e, w.running[e]);
    assert w'.running[e] == w.running[e] && w.running[e].purchase.id in w.db.purchases;
    assert w'.db.purchases[w.running[e].purchase.id] == w.db.purchases[w.running[e].purchase.id];
  }

  lemma StartKeepsRunning(w: World, w': World, run: Running)
    requires Books(w) && Starts(w, w', run)
    ensures RunningSound(w')
  {
    StartedIsLive(w, w', run);
    forall e | e in w'.running ensures Live(w', e, w'.running[e]) {
      if e in w.running {
        StartLeavesLive(w, w', run, e);
      }
    }
  }

  lemma StartKeepsBooks(w: World, w': World, run: Running)
    requires Books(w) && Starts(w, w', run)
    ensures Books(w')
  {
    SameCounts(w, w');
    StartKeepsRunning(w, w', run);
    assert TicketsSound(w');
  }

  lemma EmitKeepsBooks(w: World, a: Action)
    requires Books(w) && a.EmitTicket?
    ensures Books(Step(w, a))
  {
    var w' := Step(w, a);
    if a.eventId in w.running && CanEmit(w.running[a.eventId]) {
      var run := w.running[a.eventId];
      if !a.up || ByCode(w.db.tickets, a.code).Some? {
        DropKeepsBooks(w, a.eventId, w.bus);
      } else {
        InsertKeepsBooks(w, w', run, TicketOf(w.db, run, a.code));
      }
    }
  }

  lemma IdsAppend(tickets: seq<TicketRow>, t: TicketRow)
    ensures Ids(tickets + [t]) == Ids(tickets) + {t.id}
  {
    forall u ensures u in tickets + [t] <==> u in tickets || u == t {
    }
  }

  /** `w'` is `w` after `run` inserted `t`. */
  ghost predicate Inserts(w: World, w': World, run: Running, t: TicketRow) {
    var e := run.purchase.eventId;
    && e in w.running && w.running[e] == run && CanEmit(run)
    && t == TicketOf(w.db, run, t.code) && ByCode(w.db.tickets, t.code).None? && t.code != ""
    && w' == w.(db := w.db.(tickets := w.db.tickets[t.id := t], nextTicket := t.id + 1),
                running := w.running[e := run.(tickets := run.tickets + [t])])
  }

  lemma InsertIsNew(w: World, w': World, run: Running, t: TicketRow)
    requires Books(w) && Inserts(w, w', run, t)
    ensures t.id !in w.db.tickets && run.purchase.id !in w.hist.settled && t.purchaseId == run.purchase.id
    ensures run.purchase.id in w.db.purchases && w.db.purchases[run.purchase.id].eventId == t.eventId
    ensures forall id :: id in w'.db.tickets <==> id == t.id || id in w.db.tickets
    ensures forall id :: id in w.db.tickets ==> w'.db.tickets[id] == w.db.tickets[id]
    ensures w'.db.tickets[t.id] == t
  {
    assert Live(w, run.purchase.eventId, run);
  }

  lemma InsertCounts(w: World, w': World, run: Running, t: TicketRow)
    requires Books(w) && Inserts(w, w', run, t)
    ensures t.id !in w.db.tickets && run.purchase.id !in w.hist.settled
    ensures forall p :: p != run.purchase.id ==> RowsOfPurchase(w'.db.tickets, p) == RowsOfPurchase(w.db.tickets, p)
    ensures RowsOfPurchase(w'.db.tickets, run.purchase.id) == RowsOfPurchase(w.db.tickets, run.purchase.id) + {t.id}
    ensures forall e :: SettledRows(w', e) == SettledRows(w, e)
  {
    InsertIsNew(w, w', run, t);
    forall p | p != run.purchase.id ensures RowsOfPurchase(w'.db.tickets, p) == RowsOfPurchase(w.db.tickets, p) {
      forall id ensures id in RowsOfPurchase(w'.db.tickets, p) <==> id in RowsOfPurchase(w.db.tickets, p) {
      }
    }
    forall e ensures SettledRows(w', e) == SettledRows(w, e) {
      forall id ensures id in SettledRows(w', e) <==> id in SettledRows(w, e) {
      }
    }
  }

  /** The purchase that inserts owns one row more. */
  lemma InsertedIsLive(w: World, w': World, run: Running, t: TicketRow)
    requires Books(w) && Inserts(w, w', run, t)
    ensures Live(w', run.purchase.eventId, run.(tickets := run.tickets + [t]))
  {
    var run' := run.(tickets := run.tickets + [t]);
    assert Live(w, run.purchase.eventId, run);
    InsertIsNew(w, w', run, t);
    InsertCounts(w, w', run, t);
    IdsAppend(run.tickets, t);
    assert t.id !in Ids(run.tickets);
    forall u | u in run'.tickets ensures u.id in w'.db.tickets && SameTicket(w'.db.tickets[u.id], u) {
      assert u in run.tickets || u == t;
    }
  }

  /** A purchase on another event goes on. */
  lemma InsertLeavesLive(w: World, w': World, run: Running, t: TicketRow, e: int)
    requires Books(w) && Inserts(w, w', run, t) && e in w.running && e != run.purchase.eventId
    ensures e in w'.running && Live(w', e, w'.running[e])
  {
    assert Live(w, e, w.running[e]) && Live(w, run.purchase.eventId, run);
    InsertIsNew(w, w', run, t);
    InsertCounts(w, w', run, t);
    assert w'.running[e] == w.running[e] && w.running[e].purchase.id != run.purchase.id;
  }

  lemma InsertKeepsRunning(w: World, w': World, run: Running, t: TicketRow)
    requires Books(w) && Inserts(w, w', run, t)
    ensures RunningSound(w')
  {
    InsertedIsLive(w, w', run, t);
    forall e | e in w'.running ensures Live(w', e, w'.running[e]) {
      if e != run.purchase.eventId {
        InsertLeavesLive(w, w', run, t, e);
      }
    }
  }

  lemma InsertKeepsTickets(w: World, w': World, run: Running, t: TicketRow)
    requires Books(w) && Inserts(w, w', run, t)
    ensures TicketsSound(w')
  {
    InsertIsNew(w, w', run, t);
    assert ValidTickets(w');
    assert w'.db.purchases == w.db.purchases;
  }

  lemma InsertKeepsBooks(w: World, w': World, run: Running, t: TicketRow)
    requires Books(w) && Inserts(w, w', run, t)
    ensures Books(w')
  {
    InsertCounts(w, w', run, t);
    InsertKeepsRunning(w, w', run, t);
    InsertKeepsTickets(w, w', run, t);
  }

  /** A purchase that stops leaves everything but itself as it was. */
  lemma DropKeepsBooks(w: World, e: int, bus: Bus)
    requires Books(w)
    ensures Books(w.(running := w.running - {e}, bus := bus))
  {
    var w' := w.(running := w.running - {e}, bus := bus);
    SameCounts(w, w');
    forall x | x in w'.running ensures Live(w', x, w'.running[x]) {
      assert Live(w, x, w.running[x]);
    }
  }

  /** `w'` is `w` after the purchase on `e` announced one more ticket. */
  ghost predicate AnnouncesOne(w: World, w': World, e: int) {
    && e in w.running && CanAnnounce(w.running[e])
    && w'.db == w.db && w'.hist.settled == w.hist.settled
    && w'.running == w.running[e := w.running[e].(announced := w.running[e].announced + 1)]
  }

  lemma AnnouncedKeepsBooks(w: World, w': World, e: int)
    requires Books(w) && AnnouncesOne(w, w', e)
    ensures Books(w')
  {
    SameCounts(w, w');
    forall x | x in w'.running ensures Live(w', x, w'.running[x]) {
      assert Live(w, x, w.running[x]);
    }
  }

  lemma AnnounceKeepsBooks(w: World, a: Action)
    requires Books(w) && a.AnnounceTicket?
    ensures Books(Step(w, a))
  {
    if a.eventId in w.running && CanAnnounce(w.running[a.eventId]) {
      if a.up {
        assert AnnouncesOne(w, Step(w, a), a.eventId);
        AnnouncedKeepsBooks(w, Step(w, a), a.eventId);
      } else {
        DropKeepsBooks(w, a.eventId, Step(w, a).bus);
      }
    }
  }

  /** `w'` is `w` after the purchase on event `e` wrote the event back. */
  ghost predicate Settles(w: World, w': World, e: int) {
    && e in w.running && CanSettle(w.running[e])
    && w' == w.(db := w.db.(events := w.db.events[e := w.running[e].event]),
                running := w.running[e := w.running[e].(settled := true)],
                hist := w.hist.(settled := w.hist.settled + {w.running[e].purchase.id}))
  }

  lemma SettleKeepsRunning(w: World, w': World, e: int)
    requires Books(w) && Settles(w, w', e)
    ensures RunningSound(w')
  {
    assert Live(w, e, w.running[e]);
    forall x | x in w'.running ensures Live(w', x, w'.running[x]) {
      assert Live(w, x, w.running[x]);
    }
  }

  lemma SettledKeepsBooks(w: World, w': World, e: int)
    requires Books(w) && Settles(w, w', e)
    ensures Books(w')
  {
    SettledCounts(w, w', e);
    SettleKeepsRunning(w, w', e);
    assert Live(w, e, w.running[e]);
    assert forall p :: RowsOfPurchase(w'.db.tickets, p) == RowsOfPurchase(w.db.tickets, p);
  }

  lemma SettleStep(w: World, a: Action)
    requires a.SettlePurchase? && a.eventId in w.running && CanSettle(w.running[a.eventId])
    requires a.eventId in w.db.events && w.running[a.eventId].event.id == a.eventId
    ensures if a.up then Settles(w, Step(w, a), a.eventId)
            else Step(w, a) == w.(running := w.running - {a.eventId}, bus := w.bus)
  {
  }

  lemma SettleKeepsBooks(w: World, a: Action)
    requires Books(w) && a.SettlePurchase?
    ensures Books(Step(w, a))
  {
    if a.eventId in w.running && CanSettle(w.running[a.eventId]) {
      assert Live(w, a.eventId, w.running[a.eventId]);
      SettleStep(w, a);
      if a.up {
        SettledKeepsBooks(w, Step(w, a), a.eventId);
      } else {
        DropKeepsBooks(w, a.eventId, w.bus);
      }
    }
  }

  /** The rows of the purchase in progress on `e` are rows of `e`, and none is counted yet. */
  lemma RunningRows(w: World, e: int)
    requires Books(w) && e in w.running && !w.running[e].settled
    ensures var rows := RowsOfPurchase(w.db.tickets, w.running[e].purchase.id);
            && (forall id :: id in rows ==> id in w.db.tickets && w.db.tickets[id].eventId == e)
            && (forall x :: rows !! SettledRows(w, x)) && |rows| == |w.running[e].tickets|
  {
    assert Live(w, e, w.running[e]);
  }

  /** Settling moves exactly the purchase's rows to the counted side. */
  lemma SettledCounts(w: World, w': World, e: int)
    requires Books(w) && e in w.running && CanSettle(w.running[e])
    requires w'.db.tickets == w.db.tickets
    requires w'.hist.settled == w.hist.settled + {w.running[e].purchase.id}
    ensures |SettledRows(w', e)| == |SettledRows(w, e)| + w.running[e].purchase.quantity
    ensures forall x :: x != e ==> SettledRows(w', x) == SettledRows(w, x)
  {
    var rows := RowsOfPurchase(w.db.tickets, w.running[e].purchase.id);
    assert Live(w, e, w.running[e]);
    RunningRows(w, e);
    assert SettledRows(w', e) == SettledRows(w, e) + rows by {
      forall id ensures id in SettledRows(w', e) <==> id in SettledRows(w, e) || id in rows {
      }
    }
    forall x | x != e ensures SettledRows(w', x) == SettledRows(w, x) {
      forall id ensures id in SettledRows(w', x) <==> id in SettledRows(w, x) {
        assert id in rows ==> w.db.tickets[id].eventId == e;
      }
    }
  }

  /** Validating, cancelling and reconciling touch no count at all. */
  lemma RequestKeepsBooks(w: World, call: Call)
    requires Books(w)
    ensures Books(Serve(w, call))
    ensures forall e :: SettledRows(Serve(w, call), e) == SettledRows(w, e)
    ensures forall e :: RowsOfEvent(Serve(w, call).db.tickets, e) == RowsOfEvent(w.db.tickets, e)
  {
    RequestKeepsTickets(w, call);
    SameTicketsSameBooks(w, Serve(w, call));
  }

  lemma SameTicketsSameBooks(w: World, w': World)
    requires Books(w) && ValidTickets(w')
    requires w'.db == w.db.(tickets := w'.db.tickets) && w'.running == w.running && SameTickets(w, w')
    ensures Books(w')
    ensures forall e :: SettledRows(w', e) == SettledRows(w, e)
    ensures forall e :: RowsOfEvent(w'.db.tickets, e) == RowsOfEvent(w.db.tickets, e)
  {
    SameCounts(w, w');
    forall x | x in w'.running ensures Live(w', x, w'.running[x]) {
      assert Live(w, x, w.running[x]);
    }
  }

  lemma RequestKeepsTickets(w: World, call: Call)
    requires ValidTickets(w)
    ensures var w' := Serve(w, call);
            && ValidTickets(w')
            && w'.db == w.db.(tickets := w'.db.tickets) && w'.running == w.running && SameTickets(w, w')
  {
    ServeIsLocal(w, call, "");
    var v := View(w, call.Code());
    var r := RespondIsLocal(v.row, v.record, call);
    if Serve(w, call) != w {
      assert Serve(w, call) == ServeWith(w, call, r);
      ServeWithKeepsTickets(w, call, r);
    }
  }

  lemma ServeWithKeepsTickets(w: World, call: Call, r: Response)
    requires ValidTickets(w) && Local(ByCode(w.db.tickets, r.effect.code), r.effect)
    ensures var w' := ServeWith(w, call, r);
            && w'.db == w.db.(tickets := WriteRow(w.db.tickets, r.effect))
            && w'.running == w.running && SameTickets(w, w')
  {
    WriteRowKeepsTickets(w.db.tickets, w.db.nextTicket, r.effect);
    var w' := Apply(w, r.effect);
    assert ServeWith(w, call, r).db == w'.db && ServeWith(w, call, r).running == w'.running;
    assert ServeWith(w, call, r).hist.settled == w'.hist.settled;
  }

  lemma WriteRowKeepsTickets(rows: TicketTable, nextId: int, e: Effect)
    requires ValidTable(rows, nextId) && Updates(ByCode(rows, e.code), e)
    ensures var rows' := WriteRow(rows, e);
            rows'.Keys == rows.Keys && forall id :: id in rows ==> SameTicket(rows'[id], rows[id])
  {
  }

  lemma StepKeepsBooks(w: World, a: Action)
    requires Books(w)
    ensures Books(Step(w, a))
  {
    match a
    case OpenEvent(_, _, _, _, _) => OpenEventKeepsBooks(w, a);
    case StartPurchase(_, _, _) => StartPurchaseKeepsBooks(w, a);
    case EmitTicket(_, _, _) => EmitKeepsBooks(w, a);
    case AnnounceTicket(_, _) => AnnounceKeepsBooks(w, a);
    case SettlePurchase(_, _) => SettleKeepsBooks(w, a);
    case CompletePurchase(e, _) => DropKeepsBooks(w, e, Step(w, a).bus);
    case Request(call) => RequestKeepsBooks(w, call);
  }

  lemma {:induction false} RunKeepsBooks(w: World, trace: seq<Action>)
    requires Books(w)
    ensures Books(Run(w, trace))
    decreases |trace|
  {
    if trace != [] {
      StepKeepsBooks(w, trace[0]);
      RunKeepsBooks(Step(w, trace[0]), trace[1..]);
    }
  }

  /* ----- the events ----- */

  /** The same event, with as many tickets sold or more. */
  predicate SameTerms(e: EventRow, e': EventRow) {
    e' == e.(soldCount := e'.soldCount) && e.soldCount <= e'.soldCount
  }

  lemma SettleEvents(w: World, a: Action)
    requires a.SettlePurchase?
    ensures var events := Step(w, a).db.events;
            || events == w.db.events
            || (a.eventId in w.running && !w.running[a.eventId].settled
                && events == w.db.events[w.running[a.eventId].event.id := w.running[a.eventId].event])
  {
  }

  lemma SettleKeepsTerms(w: World, a: Action, events: map<int, EventRow>, e: int)
    requires Books(w) && e in w.db.events && a.SettlePurchase? && events == Step(w, a).db.events
    ensures e in events && SameTerms(w.db.events[e], events[e])
  {
    SettleEvents(w, a);
    if a.eventId in w.running && !w.running[a.eventId].settled {
      UnsettledEvent(w, a.eventId);
    }
  }

  /** What a purchase in progress will write back. */
  lemma UnsettledEvent(w: World, e: int)
    requires Books(w) && e in w.running && !w.running[e].settled
    ensures e in w.db.events && w.running[e].event.id == e && SameTerms(w.db.events[e], w.running[e].event)
  {
    assert Live(w, e, w.running[e]);
    assert w.db.purchases[w.running[e].purchase.id].quantity > 0;
  }

  lemma OtherStepsKeepEvents(w: World, a: Action, e: int)
    requires e in w.db.events && e < w.db.nextEvent && !a.SettlePurchase? && !a.Request?
    ensures e in Step(w, a).db.events && Step(w, a).db.events[e] == w.db.events[e]
  {
  }

  lemma StepKeepsTerms(w: World, a: Action, e: int)
    requires Books(w) && e in w.db.events
    ensures e in Step(w, a).db.events && SameTerms(w.db.events[e], Step(w, a).db.events[e])
  {
    if a.Request? {
      RequestIsServe(w, a.call);
      RequestKeepsTickets(w, a.call);
    } else if a.SettlePurchase? {
      SettleKeepsTerms(w, a, Step(w, a).db.events, e);
    } else {
      OtherStepsKeepEvents(w, a, e);
    }
  }

  /** Although a purchase writes back the whole event that it read long before, along every run
      nothing about an event changes but the number of tickets sold, which never falls. */
  lemma {:induction false} EventsKeepTheirTerms(w: World, trace: seq<Action>, e: int)
    requires Books(w) && e in w.db.events
    ensures e in Run(w, trace).db.events && SameTerms(w.db.events[e], Run(w, trace).db.events[e])
    decreases |trace|
  {
    if trace != [] {
      StepKeepsTerms(w, trace[0], e);
      StepKeepsBooks(w, trace[0]);
      EventsKeepTheirTerms(Step(w, trace[0]), trace[1..], e);
    }
  }

  /* ----- conservation ----- */

  /** The rows of `e` left behind by purchases that stopped before they wrote the event back. */
  ghost function StrandedRows(w: World, e: int): set<int> {
    set id | id in w.db.tickets && w.db.tickets[id].eventId == e && w.db.tickets[id].purchaseId !in w.hist.settled
             && !(e in w.running && w.running[e].purchase.id == w.db.tickets[id].purchaseId)
  }

  function RowsInProgress(w: World, e: int): nat {
    if e in w.running && !w.running[e].settled then |w.running[e].tickets| else 0
  }

  lemma CountDisjoint(a: set<int>, b: set<int>, c: set<int>)
    requires a !! b && (a + b) !! c
    ensures |a + b + c| == |a| + |b| + |c|
  {
    assert |a + b| == |a| + |b|;
  }

  /** The rows of the purchase in progress on `e`, until it writes the event back. */
  ghost function OpenRows(w: World, e: int): set<int> {
    if e in w.running && !w.running[e].settled then RowsOfPurchase(w.db.tickets, w.running[e].purchase.id) else {}
  }

  lemma OpenRowsCount(w: World, e: int)
    requires Books(w) && e in w.db.events
    ensures |OpenRows(w, e)| == RowsInProgress(w, e)
    ensures OpenRows(w, e) <= RowsOfEvent(w.db.tickets, e) && OpenRows(w, e) !! SettledRows(w, e)
  {
    if e in w.running {
      assert Live(w, e, w.running[e]);
    }
  }

  /** An unsettled row is stranded or belongs to the purchase in progress, which has not settled. */
  lemma UnsettledRow(w: World, e: int, id: int)
    requires Books(w) && id in w.db.tickets && w.db.tickets[id].eventId == e
    requires w.db.tickets[id].purchaseId !in w.hist.settled
    ensures id in StrandedRows(w, e) <==> id !in OpenRows(w, e)
  {
    if e in w.running {
      assert Live(w, e, w.running[e]);
    }
  }

  lemma CountParts(all: set<int>, a: set<int>, b: set<int>, c: set<int>)
    requires a <= all && b <= all && c <= all && a !! b && a !! c
    requires forall id :: id in all && id !in a ==> (id in b <==> id !in c)
    ensures |all| == |a| + |b| + |c|
  {
    assert b !! c by {
      forall id | id in b ensures id !in c {
        assert id in all && id !in a;
      }
    }
    assert all == a + b + c by {
      forall id ensures id in all <==> id in a + b + c {
      }
    }
    CountDisjoint(a, b, c);
  }

  lemma BooksBalance(w: World, e: int)
    requires Books(w) && e in w.db.events
    ensures |RowsOfEvent(w.db.tickets, e)| == |SettledRows(w, e)| + |StrandedRows(w, e)| + RowsInProgress(w, e)
  {
    OpenRowsCount(w, e);
    forall id | id in RowsOfEvent(w.db.tickets, e) && id !in SettledRows(w, e)
      ensures id in StrandedRows(w, e) <==> id !in OpenRows(w, e)
    {
      UnsettledRow(w, e, id);
    }
    assert SettledRows(w, e) !! OpenRows(w, e);
    CountParts(RowsOfEvent(w.db.tickets, e), SettledRows(w, e), StrandedRows(w, e), OpenRows(w, e));
  }

  /** In every run the event never oversells, and its rows are the sold ones,
      the stranded ones and those of the purchase in progress. */
  lemma Conservation(trace: seq<Action>, e: int)
    ensures var w := Run(EMPTY, trace);
            e in w.db.events ==>
              && 0 <= w.db.events[e].soldCount <= w.db.events[e].capacity
              && |RowsOfEvent(w.db.tickets, e)| ==
                 w.db.events[e].soldCount + |StrandedRows(w, e)| + RowsInProgress(w, e)
  {
    RunKeepsBooks(EMPTY, trace);
    var w := Run(EMPTY, trace);
    if e in w.db.events {
      BooksBalance(w, e);
    }
  }

  /** A settled purchase owns as many rows as it bought tickets. */
  lemma SettledPurchaseIsWhole(trace: seq<Action>, p: int)
    ensures var w := Run(EMPTY, trace);
            p in w.hist.settled ==>
              p in w.db.purchases && |RowsOfPurchase(w.db.tickets, p)| == w.db.purchases[p].quantity
  {
    RunKeepsBooks(EMPTY, trace);
  }
}
