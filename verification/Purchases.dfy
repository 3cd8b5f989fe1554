/** One whole call of Purchase, under every combination of failures, and
    sequences of calls on one event when nothing fails. */
module Purchases {
  import opened Wrappers
  import opened Messages
  import opened TicketDomain
  import opened TicketStore
  import opened PurchaseSteps
  import opened Protocol
  import opened Accounting
  import opened Safety

  /* ----- what the loop leaves behind ----- */

  /** The tickets of purchase `p` after `k` rounds: consecutive ids, the drawn codes. */
  function FreshTickets(db: Db, p: PurchaseRow, io: PurchaseIO, k: nat): (rows: seq<TicketRow>)
    ensures |rows| == k
    ensures forall i :: 0 <= i < k ==> rows[i] == TicketRow(db.nextTicket + i, io.code(i), p.eventId, p.id, Emitted, None)
  {
    seq(k, i requires 0 <= i < k => TicketRow(db.nextTicket + i, io.code(i), p.eventId, p.id, Emitted, None))
  }

  function Inserted(tickets: TicketTable, rows: seq<TicketRow>): TicketTable
    decreases |rows|
  {
    if rows == [] then tickets
    else
      var t := rows[|rows| - 1];
      Inserted(tickets, rows[..|rows| - 1])[t.id := t]
  }

  function CreatedMessages(rows: seq<TicketRow>): (ms: seq<Message>)
    ensures |ms| == |rows|
    ensures forall i :: 0 <= i < |rows| ==> ms[i] == TicketCreated(rows[i].id, rows[i].code, rows[i].eventId)
  {
    seq(|rows|, i requires 0 <= i < |rows| => CreatedOf(rows[i]))
  }

  /** `db0` and `bus0` after `k` rows were inserted and `n` of them announced. */
  function AfterRounds(db0: Db, p: PurchaseRow, io: PurchaseIO, k: nat): Db {
    db0.(tickets := Inserted(db0.tickets, FreshTickets(db0, p, io, k)), nextTicket := db0.nextTicket + k)
  }

  function Announced(db0: Db, bus0: Bus, p: PurchaseRow, io: PurchaseIO, n: nat): Bus {
    bus0.(queued := bus0.queued + multiset(CreatedMessages(FreshTickets(db0, p, io, n))))
  }

  /** The i-th ticket can be stored: the database is up, and the code is neither stored nor drawn before. */
  ghost predicate Stores(tickets: TicketTable, io: PurchaseIO, i: nat) {
    io.addTicket(i) && ByCode(tickets, io.code(i)).None? && forall j: nat :: j < i ==> io.code(j) != io.code(i)
  }

  /** The first `k` tickets can be stored and announced. */
  ghost predicate RoundsWork(tickets: TicketTable, io: PurchaseIO, k: nat) {
    forall i: nat :: i < k ==> Stores(tickets, io, i) && io.publishCreated(i)
  }

  /** The loop is between two rounds, `k` of them done. */
  ghost predicate Between(db0: Db, bus0: Bus, db: Db, bus: Bus, run: Running, io: PurchaseIO, k: nat) {
    && run.tickets == FreshTickets(db0, run.purchase, io, k) && run.announced == k <= run.purchase.quantity
    && !run.settled
    && db == AfterRounds(db0, run.purchase, io, k)
    && bus == Announced(db0, bus0, run.purchase, io, k)
    && ValidTable(db.tickets, db.nextTicket)
    && RoundsWork(db0.tickets, io, k)
  }

  lemma OneMoreTicket(db0: Db, p: PurchaseRow, io: PurchaseIO, k: nat)
    ensures var t := TicketRow(db0.nextTicket + k, io.code(k), p.eventId, p.id, Emitted, None);
            && FreshTickets(db0, p, io, k + 1) == FreshTickets(db0, p, io, k) + [t]
            && Inserted(db0.tickets, FreshTickets(db0, p, io, k + 1)) ==
               Inserted(db0.tickets, FreshTickets(db0, p, io, k))[t.id := t]
            && multiset(CreatedMessages(FreshTickets(db0, p, io, k + 1))) ==
               multiset(CreatedMessages(FreshTickets(db0, p, io, k))) + multiset{CreatedOf(t)}
  {
    var rows, rows' := FreshTickets(db0, p, io, k), FreshTickets(db0, p, io, k + 1);
    var t := rows'[k];
    assert rows' == rows + [t];
    assert rows'[..k] == rows;
    assert CreatedMessages(rows') == CreatedMessages(rows) + [CreatedOf(t)];
  }

  /** The created message of the i-th ticket was lost. */
  ghost predicate LostAt(db0: Db, bus0: Bus, bus: Bus, p: PurchaseRow, io: PurchaseIO, i: nat) {
    bus == Announced(db0, bus0, p, io, i).(
      lost := bus0.lost + multiset{TicketCreated(db0.nextTicket + i, io.code(i), p.eventId)})
  }

  /** How the loop ends: all rounds done; or the next ticket could not be stored; or the
      last one was stored and its message lost. */
  ghost predicate LoopEnds(db0: Db, bus0: Bus, run0: Running, io: PurchaseIO, m: Moved, k: nat) {
    var p := run0.purchase;
    && k <= p.quantity
    && m.db == AfterRounds(db0, p, io, k) && ValidTable(m.db.tickets, m.db.nextTicket)
    && if m.next.Some? then
         && k == p.quantity && m.bus == Announced(db0, bus0, p, io, k) && RoundsWork(db0.tickets, io, k)
         && m.next.value == run0.(tickets := FreshTickets(db0, p, io, k), announced := k)
       else Breaks(db0, bus0, m.bus, p, io, k)
  }

  /** The loop stops early with `k` tickets stored. */
  ghost predicate Breaks(db0: Db, bus0: Bus, bus: Bus, p: PurchaseRow, io: PurchaseIO, k: nat) {
    || (&& k < p.quantity && RoundsWork(db0.tickets, io, k) && !Stores(db0.tickets, io, k)
        && bus == Announced(db0, bus0, p, io, k))
    || (&& k > 0 && RoundsWork(db0.tickets, io, k - 1) && Stores(db0.tickets, io, k - 1) && !io.publishCreated(k - 1)
        && LostAt(db0, bus0, bus, p, io, k - 1))
  }

  lemma {:induction false} InsertedElsewhere(db: Db, p: PurchaseRow, io: PurchaseIO, k: nat, id: int)
    requires id < db.nextTicket || db.nextTicket + k <= id
    ensures var table := Inserted(db.tickets, FreshTickets(db, p, io, k));
            (id in table <==> id in db.tickets) && (id in db.tickets ==> table[id] == db.tickets[id])
  {
    if k > 0 {
      InsertedElsewhere(db, p, io, k - 1, id);
      OneMoreTicket(db, p, io, k - 1);
    }
  }

  lemma {:induction false} InsertedThere(db: Db, p: PurchaseRow, io: PurchaseIO, k: nat, i: nat)
    requires i < k
    ensures var t, table := FreshTickets(db, p, io, k)[i], Inserted(db.tickets, FreshTickets(db, p, io, k));
            t.id in table && table[t.id] == t
  {
    OneMoreTicket(db, p, io, k - 1);
    if i < k - 1 {
      InsertedThere(db, p, io, k - 1, i);
    }
  }

  lemma InsertedShape(db: Db, p: PurchaseRow, io: PurchaseIO, k: nat)
    ensures var rows, table := FreshTickets(db, p, io, k), Inserted(db.tickets, FreshTickets(db, p, io, k));
            && (forall i :: 0 <= i < k ==> rows[i].id in table && table[rows[i].id] == rows[i])
            && (forall id :: id < db.nextTicket || db.nextTicket + k <= id ==>
                  (id in table <==> id in db.tickets) && (id in db.tickets ==> table[id] == db.tickets[id]))
  {
    var rows, table := FreshTickets(db, p, io, k), Inserted(db.tickets, FreshTickets(db, p, io, k));
    forall i | 0 <= i < k ensures rows[i].id in table && table[rows[i].id] == rows[i] {
      InsertedThere(db, p, io, k, i);
    }
    forall id | id < db.nextTicket || db.nextTicket + k <= id
      ensures (id in table <==> id in db.tickets) && (id in db.tickets ==> table[id] == db.tickets[id])
    {
      InsertedElsewhere(db, p, io, k, id);
    }
  }

  /** A code is new to the tickets stored so far if and only if it was new before and not drawn since. */
  lemma NewCodeInserted(db: Db, p: PurchaseRow, io: PurchaseIO, k: nat)
    requires ValidTable(db.tickets, db.nextTicket)
    ensures ByCode(Inserted(db.tickets, FreshTickets(db, p, io, k)), io.code(k)).None? <==>
            ByCode(db.tickets, io.code(k)).None? && forall j: nat :: j < k ==> io.code(j) != io.code(k)
  {
    InsertedShape(db, p, io, k);
    var rows, table := FreshTickets(db, p, io, k), Inserted(db.tickets, FreshTickets(db, p, io, k));
    forall j: nat | j < k ensures rows[j].id in table && table[rows[j].id].code == io.code(j) {
    }
    forall id | id in db.tickets ensures id in table && table[id] == db.tickets[id] {
    }
    forall id | id in table
      ensures id in db.tickets || exists j: nat :: j < k && table[id].code == io.code(j)
    {
      if db.nextTicket <= id < db.nextTicket + k {
        assert table[rows[id - db.nextTicket].id] == rows[id - db.nextTicket];
        assert table[id].code == io.code(id - db.nextTicket);
      }
    }
  }

  /** A ticket that can be stored keeps the table valid. */
  lemma StoredIsValid(db: Db, t: TicketRow)
    requires ValidTable(db.tickets, db.nextTicket) && t.id == db.nextTicket && ByCode(db.tickets, t.code).None?
    ensures ValidTable(db.tickets[t.id := t], db.nextTicket + 1)
  {
  }

  /** Storing the next ticket. */
  lemma EmitShape(db0: Db, bus0: Bus, db: Db, bus: Bus, run: Running, io: PurchaseIO, k: nat)
    requires ValidTable(db0.tickets, db0.nextTicket)
    requires Between(db0, bus0, db, bus, run, io, k) && k < run.purchase.quantity
    ensures var e := Emit(db, bus, run, io.code(k), io.addTicket(k));
            && (e.next.Some? <==> Stores(db0.tickets, io, k))
            && if e.next.None? then e.db == db && e.bus == bus
               else
                 && e.db == AfterRounds(db0, run.purchase, io, k + 1) && e.bus == bus
                 && ValidTable(e.db.tickets, e.db.nextTicket)
                 && e.next.value == run.(tickets := FreshTickets(db0, run.purchase, io, k + 1))
  {
    OneMoreTicket(db0, run.purchase, io, k);
    NewCodeInserted(db0, run.purchase, io, k);
    assert ByCode(db.tickets, io.code(k)).None? && io.addTicket(k) <==> Stores(db0.tickets, io, k);
    var e := Emit(db, bus, run, io.code(k), io.addTicket(k));
    if e.next.Some? {
      StoredIsValid(db, TicketOf(db, run, io.code(k)));
    }
  }

  /** Announcing it. */
  lemma AnnounceShape(db0: Db, bus0: Bus, p: PurchaseRow, io: PurchaseIO, k: nat)
    ensures Sent(Announced(db0, bus0, p, io, k), CreatedOf(FreshTickets(db0, p, io, k + 1)[k]), true) ==
            Announced(db0, bus0, p, io, k + 1)
  {
    OneMoreTicket(db0, p, io, k);
  }

  /** Announcing the ticket just stored ends the round, or the loop. */
  lemma AnnounceEnds(db0: Db, bus0: Bus, run0: Running, e: Moved, io: PurchaseIO, k: nat)
    requires k < run0.purchase.quantity && !run0.settled
    requires RoundsWork(db0.tickets, io, k) && Stores(db0.tickets, io, k)
    requires e.db == AfterRounds(db0, run0.purchase, io, k + 1) && ValidTable(e.db.tickets, e.db.nextTicket)
    requires e.bus == Announced(db0, bus0, run0.purchase, io, k)
    requires e.next == Some(run0.(tickets := FreshTickets(db0, run0.purchase, io, k + 1), announced := k))
    ensures var a := Announce(e.db, e.bus, e.next.value, io.publishCreated(k));
            if a.next.None? then LoopEnds(db0, bus0, run0, io, a, k + 1)
            else Between(db0, bus0, a.db, a.bus, a.next.value, io, k + 1)
                 && a.next.value == run0.(tickets := a.next.value.tickets, announced := k + 1)
  {
    AnnounceShape(db0, bus0, run0.purchase, io, k);
    if !io.publishCreated(k) {
      var a := Announce(e.db, e.bus, e.next.value, io.publishCreated(k));
      assert LostAt(db0, bus0, a.bus, run0.purchase, io, k);
      assert Breaks(db0, bus0, a.bus, run0.purchase, io, k + 1);
    }
  }

  /** A full round leads to the next one, or to the loop's end. */
  lemma RoundShape(db0: Db, bus0: Bus, run0: Running, db: Db, bus: Bus, run: Running, io: PurchaseIO, k: nat)
    requires ValidTable(db0.tickets, db0.nextTicket)
    requires Between(db0, bus0, db, bus, run, io, k) && k < run.purchase.quantity
    requires run == run0.(tickets := run.tickets, announced := run.announced)
    ensures var e := Emit(db, bus, run, io.code(k), io.addTicket(k));
            if e.next.None? then LoopEnds(db0, bus0, run0, io, e, k)
            else
              var a := Announce(e.db, e.bus, e.next.value, io.publishCreated(k));
              if a.next.None? then LoopEnds(db0, bus0, run0, io, a, k + 1)
              else Between(db0, bus0, a.db, a.bus, a.next.value, io, k + 1)
                   && a.next.value == run0.(tickets := a.next.value.tickets, announced := k + 1)
  {
    EmitShape(db0, bus0, db, bus, run, io, k);
    var e := Emit(db, bus, run, io.code(k), io.addTicket(k));
    if e.next.Some? {
      AnnounceEnds(db0, bus0, run0, e, io, k);
    }
  }

  lemma {:induction false} LoopShape(db0: Db, bus0: Bus, run0: Running, db: Db, bus: Bus, run: Running, io: PurchaseIO, k: nat)
    returns (last: nat)
    requires ValidTable(db0.tickets, db0.nextTicket)
    requires Between(db0, bus0, db, bus, run, io, k)
    requires run == run0.(tickets := run.tickets, announced := run.announced)
    ensures k <= last && LoopEnds(db0, bus0, run0, io, EmitAll(db, bus, run, io), last)
    decreases run.purchase.quantity - k
  {
    last := k;
    if k < run.purchase.quantity {
      RoundShape(db0, bus0, run0, db, bus, run, io, k);
      var e := Emit(db, bus, run, io.code(k), io.addTicket(k));
      if e.next.Some? {
        last := k + 1;
        var a := Announce(e.db, e.bus, e.next.value, io.publishCreated(k));
        if a.next.Some? {
          assert EmitAll(db, bus, run, io) == EmitAll(a.db, a.bus, a.next.value, io);
          last := LoopShape(db0, bus0, run0, a.db, a.bus, a.next.value, io, k + 1);
        }
      }
    }
  }

  /* ----- the call ----- */

  /** The purchase can begin. */
  ghost predicate Begins(db: Db, input: PurchaseInput, io: PurchaseIO) {
    && io.getEvent && input.eventId in db.events
    && Available(db.events[input.eventId], input.quantity)
    && input.buyerEmail != "" && input.eventId > 0 && db.events[input.eventId].ticketPrice * input.quantity as real >= 0.0
    && io.addPurchase
  }

  predicate Available(e: EventRow, quantity: int) {
    0 < quantity <= e.capacity - e.soldCount
  }

  /** The row of the purchase. */
  function RowOf(db: Db, input: PurchaseInput): PurchaseRow
    requires input.eventId in db.events
  {
    PurchaseRow(db.nextPurchase, input.buyerEmail, input.eventId, input.quantity,
                db.events[input.eventId].ticketPrice * input.quantity as real)
  }

  /** The database with that row. */
  function WithRow(db: Db, input: PurchaseInput): Db
    requires input.eventId in db.events
  {
    db.(purchases := db.purchases[db.nextPurchase := RowOf(db, input)], nextPurchase := db.nextPurchase + 1)
  }

  /** The event as the purchase writes it back. */
  function SoldEvent(db: Db, input: PurchaseInput): EventRow
    requires input.eventId in db.events
  {
    db.events[input.eventId].(id := input.eventId, soldCount := db.events[input.eventId].soldCount + input.quantity)
  }

  lemma BeginShape(db: Db, input: PurchaseInput, io: PurchaseIO)
    ensures var b := Begin(db, input, io.getEvent, io.addPurchase);
            && (b.outcome == NotFound <==> io.getEvent && input.eventId !in db.events)
            && (b.outcome == BusinessRule <==>
                  io.getEvent && input.eventId in db.events && !Available(db.events[input.eventId], input.quantity))
            && (b.outcome == Ok <==> b.run.Some?) && (b.run.Some? <==> Begins(db, input, io))
            && if b.run.None? then b.db == db
               else b.db == WithRow(db, input)
                    && b.run.value == Running(RowOf(db, input), SoldEvent(db, input), [], 0, false)
  {
    if io.getEvent && input.eventId in db.events {
      var event := db.events[input.eventId].(id := input.eventId);
      assert event.ticketPrice * input.quantity as real == db.events[input.eventId].ticketPrice * input.quantity as real;
      assert Reserve(event, input.quantity).Some? <==> Available(db.events[input.eventId], input.quantity);
      var b := Begin(db, input, io.getEvent, io.addPurchase);
      if b.run.Some? {
        assert b.run.value.purchase == RowOf(db, input);
        assert b.db.purchases == WithRow(db, input).purchases;
      }
    }
  }

  /** The database after a purchase that stored `k` tickets, its event written back or not. */
  function Bought(db: Db, input: PurchaseInput, io: PurchaseIO, k: nat, settled: bool): Db
    requires input.eventId in db.events
  {
    var db' := AfterRounds(WithRow(db, input), RowOf(db, input), io, k);
    if settled then db'.(events := db.events[input.eventId := SoldEvent(db, input)]) else db'
  }

  /** All messages of a purchase of all its tickets, with the completion if it was published. */
  ghost predicate Completed(db: Db, bus0: Bus, bus: Bus, input: PurchaseInput, io: PurchaseIO)
    requires input.eventId in db.events && input.quantity >= 0
  {
    var rows := FreshTickets(db, RowOf(db, input), io, input.quantity);
    var m := PurchaseCompleted(db.nextPurchase, input.buyerEmail, db.events[input.eventId].name, Codes(rows));
    && bus.queued == bus0.queued + multiset(CreatedMessages(rows)) && bus.lost == bus0.lost
    && bus.completed == if io.publishCompleted then bus0.completed + multiset{m} else bus0.completed
  }

  /** What a purchase that began leaves behind when `k` tickets are stored. */
  ghost predicate Ends(db: Db, bus: Bus, input: PurchaseInput, io: PurchaseIO, p: Purchased, k: nat)
    requires input.eventId in db.events
  {
    var row := RowOf(db, input);
    var all := RoundsWork(db.tickets, io, k) && k == input.quantity;
    && k <= input.quantity && ValidTable(p.db.tickets, p.db.nextTicket)
    && if all && io.updateEvent then
         && p.db == Bought(db, input, io, k, true) && Completed(db, bus, p.bus, input, io)
         && p.outcome == (if io.publishCompleted then Ok else Internal)
         && (p.outcome == Ok ==>
               p.receipt == Some(Running(row, SoldEvent(db, input), FreshTickets(db, row, io, k), k, true)))
       else
         && p.db == Bought(db, input, io, k, false) && p.outcome == Internal
         && if all then p.bus == Announced(db, bus, row, io, k) else Breaks(db, bus, p.bus, row, io, k)
  }

  /** Every outcome of the call. It changes nothing; or it has taken a purchase row and stored `k`
      tickets, up to the first that cannot be stored or announced; the event is written back
      only after all of them were, and success means that everything was done. */
  lemma PurchaseUnderFaults(db: Db, bus: Bus, input: PurchaseInput, io: PurchaseIO) returns (k: nat)
    requires ValidTable(db.tickets, db.nextTicket)
    ensures var p := PurchaseCall(db, bus, input, io);
            && (p.outcome == Ok <==> p.receipt.Some?)
            && (p.outcome == NotFound <==> io.getEvent && input.eventId !in db.events)
            && (p.outcome == BusinessRule <==>
                  io.getEvent && input.eventId in db.events && !Available(db.events[input.eventId], input.quantity))
            && if !Begins(db, input, io) then p.db == db && p.bus == bus && p.outcome != Ok
               else Ends(db, bus, input, io, p, k)
  {
    k := 0;
    var b := Begin(db, input, io.getEvent, io.addPurchase);
    BeginShape(db, input, io);
    if b.run.Some? {
      var run := b.run.value;
      assert FreshTickets(b.db, run.purchase, io, 0) == [];
      assert CreatedMessages([]) == [];
      assert Between(b.db, bus, b.db, bus, run, io, 0);
      k := LoopShape(b.db, bus, run, b.db, bus, run, io, 0);
      FinishShape(db, bus, input, EmitAll(b.db, bus, run, io), io, k);
    }
  }

  lemma FinishShape(db: Db, bus: Bus, input: PurchaseInput, m: Moved, io: PurchaseIO, k: nat)
    requires input.eventId in db.events
    requires LoopEnds(WithRow(db, input), bus, Running(RowOf(db, input), SoldEvent(db, input), [], 0, false), io, m, k)
    ensures (Finish(m, io).outcome == Ok <==> Finish(m, io).receipt.Some?) && Finish(m, io).outcome in {Ok, Internal}
    ensures Ends(db, bus, input, io, Finish(m, io), k)
  {
    assert FreshTickets(WithRow(db, input), RowOf(db, input), io, k) == FreshTickets(db, RowOf(db, input), io, k);
  }

  /** A purchase succeeds if and only if nothing fails, the event has tickets left, and all codes drawn are new. */
  lemma PurchaseSucceedsIff(db: Db, bus: Bus, input: PurchaseInput, io: PurchaseIO)
    requires ValidTable(db.tickets, db.nextTicket)
    ensures PurchaseCall(db, bus, input, io).outcome == Ok <==>
            && Begins(db, input, io) && io.updateEvent && io.publishCompleted
            && forall i: nat :: i < input.quantity ==> Stores(db.tickets, io, i) && io.publishCreated(i)
  {
    var k := PurchaseUnderFaults(db, bus, input, io);
  }

  /** `table` is `tickets` plus `rows`, whose ids run from `first` and whose codes are new and distinct. */
  ghost predicate Grows(tickets: TicketTable, table: TicketTable, first: int, rows: seq<TicketRow>) {
    && (forall id :: id in table <==> id in tickets || first <= id < first + |rows|)
    && (forall id :: id in tickets ==> id in table && table[id] == tickets[id])
    && (forall i :: 0 <= i < |rows| ==>
          && rows[i].id == first + i && rows[i].id in table && table[rows[i].id] == rows[i]
          && ByCode(tickets, rows[i].code).None?)
    && (forall i, j :: 0 <= i < j < |rows| ==> rows[i].code != rows[j].code)
  }

  lemma InsertedGrows(db: Db, p: PurchaseRow, io: PurchaseIO, k: nat)
    requires ValidTable(db.tickets, db.nextTicket)
    requires ValidTable(Inserted(db.tickets, FreshTickets(db, p, io, k)), db.nextTicket + k)
    ensures Grows(db.tickets, Inserted(db.tickets, FreshTickets(db, p, io, k)), db.nextTicket, FreshTickets(db, p, io, k))
  {
    var rows, table := FreshTickets(db, p, io, k), Inserted(db.tickets, FreshTickets(db, p, io, k));
    InsertedShape(db, p, io, k);
    forall id ensures id in table <==> id in db.tickets || db.nextTicket <= id < db.nextTicket + k {
      if db.nextTicket <= id < db.nextTicket + k {
        assert rows[id - db.nextTicket].id in table;
      }
    }
    forall i | 0 <= i < k ensures ByCode(db.tickets, rows[i].code).None? {
      assert table[rows[i].id] == rows[i];
      assert forall id :: id in db.tickets ==> table[id] == db.tickets[id] && id != rows[i].id;
    }
    forall i, j | 0 <= i < j < k ensures rows[i].code != rows[j].code {
      assert table[rows[i].id] == rows[i] && table[rows[j].id] == rows[j];
    }
  }

  lemma BoughtGrows(db: Db, input: PurchaseInput, io: PurchaseIO, k: nat)
    requires input.eventId in db.events && ValidTable(db.tickets, db.nextTicket)
    requires ValidTable(Bought(db, input, io, k, true).tickets, Bought(db, input, io, k, true).nextTicket)
    ensures Grows(db.tickets, Bought(db, input, io, k, true).tickets, db.nextTicket, FreshTickets(db, RowOf(db, input), io, k))
  {
    assert FreshTickets(WithRow(db, input), RowOf(db, input), io, k) == FreshTickets(db, RowOf(db, input), io, k);
    InsertedGrows(WithRow(db, input), RowOf(db, input), io, k);
  }

  /** What a success did, field by field. */
  ghost predicate Delivered(db: Db, bus: Bus, input: PurchaseInput, io: PurchaseIO, p: Purchased) {
    && p.receipt.Some? && input.eventId in db.events
    && var r := p.receipt.value;
       var rows, e := r.tickets, db.events[input.eventId];
       && |rows| == input.quantity > 0
       && r.purchase == PurchaseRow(db.nextPurchase, input.buyerEmail, input.eventId, input.quantity,
                                    e.ticketPrice * input.quantity as real)
       && p.db.purchases == db.purchases[r.purchase.id := r.purchase]
       && (forall i :: 0 <= i < |rows| ==>
             rows[i] == TicketRow(db.nextTicket + i, io.code(i), input.eventId, r.purchase.id, Emitted, None))
       && Grows(db.tickets, p.db.tickets, db.nextTicket, rows)
       && p.db.events == db.events[input.eventId := e.(id := input.eventId, soldCount := e.soldCount + input.quantity)]
       && p.bus.queued == bus.queued + multiset(CreatedMessages(rows)) && p.bus.lost == bus.lost
       && p.bus.completed ==
          bus.completed + multiset{PurchaseCompleted(r.purchase.id, input.buyerEmail, e.name, Codes(rows))}
  }

  lemma SuccessDelivers(db: Db, bus: Bus, input: PurchaseInput, io: PurchaseIO, p: Purchased, k: nat)
    requires Begins(db, input, io) && ValidTable(db.tickets, db.nextTicket)
    requires Ends(db, bus, input, io, p, k) && p.outcome == Ok
    ensures Delivered(db, bus, input, io, p)
  {
    BoughtGrows(db, input, io, k);
  }

  /** A successful purchase of q tickets adds exactly q emitted rows, with new and
      distinct ids and codes, tied to the new purchase and its event; and the
      tickets stored, returned, announced and listed in the completion message are the same. */
  lemma SuccessfulPurchase(db: Db, bus: Bus, input: PurchaseInput, io: PurchaseIO)
    requires ValidTable(db.tickets, db.nextTicket) && PurchaseCall(db, bus, input, io).outcome == Ok
    ensures Delivered(db, bus, input, io, PurchaseCall(db, bus, input, io))
  {
    var k := PurchaseUnderFaults(db, bus, input, io);
    SuccessDelivers(db, bus, input, io, PurchaseCall(db, bus, input, io), k);
  }

  /* ----- the call is a run of the protocol's purchase steps ----- */

  /** `w'` differs from `w` in database, messages, the purchase on `e` and history only. */
  ghost predicate Reaches(w: World, w': World, e: int, m: Moved) {
    && w'.db == m.db && w'.bus == m.bus && w'.cache == w.cache
    && w'.running == if m.next.Some? then w.running[e := m.next.value] else w.running - {e}
  }

  ghost function Announcing(w: World, a: Action): seq<Message> {
    if Announces(w, a) && a.up then [CreatedOf(NextAnnounced(w, a))] else []
  }

  /** The created messages that a run publishes, in the order in which it publishes them. */
  ghost function Announcements(w: World, trace: seq<Action>): seq<Message> {
    Log(Step, Announcing, w, trace)
  }

  lemma RunTwo(w: World, a: Action, b: Action, rest: seq<Action>)
    ensures Run(w, [a]) == Step(w, a) && Announcements(w, [a]) == Announcing(w, a)
    ensures Run(w, [a, b] + rest) == Run(Step(Step(w, a), b), rest)
    ensures Announcements(w, [a, b] + rest) ==
            Announcing(w, a) + Announcing(Step(w, a), b) + Announcements(Step(Step(w, a), b), rest)
  {
    var w1 := Step(w, a);
    FoldOne(Step, w, a);
    FoldOne(Step, w1, b);
    FoldConcat(Step, w, [a], [b]);
    FoldConcat(Step, w, [a, b], rest);
    LogOne(Step, Announcing, w, a);
    LogOne(Step, Announcing, w1, b);
    LogConcat(Step, Announcing, w, [a], [b]);
    LogConcat(Step, Announcing, w, [a, b], rest);
    assert [a] + [b] == [a, b];
  }

  /** A round of the loop, as two steps. */
  lemma RoundIsSteps(w: World, e: int, io: PurchaseIO)
    requires e in w.running && CanEmit(w.running[e])
    ensures var i := |w.running[e].tickets|;
            var emit, announce := EmitTicket(e, io.code(i), io.addTicket(i)), AnnounceTicket(e, io.publishCreated(i));
            var m := Emit(w.db, w.bus, w.running[e], io.code(i), io.addTicket(i));
            var w1 := Step(w, emit);
            && Reaches(w, w1, e, m) && Announcing(w, emit) == []
            && (m.next.Some? ==>
                  && Reaches(w, Step(w1, announce), e, Announce(m.db, m.bus, m.next.value, io.publishCreated(i)))
                  && Announcing(w1, announce) == if io.publishCreated(i) then [CreatedOf(m.next.value.tickets[i])] else [])
  {
  }

  /** The same, as runs: `first` up to the insert, `both` up to the announcement. */
  lemma RoundIsRun(w: World, e: int, io: PurchaseIO) returns (first: seq<Action>, both: seq<Action>)
    requires e in w.running && CanEmit(w.running[e])
    ensures var i := |w.running[e].tickets|;
            var m := Emit(w.db, w.bus, w.running[e], io.code(i), io.addTicket(i));
            && Reaches(w, Run(w, first), e, m)
            && (m.next.Some? ==>
                  && Reaches(w, Run(w, both), e, Announce(m.db, m.bus, m.next.value, io.publishCreated(i)))
                  && Announcements(w, both) == if io.publishCreated(i) then [CreatedOf(m.next.value.tickets[i])] else [])
  {
    var i := |w.running[e].tickets|;
    var emit, announce := EmitTicket(e, io.code(i), io.addTicket(i)), AnnounceTicket(e, io.publishCreated(i));
    RoundIsSteps(w, e, io);
    RunTwo(w, emit, announce, []);
    first, both := [emit], [emit, announce] + [];
    assert Announcements(Step(Step(w, emit), announce), []) == [];
  }

  /** The loop, unfolded once. */
  lemma EmitAllUnfolds(db: Db, bus: Bus, run: Running, io: PurchaseIO)
    requires run.announced == |run.tickets|
    ensures var i, all := |run.tickets|, EmitAll(db, bus, run, io);
            if i >= run.purchase.quantity then all == Moved(db, bus, Some(run))
            else
              var m := Emit(db, bus, run, io.code(i), io.addTicket(i));
              if m.next.None? then all == m
              else
                var a := Announce(m.db, m.bus, m.next.value, io.publishCreated(i));
                && |m.next.value.tickets| == i + 1 && run.tickets <= m.next.value.tickets
                && if a.next.None? then all == a
                   else
                     && a.next.value == m.next.value.(announced := i + 1)
                     && a.next.value.purchase == run.purchase && a.next.value.settled == run.settled
                     && io.publishCreated(i) && all == EmitAll(a.db, a.bus, a.next.value, io)
  {
  }

  lemma {:induction false} LoopIsSteps(w: World, e: int, io: PurchaseIO) returns (trace: seq<Action>)
    requires e in w.running && !w.running[e].settled && w.running[e].announced == |w.running[e].tickets|
    ensures var m := EmitAll(w.db, w.bus, w.running[e], io);
            && Reaches(w, Run(w, trace), e, m)
            && (m.next.Some? ==>
                  && CanSettle(m.next.value) && w.running[e].tickets <= m.next.value.tickets
                  && Announcements(w, trace) == CreatedMessages(m.next.value.tickets[|w.running[e].tickets|..]))
    decreases w.running[e].purchase.quantity - |w.running[e].tickets|
  {
    var run := w.running[e];
    EmitAllUnfolds(w.db, w.bus, run, io);
    trace := [];
    if |run.tickets| < run.purchase.quantity {
      var first, both := RoundIsRun(w, e, io);
      if e !in Run(w, first).running {
        trace := first;
      } else {
        trace := both;
        var w2 := Run(w, both);
        if e in w2.running {
          var rest := LoopIsSteps(w2, e, io);
          LoopJoins(w, w2, e, io, both, rest);
          trace := both + rest;
        }
      }
    }
  }

  /** A round, and the loop from there on. */
  lemma LoopJoins(w: World, w2: World, e: int, io: PurchaseIO, both: seq<Action>, rest: seq<Action>)
    requires e in w.running && e in w2.running && w2 == Run(w, both)
    requires w2.running[e].announced == |w2.running[e].tickets|
    requires var run, run2, m := w.running[e], w2.running[e], EmitAll(w2.db, w2.bus, w2.running[e], io);
             && w2.cache == w.cache && w2.running == w.running[e := run2]
             && |run2.tickets| == |run.tickets| + 1 && run.tickets <= run2.tickets
             && Announcements(w, both) == [CreatedOf(run2.tickets[|run.tickets|])]
             && Reaches(w2, Run(w2, rest), e, m)
             && (m.next.Some? ==>
                   && run2.tickets <= m.next.value.tickets
                   && Announcements(w2, rest) == CreatedMessages(m.next.value.tickets[|run2.tickets|..]))
    ensures var m := EmitAll(w2.db, w2.bus, w2.running[e], io);
            && Reaches(w, Run(w, both + rest), e, m)
            && (m.next.Some? ==>
                  && w.running[e].tickets <= m.next.value.tickets
                  && Announcements(w, both + rest) == CreatedMessages(m.next.value.tickets[|w.running[e].tickets|..]))
  {
    FoldConcat(Step, w, both, rest);
    LogConcat(Step, Announcing, w, both, rest);
    LoopAnnounces(w.running[e].tickets, w2.running[e].tickets, EmitAll(w2.db, w2.bus, w2.running[e], io));
  }

  lemma LoopAnnounces(before: seq<TicketRow>, after: seq<TicketRow>, m: Moved)
    requires |after| == |before| + 1 && before <= after
    ensures m.next.Some? && after <= m.next.value.tickets ==>
              && before <= m.next.value.tickets
              && CreatedMessages(m.next.value.tickets[|before|..]) ==
                 [CreatedOf(after[|before|])] + CreatedMessages(m.next.value.tickets[|after|..])
  {
  }

  lemma FinishIsSteps(w: World, e: int, io: PurchaseIO) returns (trace: seq<Action>)
    requires e in w.running && CanSettle(w.running[e])
    ensures var f, w' := Finish(Moved(w.db, w.bus, Some(w.running[e])), io), Run(w, trace);
            w'.db == f.db && w'.bus == f.bus && w'.cache == w.cache && w'.running == w.running - {e}
    ensures Announcements(w, trace) == []
  {
    var settle, complete := SettlePurchase(e, io.updateEvent), CompletePurchase(e, io.publishCompleted);
    RunTwo(w, settle, complete, []);
    assert [settle, complete] + [] == [settle, complete];
    trace := if io.updateEvent then [settle, complete] else [settle];
  }

  /** All that follows the start of a purchase. */
  lemma RestIsSteps(w: World, e: int, io: PurchaseIO) returns (trace: seq<Action>)
    requires e in w.running && w.running[e].tickets == [] && w.running[e].announced == 0 && !w.running[e].settled
    ensures var f, w' := Finish(EmitAll(w.db, w.bus, w.running[e], io), io), Run(w, trace);
            && w'.db == f.db && w'.bus == f.bus && w'.cache == w.cache && w'.running == w.running - {e}
            && (f.receipt.Some? ==> Announcements(w, trace) == CreatedMessages(f.receipt.value.tickets))
  {
    var loop := LoopIsSteps(w, e, io);
    var w' := Run(w, loop);
    trace := loop;
    if e in w'.running {
      assert w'.running[e].tickets[0..] == w'.running[e].tickets;
      var finish := FinishIsSteps(w', e, io);
      FoldConcat(Step, w, loop, finish);
      LogConcat(Step, Announcing, w, loop, finish);
      trace := loop + finish;
      assert w'.running - {e} == w.running - {e};
    }
  }

  /** Uninterrupted, Purchase is a run of its own steps: what the protocol's steps keep, the
      call keeps. If it succeeds it announced its tickets in the order in which it
      stored them and lists them. */
  lemma PurchaseIsItsSteps(w: World, input: PurchaseInput, io: PurchaseIO) returns (trace: seq<Action>)
    requires input.eventId !in w.running
    ensures var p, w' := PurchaseCall(w.db, w.bus, input, io), Run(w, trace);
            && w'.db == p.db && w'.bus == p.bus && w'.cache == w.cache && w'.running == w.running
            && (p.receipt.Some? ==> Announcements(w, trace) == CreatedMessages(p.receipt.value.tickets))
  {
    var e := input.eventId;
    var start := StartPurchase(input, io.getEvent, io.addPurchase);
    var w1 := Step(w, start);
    FoldOne(Step, w, start);
    LogOne(Step, Announcing, w, start);
    trace := [start];
    if e in w1.running {
      var rest := RestIsSteps(w1, e, io);
      FoldConcat(Step, w, [start], rest);
      LogConcat(Step, Announcing, w, [start], rest);
      trace := [start] + rest;
      assert w1.running - {e} == w.running;
    }
  }

  /* ----- first come, first served ----- */

  /** Nothing fails and the drawn codes are new. */
  ghost predicate Smooth(db: Db, input: PurchaseInput, io: PurchaseIO) {
    && io.getEvent && io.addPurchase && io.updateEvent && io.publishCompleted
    && (forall i: nat :: i < input.quantity ==>
          && io.addTicket(i) && io.publishCreated(i) && ByCode(db.tickets, io.code(i)).None?
          && forall j: nat :: j < i ==> io.code(j) != io.code(i))
  }

  /** The event a request is about, with tickets left or not. */
  ghost predicate Sells(db: Db, e: int) {
    && ValidTable(db.tickets, db.nextTicket)
    && e > 0 && e in db.events && db.events[e].id == e && db.events[e].ticketPrice > 0.0
    && 0 <= db.events[e].soldCount <= db.events[e].capacity
  }

  lemma SmoothPurchase(db: Db, bus: Bus, input: PurchaseInput, io: PurchaseIO)
    requires Sells(db, input.eventId) && Smooth(db, input, io) && input.buyerEmail != ""
    ensures var p, e := PurchaseCall(db, bus, input, io), db.events[input.eventId];
            && (p.outcome == Ok <==> 0 < input.quantity <= e.capacity - e.soldCount)
            && Sells(p.db, input.eventId)
            && p.db.events[input.eventId] == if p.outcome == Ok then e.(soldCount := e.soldCount + input.quantity) else e
  {
    var k := PurchaseUnderFaults(db, bus, input, io);
    if input.quantity > 0 {
      PriceNotNegative(db.events[input.eventId].ticketPrice, input.quantity);
    }
  }

  lemma PriceNotNegative(price: real, quantity: int)
    requires price > 0.0 && quantity > 0
    ensures price * quantity as real >= 0.0
  {
  }

  datatype Attempt = Attempt(input: PurchaseInput, io: PurchaseIO)

  /** The stores after a sequence of purchases, and which of them succeeded. */
  datatype Sales = Sales(db: Db, bus: Bus, accepted: seq<bool>)

  ghost function SellAll(db: Db, bus: Bus, attempts: seq<Attempt>): Sales
    decreases |attempts|
  {
    if attempts == [] then Sales(db, bus, [])
    else
      var p := PurchaseCall(db, bus, attempts[0].input, attempts[0].io);
      var rest := SellAll(p.db, p.bus, attempts[1..]);
      rest.(accepted := [p.outcome == Ok] + rest.accepted)
  }

  /** Every attempt is on event `e`, names a buyer, and meets no failure. */
  ghost predicate AllSmooth(db: Db, bus: Bus, attempts: seq<Attempt>, e: int)
    decreases |attempts|
  {
    attempts != [] ==>
      var a := attempts[0];
      var p := PurchaseCall(db, bus, a.input, a.io);
      && a.input.eventId == e && a.input.buyerEmail != "" && Smooth(db, a.input, a.io)
      && AllSmooth(p.db, p.bus, attempts[1..], e)
  }

  /** The greedy sale: take each request if what is left covers it. */
  datatype Greedy = Greedy(left: int, accepted: seq<bool>)

  function ServeGreedily(left: int, quantities: seq<int>): Greedy
    decreases |quantities|
  {
    if quantities == [] then Greedy(left, [])
    else
      var ok := 0 < quantities[0] <= left;
      var rest := ServeGreedily(if ok then left - quantities[0] else left, quantities[1..]);
      rest.(accepted := [ok] + rest.accepted)
  }

  function Quantities(attempts: seq<Attempt>): seq<int> {
    seq(|attempts|, i requires 0 <= i < |attempts| => attempts[i].input.quantity)
  }

  /** Without failures the accepted requests and the final count are those of the greedy sale. */
  lemma {:induction false} SalesAreGreedy(db: Db, bus: Bus, attempts: seq<Attempt>, e: int)
    requires Sells(db, e) && AllSmooth(db, bus, attempts, e)
    ensures var s := SellAll(db, bus, attempts);
            var g := ServeGreedily(db.events[e].capacity - db.events[e].soldCount, Quantities(attempts));
            && s.accepted == g.accepted
            && Sells(s.db, e) && s.db.events[e].capacity == db.events[e].capacity
            && s.db.events[e].soldCount == db.events[e].capacity - g.left
    decreases |attempts|
  {
    if attempts != [] {
      var a := attempts[0];
      var p := PurchaseCall(db, bus, a.input, a.io);
      SmoothPurchase(db, bus, a.input, a.io);
      SalesAreGreedy(p.db, p.bus, attempts[1..], e);
      assert Quantities(attempts)[1..] == Quantities(attempts[1..]);
    }
  }

  /* ----- Go's int ----- */

  const MAX_INT64: int := 0x7FFF_FFFF_FFFF_FFFF

  predicate IsInt64(x: int) {
    -MAX_INT64 - 1 <= x <= MAX_INT64
  }

  /** No value that ReserveTickets computes overflows, for any quantity and in every reachable world. */
  lemma ReserveNeverOverflows(trace: seq<Action>, e: int, quantity: int)
    requires IsInt64(quantity)
    ensures var w := Run(EMPTY, trace);
            e in w.db.events && IsInt64(w.db.events[e].capacity) ==>
              var event := w.db.events[e];
              && IsInt64(event.soldCount) && IsInt64(event.capacity - event.soldCount)
              && (Reserve(event, quantity).Some? ==> IsInt64(event.soldCount + quantity))
  {
    RunKeepsBooks(EMPTY, trace);
  }
}
