/** What the world says about one ticket code, and the locality theorem: a call
    about one code changes the view of that code only, and in a way that depends
    on that view only. */
module Views {
  import opened Wrappers
  import opened Messages
  import opened TicketDomain
  import opened TicketStore
  import opened ValidatorDomain
  import opened Calls
  import opened Protocol

  datatype CodeView = CodeView(
    row: Option<TicketRow>, record: Option<CacheRecord>,
    queued: multiset<Message>, lost: multiset<Message>,
    admitted: nat, missed: nat, early: nat, announced: bool)

  const BLANK: CodeView := CodeView(None, None, multiset{}, multiset{}, 0, 0, 0, false)

  ghost function View(w: World, c: string): CodeView {
    CodeView(
      ByCode(w.db.tickets, c), Lookup(w.cache, c), About(w.bus.queued, c), About(w.bus.lost, c),
      w.hist.admitted[c], w.hist.missed[c], w.hist.early[c], c in w.hist.announced)
  }

  ghost predicate ValidTickets(w: World) {
    ValidTable(w.db.tickets, w.db.nextTicket)
  }

  function Count(yes: bool): nat {
    if yes then 1 else 0
  }

  /** An effect as seen from its own code. */
  function ApplyView(v: CodeView, e: Effect): CodeView {
    CodeView(
      if e.row.Some? then e.row else v.row,
      if e.record.Some? then e.record else v.record,
      if e.send.Some? && e.sent then v.queued + multiset{e.send.value} else v.queued,
      if e.send.Some? && !e.sent then v.lost + multiset{e.send.value} else v.lost,
      v.admitted + Count(e.admits), v.missed + Count(e.missed), v.early, v.announced)
  }

  function AckView(v: CodeView, m: Message, early: bool): CodeView {
    v.(queued := v.queued - multiset{m}, early := v.early + Count(early))
  }

  /** The call as seen from its own code. */
  function ServeView(v: CodeView, call: Call): CodeView {
    if call.Deliver? && call.message !in v.queued then v
    else ServeViewWith(v, call, Respond(v.row, v.record, call))
  }

  function ServeViewWith(v: CodeView, call: Call, r: Response): CodeView {
    var v' := ApplyView(v, r.effect);
    if TakesOff(call, r) then AckView(v', call.message, r.effect.early) else v'
  }

  lemma AboutAdd(q: multiset<Message>, m: Message, c: string)
    ensures About(q + multiset{m}, c) == if m.code == c then About(q, c) + multiset{m} else About(q, c)
  {
    var want := if m.code == c then About(q, c) + multiset{m} else About(q, c);
    assert forall x :: About(q + multiset{m}, c)[x] == want[x];
  }

  lemma AboutRemove(q: multiset<Message>, m: Message, c: string)
    ensures About(q - multiset{m}, c) == if m.code == c then About(q, c) - multiset{m} else About(q, c)
  {
    var want := if m.code == c then About(q, c) - multiset{m} else About(q, c);
    assert forall x :: About(q - multiset{m}, c)[x] == want[x];
  }

  /** The row an effect writes is the one its code names, with its key columns untouched. */
  ghost predicate Updates(row: Option<TicketRow>, e: Effect) {
    e.row.Some? ==>
      && row.Some? && e.row.value.code == e.code
      && e.row.value == row.value.(status := e.row.value.status, usedAt := e.row.value.usedAt)
  }

  /** An effect that is about its code alone, given the row of that code. */
  ghost predicate Local(row: Option<TicketRow>, e: Effect) {
    Updates(row, e) && (e.send.Some? ==> e.send.value.code == e.code)
  }

  /** Every call is about its own code. */
  lemma RespondIsLocal(row: Option<TicketRow>, record: Option<CacheRecord>, call: Call) returns (r: Response)
    requires row.Some? ==> row.value.code == call.Code()
    ensures r == Respond(row, record, call)
    ensures r.effect.code == call.Code() && Local(row, r.effect)
  {
    r := Respond(row, record, call);
  }

  /** Update finds by id what GetByCode found by code. */
  lemma UpdateIsLocal(rows: TicketTable, nextId: int, t: TicketRow, c: string)
    requires ValidTable(rows, nextId)
    requires var r := ByCode(rows, t.code); r.Some? && t == r.value.(status := t.status, usedAt := t.usedAt)
    ensures ValidTable(UpdateRow(rows, t), nextId)
    ensures ByCode(UpdateRow(rows, t), c) == if c == t.code then Some(t) else ByCode(rows, c)
  {
    var rows' := UpdateRow(rows, t);
    assert t.id in rows && rows'[t.id] == t;
    if c == t.code {
      ByCodeFinds(rows', nextId, t.id);
    } else if ByCode(rows, c).Some? {
      var id :| id in rows && Some(rows[id]) == ByCode(rows, c);
      assert rows'[id] == rows[id];
      ByCodeFinds(rows', nextId, id);
    }
  }

  lemma SendIsLocal(bus: Bus, e: Effect, c: string)
    requires e.send.Some? ==> e.send.value.code == e.code
    ensures var sends := e.send.Some? && c == e.code;
            && About(Send(bus, e).queued, c) ==
               (if sends && e.sent then About(bus.queued, c) + multiset{e.send.value} else About(bus.queued, c))
            && About(Send(bus, e).lost, c) ==
               (if sends && !e.sent then About(bus.lost, c) + multiset{e.send.value} else About(bus.lost, c))
  {
    if e.send.Some? {
      AboutAdd(bus.queued, e.send.value, c);
      AboutAdd(bus.lost, e.send.value, c);
    }
  }

  lemma TallyIsLocal(tally: multiset<string>, yes: bool, code: string, c: string)
    ensures (tally + Times(yes, code))[c] == tally[c] + Count(yes && c == code)
  {
  }

  /** The slots of `w` at `c`, after `e` is written. */
  ghost predicate Written(w: World, w': World, e: Effect, c: string) {
    && ByCode(w'.db.tickets, c) == (if c == e.code && e.row.Some? then e.row else ByCode(w.db.tickets, c))
    && Lookup(w'.cache, c) == (if c == e.code && e.record.Some? then e.record else Lookup(w.cache, c))
  }

  lemma WriteIsLocal(w: World, e: Effect, c: string)
    requires ValidTickets(w)
    requires Updates(ByCode(w.db.tickets, e.code), e)
    ensures var w' := Apply(w, e);
            && ValidTickets(w')
            && Written(w, w', e, c)
  {
    if e.row.Some? {
      UpdateIsLocal(w.db.tickets, w.db.nextTicket, e.row.value, c);
    }
  }

  /** A view is its slots: those an effect fills, seen from its own code or from another. */
  lemma SlotsMakeView(v: CodeView, v': CodeView, e: Effect, own: bool)
    requires v'.row == if own && e.row.Some? then e.row else v.row
    requires v'.record == if own && e.record.Some? then e.record else v.record
    requires v'.queued == if own && e.send.Some? && e.sent then v.queued + multiset{e.send.value} else v.queued
    requires v'.lost == if own && e.send.Some? && !e.sent then v.lost + multiset{e.send.value} else v.lost
    requires v'.admitted == v.admitted + Count(e.admits && own) && v'.missed == v.missed + Count(e.missed && own)
    requires v'.early == v.early && v'.announced == v.announced
    ensures v' == if own then ApplyView(v, e) else v
  {
  }

  lemma TellIsLocal(w: World, e: Effect, c: string)
    requires Written(w, Apply(w, e), e, c)
    requires e.send.Some? ==> e.send.value.code == e.code
    ensures View(Apply(w, e), c) ==
            if c == e.code then ApplyView(View(w, c), e) else View(w, c)
  {
    SendIsLocal(w.bus, e, c);
    TallyIsLocal(w.hist.admitted, e.admits, e.code, c);
    TallyIsLocal(w.hist.missed, e.missed, e.code, c);
    SlotsMakeView(View(w, c), View(Apply(w, e), c), e, c == e.code);
  }

  lemma ApplyIsLocal(w: World, e: Effect, c: string)
    requires ValidTickets(w)
    requires Local(ByCode(w.db.tickets, e.code), e)
    ensures ValidTickets(Apply(w, e))
    ensures View(Apply(w, e), c) ==
            if c == e.code then ApplyView(View(w, c), e) else View(w, c)
  {
    WriteIsLocal(w, e, c);
    TellIsLocal(w, e, c);
  }

  lemma AckIsLocal(w: World, m: Message, early: bool, c: string)
    ensures View(Acknowledge(w, m, early), c) == if c == m.code then AckView(View(w, c), m, early) else View(w, c)
  {
    AboutRemove(w.bus.queued, m, c);
    TallyIsLocal(w.hist.early, early, m.code, c);
  }

  lemma ServeWithIsLocal(w: World, call: Call, r: Response, c: string)
    requires ValidTickets(w)
    requires r.effect.code == call.Code() && Local(ByCode(w.db.tickets, call.Code()), r.effect)
    ensures ValidTickets(ServeWith(w, call, r))
    ensures View(ServeWith(w, call, r), c) ==
            if c == call.Code() then ServeViewWith(View(w, c), call, r) else View(w, c)
  {
    ApplyIsLocal(w, r.effect, c);
    if TakesOff(call, r) {
      AckIsLocal(Apply(w, r.effect), call.message, r.effect.early, c);
    }
  }

  /** The locality theorem. */
  lemma ServeIsLocal(w: World, call: Call, c: string)
    requires ValidTickets(w)
    ensures ValidTickets(Serve(w, call))
    ensures View(Serve(w, call), c) == if c == call.Code() then ServeView(View(w, c), call) else View(w, c)
  {
    var v := View(w, call.Code());
    var r := RespondIsLocal(v.row, v.record, call);
    ServeWithIsLocal(w, call, r, c);
    if call.Deliver? && call.message !in w.bus.queued {
      assert Serve(w, call) == w;
    } else {
      assert Serve(w, call) == ServeWith(w, call, r);
    }
  }

  lemma RequestIsServe(w: World, call: Call)
    ensures Step(w, Request(call)) == Serve(w, call)
  {
  }

  /** Two worlds that agree on every code agree on tickets, cache, messages and history. */
  lemma ViewsDetermine(w: World, u: World)
    requires ValidTickets(w) && ValidTickets(u)
    requires forall c :: View(w, c) == View(u, c)
    ensures w.db.tickets == u.db.tickets
    ensures w.cache == u.cache
    ensures w.bus.queued == u.bus.queued && w.bus.lost == u.bus.lost
    ensures w.hist.admitted == u.hist.admitted && w.hist.missed == u.hist.missed && w.hist.early == u.hist.early
  {
    TicketsWithin(w, u);
    TicketsWithin(u, w);
    assert w.db.tickets == u.db.tickets by {
      assert forall id :: id in w.db.tickets <==> id in u.db.tickets;
      assert forall id :: id in w.db.tickets ==> w.db.tickets[id] == u.db.tickets[id];
    }
    forall c ensures Lookup(w.cache, c) == Lookup(u.cache, c) {
      assert View(w, c) == View(u, c);
    }
    assert forall c :: c in w.cache <==> Lookup(w.cache, c).Some?;
    assert forall c :: c in u.cache <==> Lookup(u.cache, c).Some?;
    assert forall c :: c in w.cache ==> Lookup(w.cache, c) == Some(w.cache[c]);
    forall m: Message ensures w.bus.queued[m] == u.bus.queued[m] && w.bus.lost[m] == u.bus.lost[m] {
      assert View(w, m.code) == View(u, m.code);
    }
    forall c
      ensures w.hist.admitted[c] == u.hist.admitted[c]
      ensures w.hist.missed[c] == u.hist.missed[c]
      ensures w.hist.early[c] == u.hist.early[c]
    {
      assert View(w, c) == View(u, c);
    }
  }

  lemma TicketsWithin(w: World, u: World)
    requires ValidTickets(w) && ValidTickets(u)
    requires forall c :: View(w, c) == View(u, c)
    ensures forall id :: id in w.db.tickets ==> id in u.db.tickets && u.db.tickets[id] == w.db.tickets[id]
  {
    forall id | id in w.db.tickets ensures id in u.db.tickets && u.db.tickets[id] == w.db.tickets[id] {
      var t := w.db.tickets[id];
      ByCodeFinds(w.db.tickets, w.db.nextTicket, id);
      assert View(w, t.code) == View(u, t.code);
    }
  }
}
