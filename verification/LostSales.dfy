/** Why purchases on one event must not overlap: two purchases of one event, their steps
    merged in any order, and exactly when the event counts both. */
module LostSales {
  import opened Wrappers
  import opened Messages
  import opened TicketDomain
  import opened TicketStore
  import opened PurchaseSteps
  import opened Protocol
  import opened Accounting

  /** A buyer that is gone has written the event back or not, and has `stored` this many tickets. */
  datatype Buyer = Waiting(input: PurchaseInput) | Buying(run: Running) | Gone(settled: bool, stored: nat)

  /** Two buyers before the same tables. */
  datatype Shop = Shop(db: Db, bus: Bus, first: Buyer, second: Buyer)

  /** One step of a purchase, with the answer of the infrastructure. */
  datatype Move =
    | BeginMove(getUp: bool, addUp: bool)
    | EmitMove(code: string, up: bool)
    | AnnounceMove(up: bool)
    | SettleMove(up: bool)
    | CompleteMove(up: bool)

  datatype Turn = Turn(isFirst: bool, move: Move)

  datatype Bought = Bought(db: Db, bus: Bus, buyer: Buyer)

  function Onwards(m: Moved, run: Running): Bought {
    Bought(m.db, m.bus, if m.next.Some? then Buying(m.next.value) else Gone(false, |run.tickets|))
  }

  /** The next step of one buyer. A move that is not its next one does nothing. */
  ghost function Buy(db: Db, bus: Bus, buyer: Buyer, move: Move): Bought {
    match buyer
    case Waiting(input) =>
      if !move.BeginMove? then Bought(db, bus, buyer)
      else
        var b := Begin(db, input, move.getUp, move.addUp);
        Bought(b.db, bus, if b.run.Some? then Buying(b.run.value) else Gone(false, 0))
    case Buying(run) =>
      if move.EmitMove? && CanEmit(run) then Onwards(Emit(db, bus, run, move.code, move.up), run)
      else if move.AnnounceMove? && CanAnnounce(run) then Onwards(Announce(db, bus, run, move.up), run)
      else if move.SettleMove? && CanSettle(run) then Onwards(Settle(db, bus, run, move.up), run)
      else if move.CompleteMove? && run.settled then Bought(db, Complete(bus, run, move.up), Gone(true, |run.tickets|))
      else Bought(db, bus, buyer)
    case Gone(_, _) => Bought(db, bus, buyer)
  }

  ghost function TakeTurn(s: Shop, t: Turn): Shop {
    if t.isFirst then
      var m := Buy(s.db, s.bus, s.first, t.move);
      Shop(m.db, m.bus, m.buyer, s.second)
    else
      var m := Buy(s.db, s.bus, s.second, t.move);
      Shop(m.db, m.bus, s.first, m.buyer)
  }

  ghost function TakeTurns(s: Shop, turns: seq<Turn>): Shop {
    Fold(TakeTurn, s, turns)
  }

  /** The buyer has written the event back. */
  predicate HasSettled(b: Buyer) {
    match b
    case Waiting(_) => false
    case Buying(run) => run.settled
    case Gone(settled, _) => settled
  }

  /** One buyer has written the event back and the other has not read it. */
  predicate Ahead(s: Shop, isFirst: bool) {
    if isFirst then HasSettled(s.first) && s.second.Waiting? else HasSettled(s.second) && s.first.Waiting?
  }

  /** That buyer is ahead at some moment. */
  ghost predicate Precedes(s: Shop, turns: seq<Turn>, isFirst: bool)
    decreases |turns|
  {
    Ahead(s, isFirst) || (turns != [] && Precedes(TakeTurn(s, turns[0]), turns[1..], isFirst))
  }

  /* ----- what each buyer knows and writes ----- */

  /** A buyer of `q` tickets of event `e`, which read `seen` as the sold count, if it did. */
  predicate Buys(b: Buyer, e: int, q: int, seen: int) {
    match b
    case Waiting(input) => input.eventId == e && input.quantity == q
    case Buying(run) =>
      && q > 0 && run.event.id == e && run.purchase.quantity == q
      && run.event.soldCount == seen + q
    case Gone(settled, _) => settled ==> q > 0
  }

  function Plus(yes: bool, q: int): int {
    if yes then q else 0
  }

  /** The shop after some turns: `fs` says that the first settled before the second read, `sf` the reverse. */
  ghost predicate Trading(s: Shop, e: int, sold: int, q1: int, q2: int, fs: bool, sf: bool) {
    && e in s.db.events && !(fs && sf)
    && (fs ==> HasSettled(s.first)) && (sf ==> HasSettled(s.second))
    && (Ahead(s, true) ==> fs) && (Ahead(s, false) ==> sf)
    && Buys(s.first, e, q1, sold + Plus(sf, q2)) && Buys(s.second, e, q2, sold + Plus(fs, q1))
    && var now := s.db.events[e].soldCount;
       if HasSettled(s.first) && HasSettled(s.second) then
         if fs || sf then now == sold + q1 + q2 else now == sold + q1 || now == sold + q2
       else now == sold + Plus(HasSettled(s.first), q1) + Plus(HasSettled(s.second), q2)
  }

  /** What one step does to the event and to its buyer. */
  lemma BuyShape(db: Db, bus: Bus, b: Buyer, move: Move, e: int, q: int, seen: int)
    requires e in db.events && Buys(b, e, q, seen)
    requires b.Waiting? ==> db.events[e].soldCount == seen
    ensures var m := Buy(db, bus, b, move);
            && e in m.db.events && Buys(m.buyer, e, q, seen)
            && (HasSettled(b) ==> HasSettled(m.buyer)) && (m.buyer.Waiting? ==> m.buyer == b)
            && (if HasSettled(m.buyer) && !HasSettled(b) then !b.Waiting? && m.db.events[e].soldCount == seen + q
                else m.db.events[e] == db.events[e])
  {
  }

  lemma FirstTrades(s: Shop, t: Turn, e: int, sold: int, q1: int, q2: int, fs: bool, sf: bool)
    requires Trading(s, e, sold, q1, q2, fs, sf) && t.isFirst
    ensures var s' := TakeTurn(s, t);
            Trading(s', e, sold, q1, q2, fs || Ahead(s', true), sf)
  {
    BuyShape(s.db, s.bus, s.first, t.move, e, q1, sold + Plus(sf, q2));
  }

  function Swapped(s: Shop): Shop {
    Shop(s.db, s.bus, s.second, s.first)
  }

  lemma TurnTrades(s: Shop, t: Turn, e: int, sold: int, q1: int, q2: int, fs: bool, sf: bool)
    requires Trading(s, e, sold, q1, q2, fs, sf)
    ensures var s' := TakeTurn(s, t);
            Trading(s', e, sold, q1, q2, fs || Ahead(s', true),
                    sf || Ahead(s', false))
  {
    if t.isFirst {
      FirstTrades(s, t, e, sold, q1, q2, fs, sf);
    } else {
      FirstTrades(Swapped(s), t.(isFirst := true), e, sold, q2, q1, sf, fs);
    }
  }

  lemma {:induction false} TurnsTrade(s: Shop, turns: seq<Turn>, e: int, sold: int, q1: int, q2: int, fs: bool, sf: bool)
    requires Trading(s, e, sold, q1, q2, fs, sf)
    ensures Trading(TakeTurns(s, turns), e, sold, q1, q2, fs || Precedes(s, turns, true), sf || Precedes(s, turns, false))
    decreases |turns|
  {
    if turns != [] {
      var s', rest := TakeTurn(s, turns[0]), turns[1..];
      TurnTrades(s, turns[0], e, sold, q1, q2, fs, sf);
      TurnsTrade(s', rest, e, sold, q1, q2, fs || Ahead(s', true), sf || Ahead(s', false));
      assert TakeTurns(s, turns) == TakeTurns(s', rest);
      forall isFirst ensures Precedes(s, turns, isFirst) <==> Ahead(s, isFirst) || Ahead(s', isFirst) || Precedes(s', rest, isFirst) {
      }
    }
  }

  /* ----- what they store ----- */

  function Stored(b: Buyer): nat {
    match b
    case Waiting(_) => 0
    case Buying(run) => |run.tickets|
    case Gone(_, stored) => stored
  }

  /** A buyer that wrote the event back has stored all it bought. */
  predicate Stores(b: Buyer, e: int, q: int) {
    match b
    case Waiting(input) => input.eventId == e && input.quantity == q
    case Buying(run) =>
      && run.purchase.eventId == e && run.purchase.quantity == q
      && run.announced <= |run.tickets| <= q && (run.settled ==> |run.tickets| == q)
    case Gone(settled, stored) => settled ==> stored == q
  }

  ghost predicate Stocked(s: Shop, e: int, rows: int, q1: int, q2: int) {
    && ValidTable(s.db.tickets, s.db.nextTicket) && Stores(s.first, e, q1) && Stores(s.second, e, q2)
    && |RowsOfEvent(s.db.tickets, e)| == rows + Stored(s.first) + Stored(s.second)
  }

  lemma OneMoreRow(tickets: TicketTable, nextId: int, t: TicketRow)
    requires ValidTable(tickets, nextId) && t.id == nextId && ByCode(tickets, t.code).None?
    ensures ValidTable(tickets[t.id := t], nextId + 1)
    ensures |RowsOfEvent(tickets[t.id := t], t.eventId)| == |RowsOfEvent(tickets, t.eventId)| + 1
  {
    assert t.id !in tickets;
    assert RowsOfEvent(tickets[t.id := t], t.eventId) == RowsOfEvent(tickets, t.eventId) + {t.id};
  }

  lemma BuyStores(db: Db, bus: Bus, b: Buyer, move: Move, e: int, q: int)
    requires ValidTable(db.tickets, db.nextTicket) && Stores(b, e, q)
    ensures var m := Buy(db, bus, b, move);
            && ValidTable(m.db.tickets, m.db.nextTicket) && Stores(m.buyer, e, q)
            && |RowsOfEvent(m.db.tickets, e)| == |RowsOfEvent(db.tickets, e)| + Stored(m.buyer) - Stored(b)
  {
    if b.Buying? && move.EmitMove? && CanEmit(b.run) && move.up && ByCode(db.tickets, move.code).None? {
      OneMoreRow(db.tickets, db.nextTicket, TicketOf(db, b.run, move.code));
    } else {
      assert Buy(db, bus, b, move).db.tickets == db.tickets && Buy(db, bus, b, move).db.nextTicket == db.nextTicket;
    }
  }

  lemma {:induction false} TurnsStock(s: Shop, turns: seq<Turn>, e: int, rows: int, q1: int, q2: int)
    requires Stocked(s, e, rows, q1, q2)
    ensures Stocked(TakeTurns(s, turns), e, rows, q1, q2)
    decreases |turns|
  {
    if turns != [] {
      if turns[0].isFirst {
        BuyStores(s.db, s.bus, s.first, turns[0].move, e, q1);
      } else {
        BuyStores(s.db, s.bus, s.second, turns[0].move, e, q2);
      }
      TurnsStock(TakeTurn(s, turns[0]), turns[1..], e, rows, q1, q2);
    }
  }

  lemma SettledStored(b: Buyer, e: int, q: int)
    requires Stores(b, e, q) && HasSettled(b)
    ensures Stored(b) == q
  {
  }

  /** Of two purchases on one event, their steps merged in any order and failing anywhere, that
      both write the event back: the event's rows grow by all they bought; its count grows as
      much, as the conservation of tickets demands, if and only if one wrote it before the other
      read it. Otherwise one of them is forgotten. */
  lemma BothCountedIff(db: Db, bus: Bus, first: PurchaseInput, second: PurchaseInput, turns: seq<Turn>)
    requires ValidTable(db.tickets, db.nextTicket) && first.eventId == second.eventId && first.eventId in db.events
    ensures var e, s := first.eventId, Shop(db, bus, Waiting(first), Waiting(second));
            var s', both := TakeTurns(s, turns), first.quantity + second.quantity;
            HasSettled(s'.first) && HasSettled(s'.second) ==>
              && e in s'.db.events
              && |RowsOfEvent(s'.db.tickets, e)| == |RowsOfEvent(db.tickets, e)| + both
              && var sold, now := db.events[e].soldCount, s'.db.events[e].soldCount;
                 && (now == sold + both <==> Precedes(s, turns, true) || Precedes(s, turns, false))
                 && (now != sold + both ==> now == sold + first.quantity || now == sold + second.quantity)
  {
    var e := first.eventId;
    var s := Shop(db, bus, Waiting(first), Waiting(second));
    TurnsTrade(s, turns, e, db.events[e].soldCount, first.quantity, second.quantity, false, false);
    TurnsStock(s, turns, e, |RowsOfEvent(db.tickets, e)|, first.quantity, second.quantity);
    var s' := TakeTurns(s, turns);
    if HasSettled(s'.first) && HasSettled(s'.second) {
      SettledStored(s'.first, e, first.quantity);
      SettledStored(s'.second, e, second.quantity);
    }
  }

  /* ----- it happens ----- */

  /** Once both have read, neither can precede the other. */
  lemma {:induction false} BothRead(s: Shop, turns: seq<Turn>, isFirst: bool)
    requires !s.first.Waiting? && !s.second.Waiting?
    ensures !Precedes(s, turns, isFirst)
    decreases |turns|
  {
    if turns != [] {
      StopsWaiting(s.db, s.bus, s.first, turns[0].move);
      StopsWaiting(s.db, s.bus, s.second, turns[0].move);
      BothRead(TakeTurn(s, turns[0]), turns[1..], isFirst);
    }
  }

  lemma StopsWaiting(db: Db, bus: Bus, b: Buyer, move: Move)
    requires !b.Waiting?
    ensures !Buy(db, bus, b, move).buyer.Waiting?
  {
  }

  function BuyerOf(s: Shop, isFirst: bool): Buyer {
    if isFirst then s.first else s.second
  }

  /** The turns that sell a ticket for each code and write the event back. */
  function SellMany(isFirst: bool, codes: seq<string>): seq<Turn> {
    if codes == [] then [Turn(isFirst, SettleMove(true))]
    else [Turn(isFirst, EmitMove(codes[0], true))] + ([Turn(isFirst, AnnounceMove(true))] + SellMany(isFirst, codes[1..]))
  }

  /** New codes, none twice. */
  ghost predicate NewCodes(tickets: TicketTable, codes: seq<string>) {
    && (forall i :: 0 <= i < |codes| ==> ByCode(tickets, codes[i]).None?)
    && (forall i, j :: 0 <= i < j < |codes| ==> codes[i] != codes[j])
  }

  /** Between two rounds, with `n` tickets to go. */
  predicate ToGo(b: Buyer, n: nat) {
    b.Buying? && !b.run.settled && b.run.announced == |b.run.tickets| && |b.run.tickets| + n == b.run.purchase.quantity
  }

  /** One round of one buyer; the other waits. */
  lemma RoundSold(s: Shop, isFirst: bool, code: string, n: nat)
    requires ToGo(BuyerOf(s, isFirst), n + 1) && ByCode(s.db.tickets, code).None?
    ensures var t := TicketOf(s.db, BuyerOf(s, isFirst).run, code);
            var s' := TakeTurn(TakeTurn(s, Turn(isFirst, EmitMove(code, true))), Turn(isFirst, AnnounceMove(true)));
            && ToGo(BuyerOf(s', isFirst), n) && BuyerOf(s', !isFirst) == BuyerOf(s, !isFirst)
            && s'.db.tickets == s.db.tickets[t.id := t] && s'.db.nextTicket == s.db.nextTicket + 1
            && t.id == s.db.nextTicket && t.code == code
  {
  }

  lemma StillNew(tickets: TicketTable, nextId: int, t: TicketRow, codes: seq<string>)
    requires ValidTable(tickets, nextId) && t.id == nextId && |codes| > 0 && t.code == codes[0] && NewCodes(tickets, codes)
    ensures ValidTable(tickets[t.id := t], nextId + 1) && NewCodes(tickets[t.id := t], codes[1..])
  {
    OneMoreRow(tickets, nextId, t);
    forall i | 0 <= i < |codes[1..]| ensures ByCode(tickets[t.id := t], codes[1..][i]).None? {
      NotFound(tickets, t.id, t, codes[i + 1]);
    }
  }

  /** Undisturbed, a buyer sells all its codes and settles; codes that come later stay new. */
  lemma {:induction false} ManySold(s: Shop, isFirst: bool, codes: seq<string>, later: seq<string>)
    requires ToGo(BuyerOf(s, isFirst), |codes|) && ValidTable(s.db.tickets, s.db.nextTicket)
    requires NewCodes(s.db.tickets, codes + later)
    ensures var s' := TakeTurns(s, SellMany(isFirst, codes));
            && HasSettled(BuyerOf(s', isFirst)) && BuyerOf(s', !isFirst) == BuyerOf(s, !isFirst)
            && ValidTable(s'.db.tickets, s'.db.nextTicket) && NewCodes(s'.db.tickets, later)
    decreases |codes|
  {
    if codes == [] {
      assert codes + later == later;
      FoldOne(TakeTurn, s, Turn(isFirst, SettleMove(true)));
    } else {
      var emit, announce := Turn(isFirst, EmitMove(codes[0], true)), Turn(isFirst, AnnounceMove(true));
      var rest := SellMany(isFirst, codes[1..]);
      FoldCons(TakeTurn, s, emit, [announce] + rest);
      FoldCons(TakeTurn, TakeTurn(s, emit), announce, rest);
      assert (codes + later)[0] == codes[0] && (codes + later)[1..] == codes[1..] + later;
      RoundSold(s, isFirst, codes[0], |codes| - 1);
      StillNew(s.db.tickets, s.db.nextTicket, TicketOf(s.db, BuyerOf(s, isFirst).run, codes[0]), codes + later);
      ManySold(TakeTurn(TakeTurn(s, emit), announce), isFirst, codes[1..], later);
    }
  }

  /** Both begin, then the first sells all its tickets, then the second. */
  function Overlapping(codes1: seq<string>, codes2: seq<string>): seq<Turn> {
    [Turn(true, BeginMove(true, true))]
    + ([Turn(false, BeginMove(true, true))] + (SellMany(true, codes1) + SellMany(false, codes2)))
  }

  lemma BothSell(s: Shop, codes1: seq<string>, codes2: seq<string>)
    requires ToGo(s.first, |codes1|) && ToGo(s.second, |codes2|) && ValidTable(s.db.tickets, s.db.nextTicket)
    requires NewCodes(s.db.tickets, codes1 + codes2)
    ensures var s' := TakeTurns(s, SellMany(true, codes1) + SellMany(false, codes2));
            HasSettled(s'.first) && HasSettled(s'.second)
  {
    ManySold(s, true, codes1, codes2);
    assert codes2 + [] == codes2;
    ManySold(TakeTurns(s, SellMany(true, codes1)), false, codes2, []);
    FoldConcat(TakeTurn, s, SellMany(true, codes1), SellMany(false, codes2));
  }

  lemma PrecedesCons(s: Shop, t: Turn, rest: seq<Turn>, isFirst: bool)
    requires !HasSettled(s.first) && !HasSettled(s.second)
    ensures Precedes(s, [t] + rest, isFirst) <==> Precedes(TakeTurn(s, t), rest, isFirst)
  {
    assert ([t] + rest)[0] == t && ([t] + rest)[1..] == rest;
  }

  /** Whenever two purchases on one event could each begin, whatever they buy, both can succeed: the rows of
      both are stored, and the event counts one of them. */
  lemma OverlapLosesSale(db: Db, bus: Bus, first: PurchaseInput, second: PurchaseInput, codes1: seq<string>, codes2: seq<string>)
    requires first.eventId == second.eventId && first.quantity == |codes1| && second.quantity == |codes2|
    requires Begin(db, first, true, true).run.Some? && Begin(db, second, true, true).run.Some?
    requires ValidTable(db.tickets, db.nextTicket) && NewCodes(db.tickets, codes1 + codes2)
    ensures var e := first.eventId;
            var s' := TakeTurns(Shop(db, bus, Waiting(first), Waiting(second)), Overlapping(codes1, codes2));
            && HasSettled(s'.first) && HasSettled(s'.second) && e in s'.db.events
            && |RowsOfEvent(s'.db.tickets, e)| == |RowsOfEvent(db.tickets, e)| + |codes1| + |codes2|
            && (|| s'.db.events[e].soldCount == db.events[e].soldCount + |codes1|
                || s'.db.events[e].soldCount == db.events[e].soldCount + |codes2|)
  {
    var s, begin1, begin2 := Shop(db, bus, Waiting(first), Waiting(second)),
      Turn(true, BeginMove(true, true)), Turn(false, BeginMove(true, true));
    var rest := SellMany(true, codes1) + SellMany(false, codes2);
    var s1 := TakeTurn(s, begin1);
    var s2 := TakeTurn(s1, begin2);
    BothBegin(s, first, second);
    FoldCons(TakeTurn, s, begin1, [begin2] + rest);
    FoldCons(TakeTurn, s1, begin2, rest);
    BothSell(s2, codes1, codes2);
    forall isFirst ensures !Precedes(s, Overlapping(codes1, codes2), isFirst) {
      PrecedesCons(s, begin1, [begin2] + rest, isFirst);
      PrecedesCons(s1, begin2, rest, isFirst);
      BothRead(s2, rest, isFirst);
    }
    BothCountedIff(db, bus, first, second, Overlapping(codes1, codes2));
  }

  lemma BothBegin(s: Shop, first: PurchaseInput, second: PurchaseInput)
    requires s.first == Waiting(first) && s.second == Waiting(second) && first.eventId == second.eventId
    requires Begin(s.db, first, true, true).run.Some? && Begin(s.db, second, true, true).run.Some?
    ensures first.eventId in s.db.events && first.quantity > 0 && second.quantity > 0
    ensures var s1 := TakeTurn(s, Turn(true, BeginMove(true, true)));
            var s2 := TakeTurn(s1, Turn(false, BeginMove(true, true)));
            && ToGo(s1.first, first.quantity) && s1.second == s.second
            && ToGo(s2.first, first.quantity) && ToGo(s2.second, second.quantity)
            && s2.db.tickets == s.db.tickets && s2.db.nextTicket == s.db.nextTicket
  {
  }

  lemma NotFound(tickets: TicketTable, id: int, t: TicketRow, code: string)
    requires id !in tickets && t.code != code && ByCode(tickets, code).None?
    ensures ByCode(tickets[id := t], code).None?
  {
  }
}
