/** What each call answers and does in every reachable world, stated on the rows, the
    records and the messages themselves. */
module Answers {
  import opened Wrappers
  import opened Messages
  import opened TicketDomain
  import opened TicketStore
  import opened ValidatorDomain
  import opened Calls
  import opened Protocol
  import opened Views
  import opened Safety

  /** `w'` is `w` but for one ticket row. */
  ghost predicate RowWritten(w: World, w': World, t: TicketRow) {
    && w'.db == w.db.(tickets := w.db.tickets[t.id := t])
    && w'.cache == w.cache && w'.running == w.running
  }

  /** A row found by code is the row of its id. */
  lemma RowOfCode(trace: seq<Action>, c: string)
    ensures var w := Run(EMPTY, trace);
            var row := ByCode(w.db.tickets, c);
            row.Some? ==> row.value.id in w.db.tickets && w.db.tickets[row.value.id] == row.value && row.value.code == c
                          && row.value.eventId > 0 && c != ""
  {
    ReachableIsSafe(trace);
    var w := Run(EMPTY, trace);
    assert Sound(View(w, c));
  }

  lemma NothingTallied(w: World, call: Call, r: Response)
    requires !TakesOff(call, r) && !r.effect.admits && !r.effect.missed
    ensures ServeWith(w, call, r).hist == w.hist
  {
    assert w.hist.admitted + multiset{} == w.hist.admitted && w.hist.missed + multiset{} == w.hist.missed;
  }

  /** Cancelling a ticket, in every reachable world. The caller hears of a failure in spite of a row
      that turned cancelled when only the publish failed. */
  lemma CancelDoes(trace: seq<Action>, c: string, io: IO)
    ensures var w, call := Run(EMPTY, trace), Cancel(c, io);
            var row, outcome, w' := ByCode(w.db.tickets, c), Answer(w, call).outcome, Serve(w, call);
            && (outcome == NotFound <==> io.get && row.None?)
            && (outcome == BusinessRule <==> io.get && row.Some? && row.value.status != Emitted)
            && (outcome == Ok <==> io == ALL_UP && row.Some? && row.value.status == Emitted)
            && (outcome == Internal <==> !io.get || (row.Some? && row.value.status == Emitted && (!io.write || !io.publish)))
            && if io.get && io.write && row.Some? && row.value.status == Emitted then
                 && RowWritten(w, w', row.value.(status := TicketStatus.Cancelled)) && w'.hist == w.hist
                 && CancelTold(w, w', row.value, io.publish)
               else w' == w
  {
    var w, call := Run(EMPTY, trace), Cancel(c, io);
    RowOfCode(trace, c);
    NothingTallied(w, call, Answer(w, call));
  }

  ghost predicate CancelTold(w: World, w': World, t: TicketRow, published: bool) {
    w'.bus == if published then w.bus.(queued := w.bus.queued + multiset{TicketCancelled(t.id, t.code, t.eventId)})
              else w.bus.(lost := w.bus.lost + multiset{TicketCancelled(t.id, t.code, t.eventId)})
  }

  /** The caller is told success exactly when an emitted ticket turned cancelled and exactly its message was queued. */
  lemma CancelSucceedsIff(trace: seq<Action>, c: string, io: IO)
    ensures var w, call := Run(EMPTY, trace), Cancel(c, io);
            var row, w' := ByCode(w.db.tickets, c), Serve(w, call);
            Answer(w, call).outcome == Ok <==>
              && row.Some? && row.value.status == Emitted
              && RowWritten(w, w', row.value.(status := TicketStatus.Cancelled))
              && CancelTold(w, w', row.value, true)
  {
    var w, call := Run(EMPTY, trace), Cancel(c, io);
    var row := ByCode(w.db.tickets, c);
    CancelDoes(trace, c, io);
    if row.Some? && io != ALL_UP {
      var m := TicketCancelled(row.value.id, row.value.code, row.value.eventId);
      assert (w.bus.queued + multiset{m})[m] == w.bus.queued[m] + 1;
    }
  }

  /* ----- validating ----- */

  ghost function Validated(w: World, call: Call): Validation
    requires call.Validate?
  {
    ValidateTicket(Lookup(w.cache, call.c), ReplyOf(ByCode(w.db.tickets, call.c), call.port), call.c, call.io, call.now)
  }

  lemma Wording()
    ensures "ticket is " + "used" == "ticket is used" && "ticket is " + "cancelled" == "ticket is cancelled"
    ensures "used" != "emitted" && "cancelled" != "emitted" && "ticket is used" != "ticket is cancelled"
  {
    assert "used"[0] != "emitted"[0] && "cancelled"[0] != "emitted"[0];
    assert |"ticket is used"| < |"ticket is cancelled"|;
  }

  function Says(v: Validation): (Outcome, bool, string) {
    (v.outcome, v.result.valid, v.result.message)
  }

  lemma CachedSays(record: CacheRecord, code: string, io: IO, now: int)
    ensures Says(Calls.ValidateLocal(record, code, io, now)) ==
            match record.status
            case Active => if io.write then (Ok, true, "ticket validated successfully") else (Internal, false, "")
            case Used => (Ok, false, "ticket is used")
            case Cancelled => (Ok, false, "ticket is cancelled")
  {
    Wording();
  }

  lemma LiveSays(row: Option<TicketRow>, port: Port, code: string, io: IO, now: int)
    ensures Says(Calls.ValidateFallback(ReplyOf(row, port), code, io, now)) ==
            if port == Down then (Ok, false, "unable to validate ticket at this time")
            else if row.None? then (Ok, false, "ticket not found")
            else match row.value.status
                 case Emitted => (Ok, true, "ticket validated via live check")
                 case Used => (Ok, false, "ticket is used")
                 case Cancelled => (Ok, false, "ticket is cancelled")
  {
    Wording();
  }

  /** What the gate is told. Seven answers, no two alike, and what each of them means. */
  lemma ValidateAnswers(w: World, call: Call)
    requires call.Validate?
    ensures var row, record, answer := ByCode(w.db.tickets, call.c), Lookup(w.cache, call.c), Says(Validated(w, call));
            var live := call.io.get && record.None? && call.port != Down;
            var cached := call.io.get && record.Some?;
            && (answer == (Ok, true, "ticket validated successfully") <==>
                  cached && record.value.status == Active && call.io.write)
            && (answer == (Ok, true, "ticket validated via live check") <==>
                  live && row.Some? && row.value.status == Emitted)
            && (answer == (Ok, false, "ticket is used") <==>
                  || (cached && record.value.status == ValidTicketStatus.Used)
                  || (live && row.Some? && row.value.status == TicketStatus.Used))
            && (answer == (Ok, false, "ticket is cancelled") <==>
                  || (cached && record.value.status == ValidTicketStatus.Cancelled)
                  || (live && row.Some? && row.value.status == TicketStatus.Cancelled))
            && (answer == (Ok, false, "ticket not found") <==> live && row.None?)
            && (answer == (Ok, false, "unable to validate ticket at this time") <==>
                  call.io.get && record.None? && call.port == Down)
            && (answer == (Internal, false, "") <==> answer.0 != Ok)
            && (answer.0 != Ok <==> !call.io.get || (record.Some? && record.value.status == Active && !call.io.write))
  {
    var row, record, answer := ByCode(w.db.tickets, call.c), Lookup(w.cache, call.c), Says(Validated(w, call));
    if call.io.get {
      if record.Some? {
        CachedSays(record.value, call.c, call.io, call.now);
      } else {
        LiveSays(row, call.port, call.c, call.io, call.now);
      }
    }
    assert |answer.2| in {0, 14, 16, 19, 29, 31, 38};
  }

  /** What an admission writes and tells, if `eventId` is the one it tells and `stored` says whether it left a record. */
  lemma AdmissionEffect(row: Option<TicketRow>, record: Option<CacheRecord>, call: Call)
    requires call.Validate? && (row.Some? ==> row.value.code == call.c && row.value.eventId > 0 && call.c != "")
    requires record.Some? ==> row.Some? && record.value.eventId == row.value.eventId
                              && (record.value.status == Active ==> record.value.usedAt.None?)
    ensures var v := ValidateTicket(record, ReplyOf(row, call.port), call.c, call.io, call.now);
            var stored := record.Some? || (call.port == Contract && call.io.write);
            var told := record.Some? || call.port == Contract;
            if !v.result.valid then v.effect == Nothing(call.c)
            else
              && row.Some?
              && v.effect == Effect(
                   call.c, None,
                   if stored then Some(CacheRecord(row.value.eventId, ValidTicketStatus.Used, Some(call.now))) else None,
                   Some(TicketUsed(call.c, if told then row.value.eventId else 0)), call.io.publish, true, !stored, false)
  {
  }

  /** What the gate does. A refusal, or a failure, changes nothing. An admission leaves a used record
      of the ticket's event, unless the live path cannot, and tells the broker. */
  lemma ValidateDoes(trace: seq<Action>, call: Call)
    requires call.Validate?
    ensures var w, w' := Run(EMPTY, trace), Serve(Run(EMPTY, trace), call);
            var row, c := ByCode(w.db.tickets, call.c), call.c;
            if !Validated(w, call).result.valid then w' == w
            else
              var stored := c in w.cache || (call.port == Contract && call.io.write);
              && row.Some? && w'.db == w.db && w'.running == w.running
              && w'.cache == (if stored then w.cache[c := CacheRecord(row.value.eventId, ValidTicketStatus.Used, Some(call.now))]
                              else w.cache)
              && UseTold(w, w', c, if c in w.cache || call.port == Contract then row.value.eventId else 0, call.io.publish)
              && Admitted(w, w', c, !stored)
  {
    var w := Run(EMPTY, trace);
    var row, record := ByCode(w.db.tickets, call.c), Lookup(w.cache, call.c);
    RowOfCode(trace, call.c);
    RecordOfCode(trace, call.c);
    AdmissionEffect(row, record, call);
    var e := Validated(w, call).effect;
    AdmissionWorld(w, call, Answer(w, call), e);
  }

  /** `w'` is `w` after one use of `c` was told to the broker. */
  ghost predicate UseTold(w: World, w': World, c: string, eventId: int, published: bool) {
    w'.bus == if published then w.bus.(queued := w.bus.queued + multiset{TicketUsed(c, eventId)})
              else w.bus.(lost := w.bus.lost + multiset{TicketUsed(c, eventId)})
  }

  ghost predicate Admitted(w: World, w': World, c: string, missed: bool) {
    w'.hist == w.hist.(admitted := w.hist.admitted + multiset{c},
                       missed := if missed then w.hist.missed + multiset{c} else w.hist.missed)
  }

  lemma RecordOfCode(trace: seq<Action>, c: string)
    ensures var w := Run(EMPTY, trace);
            c in w.cache ==>
              var row := ByCode(w.db.tickets, c);
              && row.Some? && w.cache[c].eventId == row.value.eventId
              && (w.cache[c].status == Active ==> w.cache[c].usedAt.None?)
  {
    ReachableIsSafe(trace);
    assert Sound(View(Run(EMPTY, trace), c));
  }

  lemma AdmissionWorld(w: World, call: Call, r: Response, e: Effect)
    requires call.Validate? && r == Answer(w, call) && e == r.effect && e.row.None? && e.code == call.c
    ensures var w' := Serve(w, call);
            if e == Nothing(call.c) then w' == w
            else
              && w'.db == w.db && w'.running == w.running
              && w'.cache == (if e.record.Some? then w.cache[call.c := e.record.value] else w.cache)
              && (e.send.Some? && e.send.value.TicketUsed? && e.send.value.code == call.c ==>
                    UseTold(w, w', call.c, e.send.value.eventId, e.sent))
              && (e.admits ==> Admitted(w, w', call.c, e.missed))
  {
    assert Serve(w, call) == Apply(w, e);
    NothingElseTallied(w);
  }

  lemma NothingElseTallied(w: World)
    ensures w.hist.admitted + multiset{} == w.hist.admitted
    ensures w.hist.missed + multiset{} == w.hist.missed
    ensures w.hist.early + multiset{} == w.hist.early
  {
  }

  /* ----- the deliveries ----- */

  /** The message goes unless it is requeued, or the decision is lost. */
  ghost function QueueAfter(w: World, call: Call, handled: bool): multiset<Message>
    requires call.Deliver?
  {
    if handled && call.acked then w.bus.queued - multiset{call.message} else w.bus.queued
  }

  /** A delivery writes a row or a record, and sends nothing. */
  lemma DeliveryWorld(w: World, call: Call, r: Response)
    requires call.Deliver? && call.message in w.bus.queued && r == Answer(w, call)
    requires r.effect == Nothing(call.Code()).(row := r.effect.row, record := r.effect.record, early := r.effect.early)
    ensures var w', c := Serve(w, call), call.Code();
            && w'.db == w.db.(tickets := if r.effect.row.Some? then UpdateRow(w.db.tickets, r.effect.row.value) else w.db.tickets)
            && w'.cache == (if r.effect.record.Some? then w.cache[c := r.effect.record.value] else w.cache)
            && w'.bus == w.bus.(queued := QueueAfter(w, call, r.outcome == Ok))
            && w'.running == w.running
            && w'.hist == if r.outcome == Ok && r.effect.early && call.acked then w.hist.(early := w.hist.early + multiset{c})
                          else w.hist
  {
    assert Serve(w, call) == ServeWith(w, call, r);
    NothingElseTallied(w);
  }

  lemma MessageNamesRow(trace: seq<Action>, m: Message)
    requires m in Run(EMPTY, trace).bus.queued
    ensures var w := Run(EMPTY, trace);
            var row := ByCode(w.db.tickets, m.code);
            && row.Some? && row.value.id in w.db.tickets && w.db.tickets[row.value.id] == row.value
            && m.code != "" && (!m.TicketUsed? ==> m.eventId == row.value.eventId > 0)
  {
    ReachableIsSafe(trace);
    RowOfCode(trace, m.code);
    var v := View(Run(EMPTY, trace), m.code);
    assert Sound(v) && m in v.queued;
  }

  /** Delivering a created message. */
  lemma CreatedDoes(trace: seq<Action>, call: Call)
    requires call.Deliver? && call.message.TicketCreated? && call.message in Run(EMPTY, trace).bus.queued
    ensures var w := Run(EMPTY, trace);
            var w', outcome, m, c := Serve(w, call), Answer(w, call).outcome, call.message, call.message.code;
            && (outcome == Ok <==> call.io.get && (c in w.cache || call.io.write))
            && (outcome == Internal <==> outcome != Ok)
            && w'.cache == (if outcome == Ok && c !in w.cache then w.cache[c := CacheRecord(m.eventId, Active, None)]
                            else w.cache)
            && w'.bus == w.bus.(queued := QueueAfter(w, call, outcome == Ok))
            && w'.db == w.db && w'.running == w.running && w'.hist == w.hist
  {
    var w := Run(EMPTY, trace);
    MessageNamesRow(trace, call.message);
    DeliveryWorld(w, call, Answer(w, call));
  }

  /** Delivering a cancelled message. */
  lemma CancelledDoes(trace: seq<Action>, call: Call)
    requires call.Deliver? && call.message.TicketCancelled? && call.message in Run(EMPTY, trace).bus.queued
    ensures var w := Run(EMPTY, trace);
            var w', outcome := Serve(w, call), Answer(w, call).outcome;
            var c, record := call.message.code, Lookup(w.cache, call.message.code);
            && (outcome == Ok <==> call.io.get && (record.None? || (record.value.status == Active && call.io.write)))
            && (outcome == BusinessRule <==> call.io.get && record.Some? && record.value.status != Active)
            && outcome != NotFound
            && w'.cache == (if outcome == Ok && record.Some?
                            then w.cache[c := record.value.(status := ValidTicketStatus.Cancelled)] else w.cache)
            && w'.bus == w.bus.(queued := QueueAfter(w, call, outcome == Ok))
            && w'.db == w.db && w'.running == w.running
            && w'.hist == if outcome == Ok && record.None? && call.acked then w.hist.(early := w.hist.early + multiset{c})
                          else w.hist
  {
    DeliveryWorld(Run(EMPTY, trace), call, Answer(Run(EMPTY, trace), call));
  }

  lemma UsedResponds(row: Option<TicketRow>, code: string, io: IO, now: int)
    requires row.Some?
    ensures var r := Calls.SyncTicketUsed(row, code, io, now);
            && (r.outcome == Ok <==>
                  io.get && (row.value.status == TicketStatus.Used || (row.value.status == Emitted && io.write)))
            && (r.outcome == Internal <==> r.outcome != Ok)
            && var marked := row.value.(status := TicketStatus.Used, usedAt := Some(now));
               r.effect == Nothing(code).(row := if r.outcome == Ok && row.value.status == Emitted then Some(marked) else None)
  {
  }

  /** Delivering a used message. */
  lemma UsedDoes(trace: seq<Action>, call: Call)
    requires call.Deliver? && call.message.TicketUsed? && call.message in Run(EMPTY, trace).bus.queued
    ensures var w := Run(EMPTY, trace);
            var w', outcome, row := Serve(w, call), Answer(w, call).outcome, ByCode(w.db.tickets, call.message.code);
            && row.Some?
            && (outcome == Ok <==>
                  call.io.get && (row.value.status == TicketStatus.Used || (row.value.status == Emitted && call.io.write)))
            && (outcome == Internal <==> outcome != Ok)
            && (if outcome == Ok && row.value.status == Emitted then
                  RowWritten(w, w', row.value.(status := TicketStatus.Used, usedAt := Some(call.now)))
                else w'.db == w.db && w'.cache == w.cache && w'.running == w.running)
            && w'.bus == w.bus.(queued := QueueAfter(w, call, outcome == Ok)) && w'.hist == w.hist
  {
    var w := Run(EMPTY, trace);
    var row := ByCode(w.db.tickets, call.message.code);
    MessageNamesRow(trace, call.message);
    UsedResponds(row, call.message.code, call.io, call.now);
    DeliveryWorld(w, call, Answer(w, call));
  }
}
