/** The guarantees of the protocol, for every run from the empty world: any
    interleaving of calls, deliveries, redeliveries, purchase steps and failures. */
module Guarantees {
  import opened Wrappers
  import opened Messages
  import opened TicketDomain
  import opened TicketStore
  import opened ValidatorDomain
  import opened Calls
  import opened Protocol
  import opened Views
  import opened Accounting
  import opened Safety

  /* ----- admission ----- */

  /** The history counts what callers are told: an admission is an answer with
      Valid = true, and it is missed when no record of it was written. */
  lemma AdmitsIffValid(record: Option<CacheRecord>, reply: Reply, code: string, io: IO, now: int)
    ensures var v := ValidateTicket(record, reply, code, io, now);
            && (v.effect.admits <==> v.result.valid)
            && (v.effect.missed <==> v.result.valid && v.effect.record.None?)
            && (v.result.valid ==> v.outcome == Ok && v.effect.send.Some?)
  {
  }

  /** The ticket can enter: active in the cache, or not cached and emitted when looked up. */
  predicate Opens(v: CodeView, call: Call)
    requires call.Validate?
  {
    && call.io.get
    && if v.record.Some? then v.record.value.status == Active && call.io.write
       else call.port != Down && v.row.Some? && v.row.value.status == Emitted
  }

  lemma ValidateAdmitsIff(v: CodeView, call: Call)
    requires call.Validate?
    ensures ServeView(v, call).admitted == v.admitted + Count(Opens(v, call))
  {
  }

  /** A code is admitted once per use recorded in the cache, plus once per live
      admission whose record was not written. So without such a miss, at most once. */
  lemma AdmissionLaw(trace: seq<Action>, c: string)
    ensures var w := Run(EMPTY, trace);
            && w.hist.admitted[c] == w.hist.missed[c] + Count(Is(Lookup(w.cache, c), ValidTicketStatus.Used))
            && (w.hist.missed[c] == 0 ==> w.hist.admitted[c] <= 1)
  {
    ReachableIsSafe(trace);
    assert Sound(View(Run(EMPTY, trace), c));
  }

  /** A validation whose cache write succeeds and whose lookup, if answered, supplies the event id. */
  predicate Recorded(a: Action) {
    a.Request? && a.call.Validate? ==> a.call.io.write && a.call.port != HttpClient
  }

  lemma RespondRecords(row: Option<TicketRow>, record: Option<CacheRecord>, call: Call)
    requires row.Some? ==> row.value.eventId > 0 && row.value.code != ""
    requires Recorded(Request(call))
    ensures !Respond(row, record, call).effect.missed
  {
  }

  lemma StepRecords(w: World, a: Action)
    requires Safe(w) && Recorded(a)
    ensures Step(w, a).hist.missed == w.hist.missed
  {
    if a.Request? {
      var v := View(w, a.call.Code());
      assert Sound(v);
      var r := RespondIsLocal(v.row, v.record, a.call);
      RespondRecords(v.row, v.record, a.call);
      assert ServeWith(w, a.call, r).hist.missed == w.hist.missed + multiset{};
    }
  }

  lemma {:induction false} RunRecords(w: World, trace: seq<Action>)
    requires Safe(w) && forall a :: a in trace ==> Recorded(a)
    ensures Run(w, trace).hist.missed == w.hist.missed
    decreases |trace|
  {
    if trace != [] {
      assert trace[0] in trace;
      StepRecords(w, trace[0]);
      StepKeepsSafe(w, trace[0]);
      RunRecords(Step(w, trace[0]), trace[1..]);
    }
  }

  /** At most one admission: when cache writes succeed and lookups honour their
      contract, no code is admitted twice, on either path, whatever is cancelled,
      lost, delivered or delivered again in between. */
  lemma AtMostOnce(trace: seq<Action>, c: string)
    requires forall a :: a in trace ==> Recorded(a)
    ensures Run(EMPTY, trace).hist.admitted[c] <= 1
  {
    ReachableIsSafe([]);
    RunRecords(EMPTY, trace);
    AdmissionLaw(trace, c);
  }

  /** A live admission leaves the row alone, and a used record unless it misses. */
  lemma LiveAdmission(v: CodeView, call: Call)
    requires Sound(v) && v.row.Some? && v.row.value.status == Emitted && v.record.None?
    requires call.Validate? && call.io.get && call.port != Down && call.c == v.row.value.code
    ensures var v', missed := ServeView(v, call), !call.io.write || call.port == HttpClient;
            && v'.row == v.row && v'.missed == v.missed + Count(missed)
            && if missed then v'.record == v.record else Is(v'.record, ValidTicketStatus.Used)
  {
  }

  /** The condition is exact: after a live admission the next validation admits
      again if and only if the record was missed, which happens exactly when
      the cache write failed or the lookup did not supply the event id. */
  lemma ReadmitsIffMissed(v: CodeView, first: Call, second: Call)
    requires Sound(v) && v.row.Some? && v.row.value.status == Emitted && v.record.None?
    requires first.Validate? && first.io.get && first.port != Down && first.c == v.row.value.code
    requires second.Validate? && second.io.get && second.io.write && second.port != Down && second.c == first.c
    ensures var v1 := ServeView(v, first);
            var v2 := ServeView(v1, second);
            var missed := !first.io.write || first.port == HttpClient;
            && v1.admitted == v.admitted + 1
            && v1.missed == v.missed + Count(missed)
            && v2.admitted == v1.admitted + Count(missed)
  {
    LiveAdmission(v, first);
    ValidateAdmitsIff(v, first);
    ValidateAdmitsIff(ServeView(v, first), second);
  }

  /* ----- statuses move once ----- */

  /** Keys are fixed, and a status changes only if it is the initial one. */
  predicate MovesOnce(v: CodeView, v': CodeView) {
    && (v.row.Some? ==>
          && v'.row.Some? && SameTicket(v'.row.value, v.row.value)
          && (v'.row == v.row || v.row.value.status == Emitted))
    && (v.record.Some? ==>
          && v'.record.Some? && v'.record.value.eventId == v.record.value.eventId
          && (v'.record == v.record || v.record.value.status == Active))
  }

  /** `v'` may come later than `v` in a run of whole calls. */
  predicate Later(v: CodeView, v': CodeView) {
    MovesOnce(v, v') && (v.record.Some? ==> v'.missed == v.missed)
  }

  lemma RespondAdvances(row: Option<TicketRow>, record: Option<CacheRecord>, call: Call)
    requires row.Some? ==> row.value.code == call.Code()
    ensures var e := Respond(row, record, call).effect;
            && (e.row.Some? ==> row.Some? && row.value.status == Emitted && SameTicket(e.row.value, row.value))
            && (record.Some? && e.record.Some? ==>
                  record.value.status == Active && e.record.value.eventId == record.value.eventId)
            && (record.Some? ==> !e.missed)
  {
    match call
    case Validate(_, _, _, _) =>
    case Cancel(_, _) =>
    case Deliver(_, _, _, _) =>
  }

  lemma ServeIsLater(v: CodeView, call: Call)
    requires v.row.Some? ==> v.row.value.code == call.Code()
    ensures Later(v, ServeView(v, call))
  {
    RespondAdvances(v.row, v.record, call);
    AdvanceIsLater(v, call, Respond(v.row, v.record, call));
  }

  lemma AdvanceIsLater(v: CodeView, call: Call, r: Response)
    requires r.effect.row.Some? ==>
               v.row.Some? && v.row.value.status == Emitted && SameTicket(r.effect.row.value, v.row.value)
    requires v.record.Some? && r.effect.record.Some? ==>
               v.record.value.status == Active && r.effect.record.value.eventId == v.record.value.eventId
    requires v.record.Some? ==> !r.effect.missed
    ensures Later(v, ServeViewWith(v, call, r))
  {
    var v' := ApplyView(v, r.effect);
    assert Later(v, v');
    assert ServeViewWith(v, call, r).row == v'.row && ServeViewWith(v, call, r).record == v'.record;
    assert ServeViewWith(v, call, r).missed == v'.missed;
  }

  lemma StepIsLater(w: World, a: Action, c: string)
    requires Safe(w)
    ensures Later(View(w, c), View(Step(w, a), c))
  {
    if SameViews(w, Step(w, a)) {
      assert View(Step(w, a), c) == View(w, c);
    } else if a.EmitTicket? {
      EmitView(w, a, c);
    } else if a.AnnounceTicket? {
      AnnounceIsLocal(w, a, c);
    } else if a.Request? {
      ServeIsLocal(w, a.call, c);
      if c == a.call.Code() {
        ServeIsLater(View(w, c), a.call);
      }
    } else {
      QuietStep(w, a);
    }
  }

  /** Along every run the row and the record of a code each leave their initial
      status at most once, and nothing else about them ever changes. */
  lemma {:induction false} StatusesMoveOnce(w: World, trace: seq<Action>, c: string)
    requires Safe(w)
    ensures Later(View(w, c), View(Run(w, trace), c))
    decreases |trace|
  {
    if trace != [] {
      StepIsLater(w, trace[0], c);
      StepKeepsSafe(w, trace[0]);
      StatusesMoveOnce(Step(w, trace[0]), trace[1..], c);
    }
  }

  /** Once the cache says used or cancelled, no later validation admits the code. */
  lemma NoAdmissionAfterClosing(w: World, trace: seq<Action>, c: string)
    requires Safe(w) && c in w.cache && w.cache[c].status != Active
    ensures var w' := Run(w, trace);
            && c in w'.cache && w'.cache[c] == w.cache[c]
            && w'.hist.admitted[c] == w.hist.admitted[c]
  {
    StatusesMoveOnce(w, trace, c);
    RunKeepsSafe(w, trace);
    assert Sound(View(w, c)) && Sound(View(Run(w, trace), c));
  }

  /** `usedAt` is set exactly when the status is used, in both stores. */
  lemma UsedAtMarksUse(trace: seq<Action>)
    ensures var w := Run(EMPTY, trace);
            && (forall id :: id in w.db.tickets ==>
                  (w.db.tickets[id].status == TicketStatus.Used <==> w.db.tickets[id].usedAt.Some?))
            && (forall c :: c in w.cache ==>
                  (w.cache[c].status == ValidTicketStatus.Used <==> w.cache[c].usedAt.Some?))
  {
    ReachableIsSafe(trace);
    var w := Run(EMPTY, trace);
    forall id | id in w.db.tickets
      ensures w.db.tickets[id].status == TicketStatus.Used <==> w.db.tickets[id].usedAt.Some?
    {
      ByCodeFinds(w.db.tickets, w.db.nextTicket, id);
      assert Sound(View(w, w.db.tickets[id].code));
    }
    forall c | c in w.cache ensures w.cache[c].status == ValidTicketStatus.Used <==> w.cache[c].usedAt.Some? {
      assert Sound(View(w, c));
    }
  }

  /* ----- provenance ----- */

  /** Every code in the cache or in a message names a ticket row; the record
      carries the row's event id and the message says what the row says. So no
      consumer ever meets the "ticket not found" branch of SyncTicketUsed. */
  lemma Provenance(trace: seq<Action>)
    ensures var w := Run(EMPTY, trace);
            && (forall c :: c in w.cache ==>
                  var row := ByCode(w.db.tickets, c);
                  row.Some? && w.cache[c].eventId == row.value.eventId)
            && (forall m :: m in w.bus.queued || m in w.bus.lost ==>
                  var row := ByCode(w.db.tickets, m.code);
                  row.Some? && Genuine(m, row.value))
  {
    ReachableIsSafe(trace);
    var w := Run(EMPTY, trace);
    forall c | c in w.cache
      ensures ByCode(w.db.tickets, c).Some? && w.cache[c].eventId == ByCode(w.db.tickets, c).value.eventId
    {
      assert Sound(View(w, c));
    }
    forall m: Message | m in w.bus.queued || m in w.bus.lost
      ensures ByCode(w.db.tickets, m.code).Some? && Genuine(m, ByCode(w.db.tickets, m.code).value)
    {
      assert Sound(View(w, m.code));
      assert m in View(w, m.code).queued || m in View(w, m.code).lost;
    }
  }

  /** A validation whose lookup, if answered, supplies the event id. */
  predicate Honest(a: Action) {
    a.Request? && a.call.Validate? ==> a.call.port != HttpClient
  }

  function UsedOf(t: TicketRow): Message {
    TicketUsed(t.code, t.eventId)
  }

  ghost predicate UsesExact(v: CodeView) {
    v.row.Some? ==> forall m :: (m in v.queued || m in v.lost) && m.TicketUsed? ==> m == UsedOf(v.row.value)
  }

  lemma HonestUse(row: Option<TicketRow>, record: Option<CacheRecord>, call: Call)
    requires Honest(Request(call)) && (row.Some? ==> row.value.code == call.Code())
    requires record.Some? ==> row.Some? && record.value.eventId == row.value.eventId
    ensures var e := Respond(row, record, call).effect;
            && (e.row.Some? ==> row.Some? && UsedOf(e.row.value) == UsedOf(row.value))
            && (e.send.Some? ==> row.Some? && (e.send.value.TicketUsed? ==> e.send.value == UsedOf(row.value)))
  {
  }

  lemma ServeKeepsExact(v: CodeView, call: Call, r: Response)
    requires UsesExact(v) && v.row.Some?
    requires r.effect.row.Some? ==> UsedOf(r.effect.row.value) == UsedOf(v.row.value)
    requires r.effect.send.Some? && r.effect.send.value.TicketUsed? ==> r.effect.send.value == UsedOf(v.row.value)
    ensures UsesExact(ServeViewWith(v, call, r))
  {
    var v' := ApplyView(v, r.effect);
    assert forall m :: m in v'.queued || m in v'.lost ==> m in v.queued || m in v.lost || r.effect.send == Some(m);
    assert UsesExact(v');
    assert forall m :: m in ServeViewWith(v, call, r).queued ==> m in v'.queued;
  }

  lemma RequestKeepsExact(w: World, call: Call, c: string)
    requires Safe(w) && Honest(Request(call)) && UsesExact(View(w, c))
    ensures UsesExact(View(Serve(w, call), c))
  {
    var v := View(w, c);
    assert Sound(v);
    ServeIsLocal(w, call, c);
    if c == call.Code() && ServeView(v, call) != v {
      HonestUse(v.row, v.record, call);
      if v.row.Some? {
        ServeKeepsExact(v, call, Respond(v.row, v.record, call));
      }
    }
  }

  lemma StepKeepsExact(w: World, a: Action, c: string)
    requires Safe(w) && Honest(a) && UsesExact(View(w, c))
    ensures UsesExact(View(Step(w, a), c))
  {
    if SameViews(w, Step(w, a)) {
      assert View(Step(w, a), c) == View(w, c);
    } else if a.EmitTicket? {
      assert Sound(View(w, c));
      EmitView(w, a, c);
    } else if a.AnnounceTicket? {
      AnnounceKeepsExact(w, a, c);
    } else if a.Request? {
      RequestKeepsExact(w, a.call, c);
    } else {
      QuietStep(w, a);
    }
  }

  lemma AnnounceKeepsExact(w: World, a: Action, c: string)
    requires Safe(w) && a.AnnounceTicket? && !SameViews(w, Step(w, a)) && UsesExact(View(w, c))
    ensures UsesExact(View(Step(w, a), c))
  {
    AnnounceIsLocal(w, a, c);
  }

  lemma {:induction false} RunKeepsExact(w: World, trace: seq<Action>, c: string)
    requires Safe(w) && UsesExact(View(w, c)) && forall a :: a in trace ==> Honest(a)
    ensures UsesExact(View(Run(w, trace), c))
    decreases |trace|
  {
    if trace != [] {
      assert trace[0] in trace;
      StepKeepsExact(w, trace[0], c);
      StepKeepsSafe(w, trace[0]);
      RunKeepsExact(Step(w, trace[0]), trace[1..], c);
    }
  }

  /** When lookups honour their contract, every message says exactly what the row says. */
  lemma HonestProvenance(trace: seq<Action>, m: Message)
    requires forall a :: a in trace ==> Honest(a)
    requires m in Run(EMPTY, trace).bus.queued || m in Run(EMPTY, trace).bus.lost
    ensures var row := ByCode(Run(EMPTY, trace).db.tickets, m.code);
            row.Some? && m == match m
                              case TicketCreated(_, _, _) => TicketCreated(row.value.id, row.value.code, row.value.eventId)
                              case TicketCancelled(_, _, _) => TicketCancelled(row.value.id, row.value.code, row.value.eventId)
                              case TicketUsed(_, _) => TicketUsed(row.value.code, row.value.eventId)
  {
    ReachableIsSafe([]);
    Provenance(trace);
    RunKeepsExact(EMPTY, trace, m.code);
    var v := View(Run(EMPTY, trace), m.code);
    assert m in v.queued || m in v.lost;
  }

  /* ----- reconciliation and cancellation ----- */

  ghost predicate UsedAbout(q: multiset<Message>, c: string) {
    exists m :: m in q && m.TicketUsed? && m.code == c
  }

  lemma UsedAboutIsLocal(q: multiset<Message>, c: string)
    ensures UsedAbout(q, c) <==> HasUsed(About(q, c))
  {
    if UsedAbout(q, c) {
      var m :| m in q && m.TicketUsed? && m.code == c;
      assert m in About(q, c);
    }
    if HasUsed(About(q, c)) {
      var m :| m in About(q, c) && m.TicketUsed?;
      assert m in q && m.code == c;
    }
  }

  /** A code has been admitted if and only if the database says used, or a used
      message about it is queued, or its publish was lost. */
  lemma Reconciliation(trace: seq<Action>, c: string)
    ensures var w := Run(EMPTY, trace);
            var row := ByCode(w.db.tickets, c);
            w.hist.admitted[c] > 0 <==>
              || (row.Some? && row.value.status == TicketStatus.Used)
              || UsedAbout(w.bus.queued, c) || UsedAbout(w.bus.lost, c)
  {
    ReachableIsSafe(trace);
    var w := Run(EMPTY, trace);
    assert Sound(View(w, c));
    UsedAboutIsLocal(w.bus.queued, c);
    UsedAboutIsLocal(w.bus.lost, c);
  }

  /** A ticket is cancelled in the database if and only if the cache says
      cancelled, or the cancelled message is queued, or its publish was lost,
      or it was consumed before the cache had a record. */
  lemma CancellationTracking(trace: seq<Action>, c: string)
    ensures var w := Run(EMPTY, trace);
            var row := ByCode(w.db.tickets, c);
            row.Some? ==>
              var m := TicketCancelled(row.value.id, c, row.value.eventId);
              (row.value.status == TicketStatus.Cancelled <==>
                 || Is(Lookup(w.cache, c), ValidTicketStatus.Cancelled)
                 || m in w.bus.queued || m in w.bus.lost
                 || w.hist.early[c] > 0)
  {
    ReachableIsSafe(trace);
    var w := Run(EMPTY, trace);
    assert Sound(View(w, c));
    if ByCode(w.db.tickets, c).Some? {
      var m := CancelledOf(ByCode(w.db.tickets, c).value);
      assert m in w.bus.queued <==> m in About(w.bus.queued, c);
      assert m in w.bus.lost <==> m in About(w.bus.lost, c);
    }
  }
}
