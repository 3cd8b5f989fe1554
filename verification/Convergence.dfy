/** Exactly when the two stores agree in the end: which early cancellations and which lost
    messages keep them apart. */
module Convergence {
  import opened Wrappers
  import opened Messages
  import opened TicketDomain
  import opened TicketStore
  import opened ValidatorDomain
  import opened Calls
  import opened PurchaseSteps
  import opened Protocol
  import opened Views
  import opened Safety
  import opened Guarantees
  import opened Draining

  /** The row and the record of `c` say the same; or it was used at the gate and cancelled
      in the database at once, and both messages about it are still queued. */
  ghost predicate Agreed(w: World, c: string) {
    var row := ByCode(w.db.tickets, c);
    && row.Some? && c in w.cache
    && match w.cache[c].status
       case Active => row.value.status == Emitted
       case Used => || row.value.status == TicketStatus.Used
                    || (row.value.status == TicketStatus.Cancelled
                        && UsedAbout(w.bus.queued, c) && CancelledOf(row.value) in w.bus.queued)
       case Cancelled => row.value.status == TicketStatus.Cancelled
  }

  ghost predicate AgreedView(v: CodeView) {
    && v.row.Some? && v.record.Some?
    && match v.record.value.status
       case Active => v.row.value.status == Emitted
       case Used => || v.row.value.status == TicketStatus.Used
                    || (v.row.value.status == TicketStatus.Cancelled
                        && HasUsed(v.queued) && CancelledOf(v.row.value) in v.queued)
       case Cancelled => v.row.value.status == TicketStatus.Cancelled
  }

  lemma AgreedIsLocal(w: World, c: string)
    ensures Agreed(w, c) <==> AgreedView(View(w, c))
  {
    UsedAboutIsLocal(w.bus.queued, c);
    var row := ByCode(w.db.tickets, c);
    if row.Some? {
      assert CancelledOf(row.value) in View(w, c).queued <==> CancelledOf(row.value) in w.bus.queued;
    }
  }

  /** A view that nothing queued can change any more. */
  ghost predicate Settled(v: CodeView) {
    Sound(v) && v.row.Some? && forall m :: m in v.queued ==> Left(v, m)
  }

  /** The validator heard of the ticket; no cancellation was early or lost; and if an admission
      is on record one of the uses arrived, else none did, unless the ticket is cancelled. */
  predicate NewsArrived(v: CodeView, t: TicketRow) {
    && (v.announced || v.missed < v.admitted)
    && v.early == 0 && CancelledOf(t) !in v.lost
    && if v.missed < v.admitted then UsedCount(v.lost, t) < v.admitted
       else UsedCount(v.lost, t) == v.admitted || t.status == TicketStatus.Cancelled
  }

  /** Nothing is queued that could go, so what is queued about a ticket that is not cancelled is no use. */
  lemma SettledMail(v: CodeView)
    requires Settled(v)
    ensures CreatedOf(v.row.value) !in v.queued
    ensures v.row.value.status != TicketStatus.Cancelled ==> UsedCount(v.queued, v.row.value) == 0
    ensures HasUsed(v.queued) <==> UsedCount(v.queued, v.row.value) > 0
    ensures v.record.Some? && v.record.value.status == Active ==> CancelledOf(v.row.value) !in v.queued
  {
    var t := v.row.value;
    UsedIffCounted(v.queued, t);
    var created, cancelled := CreatedOf(t), CancelledOf(t);
    assert !Left(v, created);
    assert cancelled in v.queued ==> Left(v, cancelled);
  }

  lemma AgreedIffNews(v: CodeView)
    requires Settled(v)
    ensures AgreedView(v) <==> NewsArrived(v, v.row.value)
  {
    SettledMail(v);
  }

  /* ----- early cancellations, as deliveries ----- */

  /** The step acknowledges a cancellation of `c`, which the validator has not cached. */
  ghost predicate ConsumesEarly(w: World, a: Action, c: string) {
    && a.Request? && a.call.Deliver? && a.call.message.TicketCancelled? && a.call.message.code == c
    && a.call.message in w.bus.queued && a.call.io.get && a.call.acked
    && c !in w.cache
  }

  ghost function EarlyDeliveries(w: World, trace: seq<Action>, c: string): nat
    decreases |trace|
  {
    if trace == [] then 0 else Count(ConsumesEarly(w, trace[0], c)) + EarlyDeliveries(Step(w, trace[0]), trace[1..], c)
  }

  lemma EarlyResponse(row: Option<TicketRow>, record: Option<CacheRecord>, call: Call)
    ensures var r := Respond(row, record, call);
            r.effect.early <==> call.Deliver? && call.message.TicketCancelled? && call.io.get && record.None?
    ensures Respond(row, record, call).effect.early ==> Respond(row, record, call).outcome == Ok
  {
  }

  lemma ServeCountsEarly(w: World, call: Call, c: string)
    ensures Serve(w, call).hist.early[c] == w.hist.early[c] + Count(ConsumesEarly(w, Request(call), c))
  {
    EarlyResponse(ByCode(w.db.tickets, call.Code()), Lookup(w.cache, call.Code()), call);
    TallyIsLocal(w.hist.early, Answer(w, call).effect.early, call.Code(), c);
  }

  lemma StepCountsEarly(w: World, a: Action, c: string)
    ensures Step(w, a).hist.early[c] == w.hist.early[c] + Count(ConsumesEarly(w, a, c))
  {
    if a.Request? {
      RequestIsServe(w, a.call);
      ServeCountsEarly(w, a.call, c);
    } else {
      PurchaseIsNotEarly(w, a);
    }
  }

  lemma PurchaseIsNotEarly(w: World, a: Action)
    requires !a.Request?
    ensures Step(w, a).hist.early == w.hist.early
  {
  }

  lemma {:induction false} RunCountsEarly(w: World, trace: seq<Action>, c: string)
    ensures Run(w, trace).hist.early[c] == w.hist.early[c] + EarlyDeliveries(w, trace, c)
    decreases |trace|
  {
    if trace != [] {
      StepCountsEarly(w, trace[0], c);
      RunCountsEarly(Step(w, trace[0]), trace[1..], c);
    }
  }

  /** How many uses of ticket `t` were lost. */
  function UsesLost(w: World, t: TicketRow): nat {
    UsedCount(w.bus.lost, t)
  }

  /** The exact condition, for every ticket of every run, once nothing about it can be acknowledged: the
      stores agree on it if and only if the validator heard of it, by its creation or by an admission on
      record; no delivery acknowledged a cancellation of it uncached, and none was lost; and if
      an admission is on record not all uses were lost, else all were (there may be none), unless it is cancelled. */
  lemma ConvergesIff(trace: seq<Action>, c: string)
    ensures var w := Run(EMPTY, trace);
            var row := ByCode(w.db.tickets, c);
            row.Some? && QuietFor(w, c) ==>
              (Agreed(w, c) <==>
                 && (c in w.hist.announced || w.hist.missed[c] < w.hist.admitted[c])
                 && EarlyDeliveries(EMPTY, trace, c) == 0 && CancelledOf(row.value) !in w.bus.lost
                 && if w.hist.missed[c] < w.hist.admitted[c] then UsesLost(w, row.value) < w.hist.admitted[c]
                    else UsesLost(w, row.value) == w.hist.admitted[c] || row.value.status == TicketStatus.Cancelled)
  {
    ReachableIsSafe(trace);
    RunCountsEarly(EMPTY, trace, c);
    var w := Run(EMPTY, trace);
    if ByCode(w.db.tickets, c).Some? && QuietFor(w, c) {
      QuietIsSettled(w, c);
      AgreedIsLocal(w, c);
      LostIsLocal(w, c);
      AgreedIffNews(View(w, c));
    }
  }

  /** For announced tickets no live admission of which missed the cache: if and only if no
      cancellation of it was consumed uncached and no use or cancellation of it was lost. */
  lemma AnnouncedConvergesIff(trace: seq<Action>, c: string)
    ensures var w := Run(EMPTY, trace);
            c in w.hist.announced && w.hist.missed[c] == 0 && QuietFor(w, c) ==>
              (Agreed(w, c) <==>
                 && EarlyDeliveries(EMPTY, trace, c) == 0
                 && forall m :: m in w.bus.lost && m.code == c ==> m.TicketCreated?)
  {
    ConvergesIff(trace, c);
    ReachableIsSafe(trace);
    var w := Run(EMPTY, trace);
    var v := View(w, c);
    if c in w.hist.announced && w.hist.missed[c] == 0 && QuietFor(w, c) {
      assert Sound(v);
      LostIsLocal(w, c);
      OnlyCreationsLost(v);
    }
  }

  /** With no admission missed, at most one use was published. */
  lemma OnlyCreationsLost(v: CodeView)
    requires Sound(v) && v.row.Some? && v.missed == 0
    ensures (forall m :: m in v.lost ==> m.TicketCreated?) <==>
              CancelledOf(v.row.value) !in v.lost && UsedCount(v.lost, v.row.value) == 0
    ensures v.admitted == 0 ==> UsedCount(v.lost, v.row.value) == 0
    ensures v.admitted <= 1
  {
    UsedIffCounted(v.lost, v.row.value);
    if CancelledOf(v.row.value) !in v.lost && UsedCount(v.lost, v.row.value) == 0 {
      forall m | m in v.lost ensures m.TicketCreated? {
        assert Genuine(m, v.row.value);
      }
    }
  }

  lemma QuietIsSettled(w: World, c: string)
    requires Safe(w) && ByCode(w.db.tickets, c).Some? && QuietFor(w, c)
    ensures Settled(View(w, c))
  {
    var v := View(w, c);
    assert Sound(v);
    forall m | m in v.queued ensures Left(v, m) {
      assert m in w.bus.queued && m.code == c;
      StuckIff(w, m);
    }
  }

  lemma LostIsLocal(w: World, c: string)
    ensures var v := View(w, c);
            && (forall m :: m in v.lost <==> m in w.bus.lost && m.code == c)
            && (v.row.Some? ==>
                  && UsedCount(v.lost, v.row.value) == UsesLost(w, v.row.value)
                  && (CancelledOf(v.row.value) in v.lost <==> CancelledOf(v.row.value) in w.bus.lost))
  {
  }

  /* ----- delivery order ----- */

  /** A handler of a created message of `c` succeeds, whether its acknowledgement arrives or not. */
  ghost predicate HandlesCreation(w: World, a: Action) {
    a.Request? && Succeeds(w, a.call) && a.call.message.TicketCreated?
  }

  ghost predicate ConsumesCancellation(w: World, a: Action) {
    a.Request? && Succeeds(w, a.call) && a.call.acked && a.call.message.TicketCancelled?
  }

  /** A cancellation is consumed only after a creation of its code was handled, in this
      run or before it, when `handled` were. */
  ghost predicate CreationsFirst(w: World, trace: seq<Action>, handled: set<string>)
    decreases |trace|
  {
    trace != [] ==>
      && (ConsumesCancellation(w, trace[0]) ==> trace[0].call.message.code in handled)
      && CreationsFirst(
           Step(w, trace[0]), trace[1..],
           if HandlesCreation(w, trace[0]) then handled + {trace[0].call.message.code} else handled)
  }

  lemma CreationCaches(v: CodeView, call: Call)
    requires call.Deliver? && call.message.TicketCreated? && call.message in v.queued
    requires Respond(v.row, v.record, call).outcome == Ok
    ensures ServeView(v, call).record.Some?
  {
  }

  lemma CreationIsCached(w: World, a: Action)
    requires Safe(w) && HandlesCreation(w, a)
    ensures a.call.message.code in Step(w, a).cache
  {
    var c := a.call.message.code;
    RequestIsServe(w, a.call);
    ServeIsLocal(w, a.call, c);
    CreationCaches(View(w, c), a.call);
    assert View(Serve(w, a.call), c).record.Some?;
  }

  lemma CacheStays(w: World, a: Action, c: string)
    requires Safe(w) && c in w.cache
    ensures c in Step(w, a).cache
  {
    StepIsLater(w, a, c);
  }

  lemma EarlyIsConsumed(w: World, a: Action, c: string)
    ensures ConsumesEarly(w, a, c) ==> ConsumesCancellation(w, a)
  {
  }

  /** In that order no cancellation is ever early. */
  lemma {:induction false} CreationsFirstIsNeverEarly(w: World, trace: seq<Action>, handled: set<string>, c: string)
    requires Safe(w) && CreationsFirst(w, trace, handled) && handled <= w.cache.Keys
    ensures EarlyDeliveries(w, trace, c) == 0
    decreases |trace|
  {
    if trace != [] {
      var a := trace[0];
      EarlyIsConsumed(w, a, c);
      var handled' := if HandlesCreation(w, a) then handled + {a.call.message.code} else handled;
      forall x | x in handled' ensures x in Step(w, a).cache {
        if x in handled {
          CacheStays(w, a, x);
        } else {
          CreationIsCached(w, a);
        }
      }
      StepKeepsSafe(w, a);
      CreationsFirstIsNeverEarly(Step(w, a), trace[1..], handled', c);
    }
  }

  lemma CancelUncached(v: CodeView, m: Message, now: int)
    requires m in v.queued && m.TicketCancelled? && v.record.None?
    ensures ServeView(v, CleanDelivery(m, now)) == v.(queued := v.queued - multiset{m}, early := v.early + 1)
  {
  }

  lemma CancelCached(v: CodeView, m: Message, now: int)
    requires m in v.queued && m.TicketCancelled? && v.record.Some? && v.record.value.status == Active
    ensures ServeView(v, CleanDelivery(m, now)).record == ValidatorDomain.MarkCancelled(v.record.value)
    ensures ServeView(v, CleanDelivery(m, now)).admitted == v.admitted
  {
  }

  lemma CreateUncached(v: CodeView, m: Message, now: int)
    requires m in v.queued && m.TicketCreated? && m.code != "" && m.eventId > 0 && v.record.None?
    ensures ServeView(v, CleanDelivery(m, now)) ==
            v.(record := Some(CacheRecord(m.eventId, Active, None)), queued := v.queued - multiset{m})
  {
  }

  /** Why the order matters: of a cancelled ticket the validator has not heard of, with both
      messages queued, the holder is admitted if the cancellation comes first, and
      refused if it comes second. */
  lemma OrderDecidesAdmission(v: CodeView, s: Call, now: int)
    requires Sound(v) && Draining.Cancelled(v.row) && v.record.None?
    requires CreatedOf(v.row.value) in v.queued && CancelledOf(v.row.value) in v.queued
    requires s.Validate? && s.io == ALL_UP
    ensures var created := CleanDelivery(CreatedOf(v.row.value), now);
            var cancelled := CleanDelivery(CancelledOf(v.row.value), now);
            && ServeView(ServeView(ServeView(v, cancelled), created), s).admitted == v.admitted + 1
            && ServeView(ServeView(ServeView(v, created), cancelled), s).admitted == v.admitted
  {
    var created, cancelled := CreatedOf(v.row.value), CancelledOf(v.row.value);
    CancelUncached(v, cancelled, now);
    var early := ServeView(v, CleanDelivery(cancelled, now));
    CreateUncached(early, created, now);
    ValidateAdmitsIff(ServeView(early, CleanDelivery(created, now)), s);
    CreateUncached(v, created, now);
    var known := ServeView(v, CleanDelivery(created, now));
    CancelCached(known, cancelled, now);
    ValidateAdmitsIff(ServeView(known, CleanDelivery(cancelled, now)), s);
  }

  /** A call or an announcement whose publish succeeds. */
  predicate Published(a: Action) {
    match a
    case AnnounceTicket(_, up) => up
    case Request(Validate(_, _, io, _)) => io.publish
    case Request(Cancel(_, io)) => io.publish
    case _ => true
  }

  lemma RespondPublishes(row: Option<TicketRow>, record: Option<CacheRecord>, call: Call)
    requires Published(Request(call))
    ensures var e := Respond(row, record, call).effect; e.send.Some? ==> e.sent
  {
  }

  lemma StepPublishes(w: World, a: Action)
    requires Safe(w) && Published(a)
    ensures Step(w, a).bus.lost == w.bus.lost
  {
    if a.Request? {
      var v := View(w, a.call.Code());
      var r := RespondIsLocal(v.row, v.record, a.call);
      RespondPublishes(v.row, v.record, a.call);
      ServeWithPublishes(w, a.call, r);
    }
  }

  lemma ServeWithPublishes(w: World, call: Call, r: Response)
    requires r.effect.send.Some? ==> r.effect.sent
    ensures ServeWith(w, call, r).bus.lost == w.bus.lost
  {
  }

  lemma {:induction false} RunPublishes(w: World, trace: seq<Action>)
    requires Safe(w) && forall a :: a in trace ==> Published(a)
    ensures Run(w, trace).bus.lost == w.bus.lost
    decreases |trace|
  {
    if trace != [] {
      assert trace[0] in trace;
      StepPublishes(w, trace[0]);
      StepKeepsSafe(w, trace[0]);
      RunPublishes(Step(w, trace[0]), trace[1..]);
    }
  }

  /** The stores agree on every announced ticket once nothing more can be acknowledged, in
      every run whose publishes and cache writes succeed, whose lookups honour their
      contract, and whose cancellations are consumed after the creation was handled. */
  lemma CleanRunsConverge(trace: seq<Action>, c: string)
    requires forall a :: a in trace ==> Recorded(a) && Published(a)
    requires CreationsFirst(EMPTY, trace, {})
    ensures var w := Run(EMPTY, trace);
            c in w.hist.announced && QuietFor(w, c) ==> Agreed(w, c)
  {
    ReachableIsSafe([]);
    RunRecords(EMPTY, trace);
    RunPublishes(EMPTY, trace);
    CreationsFirstIsNeverEarly(EMPTY, trace, {}, c);
    AnnouncedConvergesIff(trace, c);
  }
}
