/** What holds of every ticket code in every reachable world. The invariant is
    proved on the view of one code and lifted by locality. */
module Safety {
  import opened Wrappers
  import opened Messages
  import opened TicketDomain
  import opened TicketStore
  import opened ValidatorDomain
  import opened Calls
  import opened PurchaseSteps
  import opened Protocol
  import opened Views
  import opened Accounting

  function CancelledOf(t: TicketRow): Message {
    TicketCancelled(t.id, t.code, t.eventId)
  }

  /** A message about ticket `t` says what `t` says. */
  predicate Genuine(m: Message, t: TicketRow) {
    match m
    case TicketCreated(_, _, _) => m == CreatedOf(t)
    case TicketCancelled(_, _, _) => m == CancelledOf(t)
    case TicketUsed(code, eventId) => code == t.code && (eventId == t.eventId || eventId == 0)
  }

  ghost predicate HasUsed(q: multiset<Message>) {
    exists m :: m in q && m.TicketUsed?
  }

  predicate Is(record: Option<CacheRecord>, status: ValidTicketStatus) {
    record.Some? && record.value.status == status
  }

  /** Stores: the row and the record are well formed and name the same event. */
  predicate RowsAgree(v: CodeView, t: TicketRow) {
    && t.eventId > 0 && t.code != ""
    && (t.status == TicketStatus.Used <==> t.usedAt.Some?)
    && (v.record.Some? ==>
          && v.record.value.eventId == t.eventId
          && (v.record.value.status == ValidTicketStatus.Used <==> v.record.value.usedAt.Some?))
  }

  ghost predicate MailGenuine(v: CodeView, t: TicketRow) {
    forall m :: m in v.queued || m in v.lost ==> Genuine(m, t)
  }

  /** Every admission either shows in the cache or missed it. */
  predicate AdmissionsCounted(v: CodeView) {
    v.admitted == v.missed + Count(Is(v.record, ValidTicketStatus.Used))
  }

  /** Admitted, if and only if the database says used or a used message was published. */
  ghost predicate Reconciled(v: CodeView, t: TicketRow) {
    v.admitted > 0 <==> t.status == TicketStatus.Used || HasUsed(v.queued) || HasUsed(v.lost)
  }

  /** Cancelled in the database, if and only if the cancellation reached the cache, waits, was
      lost, or came too early. The cancellation is published once, so of these last three
      only one can be, and a lost or early one never reaches the cache. */
  predicate CancellationTracked(v: CodeView, t: TicketRow) {
    && (t.status == TicketStatus.Cancelled <==>
          || Is(v.record, ValidTicketStatus.Cancelled)
          || CancelledOf(t) in v.queued || CancelledOf(t) in v.lost || v.early > 0)
    && v.queued[CancelledOf(t)] + v.lost[CancelledOf(t)] + v.early <= 1
    && (v.lost[CancelledOf(t)] + v.early > 0 ==> !Is(v.record, ValidTicketStatus.Cancelled))
  }

  /** The used messages about `t` in `q`: with the ticket's event id, or with none. */
  function UsedCount(q: multiset<Message>, t: TicketRow): nat {
    q[TicketUsed(t.code, t.eventId)] + q[TicketUsed(t.code, 0)]
  }

  /** Each admission published one used message. None is consumed until one that was not lost
      marks the row used. */
  predicate UsesCounted(v: CodeView, t: TicketRow) {
    && UsedCount(v.queued, t) + UsedCount(v.lost, t) <= v.admitted
    && if t.status == TicketStatus.Used then UsedCount(v.lost, t) < v.admitted
       else UsedCount(v.queued, t) + UsedCount(v.lost, t) == v.admitted
  }

  /** An announced ticket is cached or will be; any other is cached only by a live admission. */
  predicate AnnouncementTracked(v: CodeView, t: TicketRow) {
    if v.announced then v.record.Some? || CreatedOf(t) in v.queued
    else CreatedOf(t) !in v.queued && (v.record.None? || v.record.value.status == ValidTicketStatus.Used)
  }

  ghost predicate Sound(v: CodeView) {
    if v.row.None? then v == BLANK
    else
      var t := v.row.value;
      && RowsAgree(v, t) && MailGenuine(v, t) && AdmissionsCounted(v) && Reconciled(v, t)
      && CancellationTracked(v, t) && UsesCounted(v, t) && AnnouncementTracked(v, t)
  }

  /* ----- the few ways a call changes its own code, each keeping it sound ----- */

  lemma UsedSent(v: CodeView, v': CodeView, m: Message, sent: bool)
    requires m.TicketUsed?
    requires v'.queued == (if sent then v.queued + multiset{m} else v.queued)
    requires v'.lost == (if sent then v.lost else v.lost + multiset{m})
    ensures HasUsed(v'.queued) || HasUsed(v'.lost)
    ensures forall x :: x != m ==> v'.queued[x] == v.queued[x] && v'.lost[x] == v.lost[x]
  {
    assert m in v'.queued || m in v'.lost;
  }

  /** A message that reports no use joins the queues or is lost. */
  lemma OtherSent(v: CodeView, v': CodeView, m: Message, sent: bool)
    requires !m.TicketUsed?
    requires v'.queued == (if sent then v.queued + multiset{m} else v.queued)
    requires v'.lost == (if sent then v.lost else v.lost + multiset{m})
    ensures HasUsed(v'.queued) == HasUsed(v.queued) && HasUsed(v'.lost) == HasUsed(v.lost)
    ensures forall x :: x in v'.queued || x in v'.lost <==> x == m || x in v.queued || x in v.lost
    ensures forall x :: x != m ==> v'.queued[x] == v.queued[x] && v'.lost[x] == v.lost[x]
  {
  }

  lemma AdmitKeepsSound(v: CodeView, e: Effect)
    requires Sound(v) && v.row.Some? && e.row.None? && e.admits
    requires e.send.Some? && e.send.value.TicketUsed? && Genuine(e.send.value, v.row.value)
    requires !Is(v.record, ValidTicketStatus.Used) && !Is(v.record, ValidTicketStatus.Cancelled)
    requires if e.missed then e.record.None?
             else e.record.Some? && e.record.value.eventId == v.row.value.eventId
                  && e.record.value.status == ValidTicketStatus.Used && e.record.value.usedAt.Some?
    ensures Sound(ApplyView(v, e))
  {
    var v' := ApplyView(v, e);
    UsedSent(v, v', e.send.value, e.sent);
    assert MailGenuine(v', v.row.value);
  }

  lemma CancelKeepsSound(v: CodeView, e: Effect)
    requires Sound(v) && v.row.Some? && TicketDomain.MarkCancelled(v.row.value).Some?
    requires e.row == TicketDomain.MarkCancelled(v.row.value)
    requires e.record.None? && !e.admits && !e.missed && e.send == Some(CancelledOf(v.row.value))
    ensures Sound(ApplyView(v, e))
  {
    OtherSent(v, ApplyView(v, e), CancelledOf(v.row.value), e.sent);
  }

  lemma UsedIffCounted(q: multiset<Message>, t: TicketRow)
    requires forall m :: m in q ==> Genuine(m, t)
    ensures HasUsed(q) <==> UsedCount(q, t) > 0
  {
    if HasUsed(q) {
      var m :| m in q && m.TicketUsed?;
      assert m == TicketUsed(t.code, t.eventId) || m == TicketUsed(t.code, 0);
    }
  }

  /** Writing a record that is not a use, for a message that is queued. */
  lemma RecordKeepsSound(v: CodeView, e: Effect)
    requires Sound(v) && v.row.Some? && e.row.None? && e.send.None? && !e.admits && !e.missed
    requires e.record.Some? ==>
               && e.record.value.eventId == v.row.value.eventId
               && (|| (v.record.None? && e.record.value.status == Active && e.record.value.usedAt.None?
                       && CreatedOf(v.row.value) in v.queued)
                   || (v.record.Some? && e.record == ValidatorDomain.MarkCancelled(v.record.value)
                       && CancelledOf(v.row.value) in v.queued))
    ensures Sound(ApplyView(v, e))
  {
    var v' := ApplyView(v, e);
    assert v' == v.(record := v'.record);
  }

  /** Marking the row used, for a use that is queued. */
  lemma UseKeepsSound(v: CodeView, e: Effect)
    requires Sound(v) && v.row.Some? && e.record.None? && e.send.None? && !e.admits && !e.missed && HasUsed(v.queued)
    requires e.row.Some? ==> exists now :: e.row == TicketDomain.MarkUsed(v.row.value, now)
    ensures Sound(ApplyView(v, e))
  {
    UsedIffCounted(v.queued, v.row.value);
    var v' := ApplyView(v, e);
    assert v' == v.(row := v'.row);
  }

  /** A message may go once what it says has reached the store. */
  lemma AckCreatedKeepsSound(v: CodeView, m: Message)
    requires Sound(v) && v.row.Some? && m in v.queued && m.TicketCreated? && v.record.Some?
    ensures Sound(AckView(v, m, false))
  {
    QueueShrinks(v.queued, m);
  }

  lemma AckUsedKeepsSound(v: CodeView, m: Message)
    requires Sound(v) && v.row.Some? && m in v.queued && m.TicketUsed? && v.row.value.status == TicketStatus.Used
    ensures Sound(AckView(v, m, false))
  {
    QueueShrinks(v.queued, m);
  }

  lemma AckCancelledKeepsSound(v: CodeView, m: Message, early: bool)
    requires Sound(v) && v.row.Some? && m in v.queued && m.TicketCancelled?
    requires if early then v.record.None? else Is(v.record, ValidTicketStatus.Cancelled)
    ensures Sound(AckView(v, m, early))
  {
    QueueShrinks(v.queued, m);
    assert m == CancelledOf(v.row.value);
  }

  lemma QueueShrinks(q: multiset<Message>, m: Message)
    requires m in q
    ensures forall x :: (q - multiset{m})[x] == if x == m then q[x] - 1 else q[x]
    ensures !m.TicketUsed? ==> HasUsed(q - multiset{m}) == HasUsed(q)
    ensures HasUsed(q - multiset{m}) ==> HasUsed(q)
  {
    var q' := q - multiset{m};
    assert forall x :: x in q' ==> x in q;
    assert forall x :: x in q && x != m ==> x in q';
  }

  /* ----- one call keeps its own code sound ----- */

  /** An admission, local or live, is one that AdmitKeepsSound covers. */
  lemma ValidationEffect(row: Option<TicketRow>, record: Option<CacheRecord>, call: Call)
    requires call.Validate? && (row.Some? ==> row.value.code == call.c && row.value.eventId > 0 && call.c != "")
    requires record.Some? ==> row.Some? && record.value.eventId == row.value.eventId
    ensures var e := Respond(row, record, call).effect;
            if !e.admits then e == Nothing(call.c)
            else
              && row.Some? && e.row.None?
              && e.send.Some? && e.send.value.TicketUsed? && Genuine(e.send.value, row.value)
              && !Is(record, ValidTicketStatus.Used) && !Is(record, ValidTicketStatus.Cancelled)
              && if e.missed then e.record.None?
                 else e.record.Some? && e.record.value.eventId == row.value.eventId
                      && e.record.value.status == ValidTicketStatus.Used && e.record.value.usedAt.Some?
  {
  }

  lemma ValidateKeepsSound(v: CodeView, call: Call)
    requires Sound(v) && call.Validate? && (v.row.Some? ==> v.row.value.code == call.c)
    ensures Sound(ServeView(v, call))
  {
    ValidationEffect(v.row, v.record, call);
    var r := Respond(v.row, v.record, call);
    if r.effect.admits {
      AdmitKeepsSound(v, r.effect);
    } else {
      assert ServeViewWith(v, call, r) == v;
    }
  }

  lemma DeliverCreatedKeepsSound(v: CodeView, call: Call)
    requires Sound(v) && v.row.Some? && call.Deliver? && call.message in v.queued && call.message.TicketCreated?
    ensures Sound(ServeView(v, call))
  {
    var r := Respond(v.row, v.record, call);
    RecordKeepsSound(v, r.effect);
    if TakesOff(call, r) {
      AckCreatedKeepsSound(ApplyView(v, r.effect), call.message);
    }
  }

  lemma DeliverCancelledKeepsSound(v: CodeView, call: Call)
    requires Sound(v) && v.row.Some? && call.Deliver? && call.message in v.queued && call.message.TicketCancelled?
    ensures Sound(ServeView(v, call))
  {
    var r := Respond(v.row, v.record, call);
    RecordKeepsSound(v, r.effect);
    if TakesOff(call, r) {
      AckCancelledKeepsSound(ApplyView(v, r.effect), call.message, r.effect.early);
    }
  }

  lemma DeliverUsedKeepsSound(v: CodeView, call: Call)
    requires Sound(v) && v.row.Some? && call.Deliver? && call.message in v.queued && call.message.TicketUsed?
    ensures Sound(ServeView(v, call))
  {
    var r := Respond(v.row, v.record, call);
    assert call.message in v.queued && call.message.TicketUsed?;
    UseKeepsSound(v, r.effect);
    if TakesOff(call, r) {
      AckUsedKeepsSound(ApplyView(v, r.effect), call.message);
    }
  }

  lemma DeliverKeepsSound(v: CodeView, call: Call)
    requires Sound(v) && call.Deliver? && (v.row.Some? ==> v.row.value.code == call.message.code)
    ensures Sound(ServeView(v, call))
  {
    if call.message !in v.queued {
      assert ServeView(v, call) == v;
    } else {
      assert v != BLANK && v.row.Some?;
      match call.message
      case TicketCreated(_, _, _) => DeliverCreatedKeepsSound(v, call);
      case TicketCancelled(_, _, _) => DeliverCancelledKeepsSound(v, call);
      case TicketUsed(_, _) => DeliverUsedKeepsSound(v, call);
    }
  }

  /** A cancellation by the owner does nothing, or what CancelKeepsSound covers. */
  lemma CancellationEffect(row: Option<TicketRow>, record: Option<CacheRecord>, call: Call)
    requires call.Cancel?
    ensures var e := Respond(row, record, call).effect;
            if e.row.None? then e == Nothing(call.c)
            else
              && row.Some? && TicketDomain.MarkCancelled(row.value).Some? && e.row == TicketDomain.MarkCancelled(row.value)
              && e.record.None? && !e.admits && !e.missed && e.send == Some(CancelledOf(row.value))
  {
  }

  lemma NothingChanges(v: CodeView, code: string)
    ensures ApplyView(v, Nothing(code)) == v
  {
  }

  lemma CancelCallKeepsSound(v: CodeView, call: Call)
    requires Sound(v) && call.Cancel?
    ensures Sound(ServeView(v, call))
  {
    var e := Respond(v.row, v.record, call).effect;
    CancellationEffect(v.row, v.record, call);
    assert ServeView(v, call) == ApplyView(v, e);
    if e.row.Some? {
      CancelKeepsSound(v, e);
    } else {
      NothingChanges(v, call.c);
    }
  }

  lemma ServeKeepsSound(v: CodeView, call: Call)
    requires Sound(v) && (v.row.Some? ==> v.row.value.code == call.Code())
    ensures Sound(ServeView(v, call))
  {
    match call
    case Validate(_, _, _, _) => ValidateKeepsSound(v, call);
    case Deliver(_, _, _, _) => DeliverKeepsSound(v, call);
    case Cancel(_, _) => CancelCallKeepsSound(v, call);
  }

  /* ----- every reachable world ----- */

  ghost predicate Safe(w: World) {
    Books(w) && forall c :: Sound(View(w, c))
  }

  /** What neither touches tickets, cache, messages nor the history of codes. */
  ghost predicate SameViews(w: World, w': World) {
    && w'.db.tickets == w.db.tickets && w'.cache == w.cache
    && w'.bus.queued == w.bus.queued && w'.bus.lost == w.bus.lost
    && w'.hist == w.hist.(settled := w'.hist.settled)
  }

  /** The step stores a ticket. */
  ghost predicate Emits(w: World, a: Action) {
    && a.EmitTicket? && a.eventId in w.running && CanEmit(w.running[a.eventId])
    && a.up && ByCode(w.db.tickets, a.code).None?
  }

  lemma EmitIsLocal(w: World, a: Action, c: string)
    requires ValidTickets(w) && Emits(w, a)
    ensures ValidTickets(Step(w, a))
    ensures var t := TicketOf(w.db, w.running[a.eventId], a.code);
            View(Step(w, a), c) == if c == a.code then View(w, c).(row := Some(t)) else View(w, c)
  {
    var w' := Step(w, a);
    var t := TicketOf(w.db, w.running[a.eventId], a.code);
    assert w'.db.tickets == w.db.tickets[t.id := t] && w'.db.nextTicket == w.db.nextTicket + 1;
    if c == a.code {
      ByCodeFinds(w'.db.tickets, w'.db.nextTicket, t.id);
    } else if ByCode(w.db.tickets, c).Some? {
      var id :| id in w.db.tickets && Some(w.db.tickets[id]) == ByCode(w.db.tickets, c);
      assert w'.db.tickets[id] == w.db.tickets[id];
      ByCodeFinds(w'.db.tickets, w'.db.nextTicket, id);
    }
  }

  lemma EmitView(w: World, a: Action, c: string)
    requires Books(w) && a.EmitTicket? && !SameViews(w, Step(w, a))
    ensures Emits(w, a)
    ensures var t := TicketOf(w.db, w.running[a.eventId], a.code);
            && ByCode(w.db.tickets, a.code).None? && t.eventId > 0
            && View(Step(w, a), c) == if c == a.code then View(w, c).(row := Some(t)) else View(w, c)
  {
    assert Live(w, a.eventId, w.running[a.eventId]);
    EmitIsLocal(w, a, c);
  }

  /** Publishing the created message of a ticket, as seen from its code. */
  function AnnounceView(v: CodeView, m: Message, up: bool): CodeView {
    if up then v.(queued := v.queued + multiset{m}, announced := true) else v.(lost := v.lost + multiset{m})
  }

  /** The step publishes the created message of a ticket, or tries to. */
  ghost predicate Announces(w: World, a: Action) {
    a.AnnounceTicket? && a.eventId in w.running && CanAnnounce(w.running[a.eventId])
  }

  ghost function NextAnnounced(w: World, a: Action): TicketRow
    requires Announces(w, a)
  {
    w.running[a.eventId].tickets[w.running[a.eventId].announced]
  }

  lemma AnnounceSlots(w: World, a: Action, c: string)
    requires Announces(w, a)
    ensures var t := NextAnnounced(w, a);
            View(Step(w, a), c) == if c == t.code then AnnounceView(View(w, c), CreatedOf(t), a.up) else View(w, c)
  {
    var t := NextAnnounced(w, a);
    AboutAdd(w.bus.queued, CreatedOf(t), c);
    AboutAdd(w.bus.lost, CreatedOf(t), c);
  }

  lemma AnnounceIsLocal(w: World, a: Action, c: string)
    requires Books(w) && Announces(w, a)
    ensures var t := NextAnnounced(w, a);
            && View(w, t.code).row.Some? && SameTicket(View(w, t.code).row.value, t)
            && View(Step(w, a), c) == if c == t.code then AnnounceView(View(w, c), CreatedOf(t), a.up) else View(w, c)
  {
    var t := NextAnnounced(w, a);
    assert Live(w, a.eventId, w.running[a.eventId]) && t in w.running[a.eventId].tickets;
    ByCodeFinds(w.db.tickets, w.db.nextTicket, t.id);
    AnnounceSlots(w, a, c);
  }

  lemma AnnounceKeepsSound(v: CodeView, up: bool)
    requires Sound(v) && v.row.Some?
    ensures Sound(AnnounceView(v, CreatedOf(v.row.value), up))
  {
    var m := CreatedOf(v.row.value);
    OtherSent(v, AnnounceView(v, m, up), m, up);
  }

  lemma QuietStep(w: World, a: Action)
    requires a.OpenEvent? || a.StartPurchase? || a.SettlePurchase? || a.CompletePurchase?
    ensures SameViews(w, Step(w, a))
  {
  }

  lemma EmitKeepsSound(w: World, a: Action, c: string)
    requires Safe(w) && a.EmitTicket? && !SameViews(w, Step(w, a))
    ensures Sound(View(Step(w, a), c))
  {
    assert Sound(View(w, c));
    EmitView(w, a, c);
  }

  lemma AnnounceStepKeepsSound(w: World, a: Action, c: string)
    requires Safe(w) && a.AnnounceTicket? && !SameViews(w, Step(w, a))
    ensures Sound(View(Step(w, a), c))
  {
    var v := View(w, c);
    assert Sound(v);
    AnnounceIsLocal(w, a, c);
    var t := NextAnnounced(w, a);
    if c == t.code {
      AnnounceKeepsSound(v, a.up);
      assert CreatedOf(t) == CreatedOf(v.row.value);
    }
  }

  lemma RequestKeepsSound(w: World, call: Call, c: string)
    requires Safe(w)
    ensures Sound(View(Serve(w, call), c))
  {
    assert Sound(View(w, c));
    ServeIsLocal(w, call, c);
    if c == call.Code() {
      ServeKeepsSound(View(w, c), call);
    }
  }

  lemma StepKeepsSound(w: World, a: Action, c: string)
    requires Safe(w)
    ensures Sound(View(Step(w, a), c))
  {
    assert Sound(View(w, c));
    if SameViews(w, Step(w, a)) {
      assert View(Step(w, a), c) == View(w, c);
    } else if a.EmitTicket? {
      EmitKeepsSound(w, a, c);
    } else if a.AnnounceTicket? {
      AnnounceStepKeepsSound(w, a, c);
    } else if a.Request? {
      RequestKeepsSound(w, a.call, c);
    } else {
      QuietStep(w, a);
    }
  }

  lemma StepKeepsSafe(w: World, a: Action)
    requires Safe(w)
    ensures Safe(Step(w, a))
  {
    StepKeepsBooks(w, a);
    forall c ensures Sound(View(Step(w, a), c)) {
      StepKeepsSound(w, a, c);
    }
  }

  lemma ServeKeepsSafe(w: World, call: Call)
    requires Safe(w)
    ensures Safe(Serve(w, call))
  {
    RequestKeepsBooks(w, call);
    forall c ensures Sound(View(Serve(w, call), c)) {
      RequestKeepsSound(w, call, c);
    }
  }

  lemma {:induction false} RunKeepsSafe(w: World, trace: seq<Action>)
    requires Safe(w)
    ensures Safe(Run(w, trace))
    decreases |trace|
  {
    if trace != [] {
      StepKeepsSafe(w, trace[0]);
      RunKeepsSafe(Step(w, trace[0]), trace[1..]);
    }
  }

  lemma ReachableIsSafe(trace: seq<Action>)
    ensures Safe(Run(EMPTY, trace))
  {
    forall c ensures View(EMPTY, c) == BLANK {
      assert About(multiset{}, c) == multiset{};
    }
    RunKeepsSafe(EMPTY, trace);
  }
}
