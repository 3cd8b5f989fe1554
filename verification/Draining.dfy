/** What happens once requests stop and the infrastructure stays up: the queues
    drain, under every fair schedule, and the end is the same for all delivery orders that
    put creations before cancellations. */
module Draining {
  import opened Wrappers
  import opened Messages
  import opened TicketDomain
  import opened TicketStore
  import opened ValidatorDomain
  import opened Calls
  import opened Protocol
  import opened Views
  import opened Safety
  import opened Guarantees

  /** A delivery with every store up and its acknowledgement received. */
  predicate Clean(call: Call) {
    call.Deliver? && call.io == ALL_UP && call.acked
  }

  function CleanDelivery(m: Message, now: int): Call {
    Deliver(m, ALL_UP, now, true)
  }

  /** The delivery takes place and its handler succeeds. */
  ghost predicate Succeeds(w: World, call: Call) {
    call.Deliver? && call.message in w.bus.queued && Answer(w, call).outcome == Ok
  }

  ghost predicate CreatedQueued(w: World, c: string) {
    exists m :: m in w.bus.queued && m.TicketCreated? && m.code == c
  }

  /** Even with everything up, the consumer would send `m` back to its queue. */
  ghost predicate Stuck(w: World, m: Message) {
    forall now :: Answer(w, CleanDelivery(m, now)).outcome != Ok
  }

  /** Nothing queued about `c` can be acknowledged any more. */
  ghost predicate QuietFor(w: World, c: string) {
    forall m :: m in w.bus.queued && m.code == c ==> Stuck(w, m)
  }

  ghost predicate Quiet(w: World) {
    forall m :: m in w.bus.queued ==> Stuck(w, m)
  }

  predicate Closed(record: Option<CacheRecord>) {
    record.Some? && record.value.status != Active
  }

  predicate Cancelled(row: Option<TicketRow>) {
    row.Some? && row.value.status == TicketStatus.Cancelled
  }

  /** A message a view cannot get rid of. */
  predicate Left(v: CodeView, m: Message) {
    (m.TicketUsed? && Cancelled(v.row)) || (m.TicketCancelled? && Closed(v.record))
  }

  lemma OutcomeIffLeft(v: CodeView, m: Message, now: int)
    requires Sound(v) && m in v.queued
    ensures Respond(v.row, v.record, CleanDelivery(m, now)).outcome == Ok <==> !Left(v, m)
  {
  }

  /** The messages that stay are exactly used messages of tickets cancelled in
      the database and cancelled messages of tickets used or cancelled in the cache. */
  lemma StuckIff(w: World, m: Message)
    requires Safe(w) && m in w.bus.queued
    ensures Stuck(w, m) <==> Left(View(w, m.code), m)
  {
    var v := View(w, m.code);
    assert Sound(v) && m in v.queued;
    forall now ensures Answer(w, CleanDelivery(m, now)).outcome == Ok <==> !Left(v, m) {
      OutcomeIffLeft(v, m, now);
    }
    assert Answer(w, CleanDelivery(m, 0)).outcome == Ok <==> !Left(v, m);
  }

  /** Whatever the infrastructure does, such a message is not acknowledged. */
  lemma LeftFails(v: CodeView, call: Call)
    requires Sound(v) && call.Deliver? && call.message in v.queued && Left(v, call.message)
    ensures Respond(v.row, v.record, call).outcome != Ok
  {
  }

  /** Only its own acknowledgement takes a message off the queue. */
  lemma OnlyAcksRemove(v: CodeView, call: Call, r: Response, m: Message)
    requires !(TakesOff(call, r) && call.message == m)
    ensures ServeViewWith(v, call, r).queued[m] >= v.queued[m]
  {
    var v' := ApplyView(v, r.effect);
    assert v'.queued[m] >= v.queued[m];
  }

  lemma ServeKeepsLeft(v: CodeView, call: Call, m: Message)
    requires Sound(v) && m in v.queued && Left(v, m)
    ensures ServeView(v, call).queued[m] >= v.queued[m]
  {
    if call.Deliver? && call.message == m {
      LeftFails(v, call);
    }
    OnlyAcksRemove(v, call, Respond(v.row, v.record, call), m);
  }

  lemma LeftStays(v: CodeView, v': CodeView, m: Message)
    requires Later(v, v') && Left(v, m)
    ensures Left(v', m)
  {
  }

  lemma RequestKeepsQueued(w: World, call: Call, m: Message)
    requires Safe(w) && m in w.bus.queued && Left(View(w, m.code), m)
    ensures View(Serve(w, call), m.code).queued[m] >= View(w, m.code).queued[m]
  {
    assert Sound(View(w, m.code)) && m in View(w, m.code).queued;
    ServeIsLocal(w, call, m.code);
    ServeKeepsLeft(View(w, m.code), call, m);
  }

  lemma EmitKeepsQueued(w: World, a: Action, c: string)
    requires Safe(w) && Emits(w, a)
    ensures View(Step(w, a), c).queued == View(w, c).queued
  {
    EmitIsLocal(w, a, c);
  }

  lemma AnnounceKeepsQueued(w: World, a: Action, m: Message)
    requires Safe(w) && Announces(w, a)
    ensures View(Step(w, a), m.code).queued[m] >= View(w, m.code).queued[m]
  {
    AnnounceSlots(w, a, m.code);
  }

  lemma OtherKeepsQueued(w: World, a: Action, c: string)
    requires !a.Request? && !Emits(w, a) && !Announces(w, a)
    ensures View(Step(w, a), c).queued == View(w, c).queued
  {
  }

  lemma StepKeepsQueued(w: World, a: Action, m: Message)
    requires Safe(w) && m in w.bus.queued && Left(View(w, m.code), m)
    ensures View(Step(w, a), m.code).queued[m] >= View(w, m.code).queued[m]
  {
    if a.Request? {
      RequestIsServe(w, a.call);
      RequestKeepsQueued(w, a.call, m);
    } else if Emits(w, a) {
      EmitKeepsQueued(w, a, m.code);
    } else if Announces(w, a) {
      AnnounceKeepsQueued(w, a, m);
    } else {
      OtherKeepsQueued(w, a, m.code);
    }
  }

  lemma StepKeepsStuck(w: World, a: Action, m: Message)
    requires Safe(w) && m in w.bus.queued && Stuck(w, m)
    ensures m in Step(w, a).bus.queued && Stuck(Step(w, a), m)
  {
    StuckIff(w, m);
    StepKeepsQueued(w, a, m);
    StepIsLater(w, a, m.code);
    LeftStays(View(w, m.code), View(Step(w, a), m.code), m);
    StepKeepsSafe(w, a);
    assert m in View(Step(w, a), m.code).queued;
    StuckIff(Step(w, a), m);
  }

  /** A stuck message stays queued and stuck along every run: it is requeued for ever. */
  lemma {:induction false} StuckForever(w: World, trace: seq<Action>, m: Message)
    requires Safe(w) && m in w.bus.queued && Stuck(w, m)
    ensures m in Run(w, trace).bus.queued && Stuck(Run(w, trace), m)
    decreases |trace|
  {
    if trace != [] {
      StepKeepsStuck(w, trace[0], m);
      StepKeepsSafe(w, trace[0]);
      StuckForever(Step(w, trace[0]), trace[1..], m);
    }
  }

  /* ----- the drain measure ----- */

  predicate AllClean(calls: seq<Call>) {
    forall i :: 0 <= i < |calls| ==> Clean(calls[i])
  }

  ghost function AckCount(w: World, calls: seq<Call>): nat
    decreases |calls|
  {
    if calls == [] then 0 else Count(Succeeds(w, calls[0])) + AckCount(Serve(w, calls[0]), calls[1..])
  }

  /** A requeue changes nothing at all; an acknowledgement removes its message and adds none. */
  lemma DeliverOnce(w: World, call: Call)
    requires Clean(call)
    ensures Succeeds(w, call) ==> Serve(w, call).bus.queued == w.bus.queued - multiset{call.message}
    ensures !Succeeds(w, call) ==> Serve(w, call) == w
  {
    var r := DeliveryEffect(ByCode(w.db.tickets, call.Code()), Lookup(w.cache, call.Code()), call);
    if r.outcome != Ok {
      assert w.hist.admitted + multiset{} == w.hist.admitted && w.hist.missed + multiset{} == w.hist.missed;
    }
  }

  /** Queued messages plus acknowledgements are conserved: the queues never grow,
      and no delivery order acknowledges more messages than are queued. */
  lemma {:induction false} DrainMeasure(w: World, calls: seq<Call>)
    requires AllClean(calls)
    ensures |ServeAll(w, calls).bus.queued| + AckCount(w, calls) == |w.bus.queued|
    decreases |calls|
  {
    if calls != [] {
      DeliverOnce(w, calls[0]);
      DrainMeasure(Serve(w, calls[0]), calls[1..]);
    }
  }

  lemma DrainPrepend(w: World, call: Call, rest: seq<Call>)
    requires Clean(call) && AllClean(rest) && Ordered(Serve(w, call), rest)
    requires InOrder(w, call)
    ensures AllClean([call] + rest) && Ordered(w, [call] + rest)
    ensures ServeAll(w, [call] + rest) == ServeAll(Serve(w, call), rest)
  {
    assert ([call] + rest)[1..] == rest;
  }

  /** From every reachable world some ordered delivery sequence, no longer than
      the queues, ends with nothing left to acknowledge. */
  lemma {:induction false} DrainEnds(w: World) returns (calls: seq<Call>)
    requires Safe(w)
    ensures AllClean(calls) && Ordered(w, calls) && |calls| <= |w.bus.queued|
    ensures Quiet(ServeAll(w, calls))
    decreases |w.bus.queued|
  {
    if Quiet(w) {
      calls := [];
    } else {
      var m := NextToAck(w);
      var call := CleanDelivery(m, 0);
      DeliverOnce(w, call);
      ServeKeepsSafe(w, call);
      var rest := DrainEnds(Serve(w, call));
      calls := [call] + rest;
      DrainPrepend(w, call, rest);
    }
  }

  /** A message that will be acknowledged, a created one if there is any. */
  lemma NextToAck(w: World) returns (m: Message)
    requires Safe(w) && !Quiet(w)
    ensures m in w.bus.queued && Succeeds(w, CleanDelivery(m, 0))
    ensures InOrder(w, CleanDelivery(m, 0))
  {
    m :| m in w.bus.queued && !Stuck(w, m);
    if m.TicketCancelled? && CreatedQueued(w, m.code) {
      m :| m in w.bus.queued && m.TicketCreated?;
    }
    var v := View(w, m.code);
    assert Sound(v) && m in v.queued;
    StuckIff(w, m);
    OutcomeIffLeft(v, m, 0);
  }

  /* ----- every fair schedule drains ----- */

  /** One round of deliveries, in any order, in which every queued message gets its turn. */
  ghost predicate Round(w: World, calls: seq<Call>) {
    && AllClean(calls)
    && forall m :: m in w.bus.queued ==> exists i :: 0 <= i < |calls| && calls[i].message == m
  }

  ghost predicate Rounds(w: World, rounds: seq<seq<Call>>)
    decreases |rounds|
  {
    rounds != [] ==> Round(w, rounds[0]) && Rounds(ServeAll(w, rounds[0]), rounds[1..])
  }

  ghost function ServeRounds(w: World, rounds: seq<seq<Call>>): World {
    Fold(ServeAll, w, rounds)
  }

  /** A delivery sequence that acknowledges nothing changes nothing, and offered nothing it could acknowledge. */
  lemma {:induction false} FruitlessDeliveries(w: World, calls: seq<Call>)
    requires AllClean(calls) && AckCount(w, calls) == 0
    ensures ServeAll(w, calls) == w
    ensures forall i :: 0 <= i < |calls| ==> !Succeeds(w, calls[i])
    decreases |calls|
  {
    if calls != [] {
      DeliverOnce(w, calls[0]);
      FruitlessDeliveries(w, calls[1..]);
      forall i | 0 <= i < |calls| ensures !Succeeds(w, calls[i]) {
        if i > 0 {
          assert calls[1..][i - 1] == calls[i];
        }
      }
    }
  }

  lemma {:induction false} DeliveriesKeepSafe(w: World, calls: seq<Call>)
    requires Safe(w)
    ensures Safe(ServeAll(w, calls))
    decreases |calls|
  {
    if calls != [] {
      ServeKeepsSafe(w, calls[0]);
      DeliveriesKeepSafe(Serve(w, calls[0]), calls[1..]);
    }
  }

  /** The time of a delivery decides nothing. */
  lemma StuckAtAnyTime(w: World, call: Call)
    requires Safe(w) && Clean(call) && call.message in w.bus.queued && !Succeeds(w, call)
    ensures Stuck(w, call.message)
  {
    var v := View(w, call.message.code);
    assert Sound(v) && call.message in v.queued;
    StuckIff(w, call.message);
    OutcomeIffLeft(v, call.message, call.now);
    assert call == CleanDelivery(call.message, call.now);
  }

  /** A round acknowledges a message, or there is none to acknowledge. */
  lemma RoundShrinks(w: World, calls: seq<Call>)
    requires Safe(w) && Round(w, calls)
    ensures var w' := ServeAll(w, calls); |w'.bus.queued| < |w.bus.queued| || (w' == w && Quiet(w))
  {
    DrainMeasure(w, calls);
    if AckCount(w, calls) == 0 {
      FruitlessDeliveries(w, calls);
      forall m | m in w.bus.queued ensures Stuck(w, m) {
        var i :| 0 <= i < |calls| && calls[i].message == m;
        StuckAtAnyTime(w, calls[i]);
      }
    }
  }

  /** A drained world stays as it is. */
  lemma {:induction false} QuietStays(w: World, rounds: seq<seq<Call>>)
    requires Safe(w) && Quiet(w) && Rounds(w, rounds)
    ensures ServeRounds(w, rounds) == w
    decreases |rounds|
  {
    if rounds != [] {
      QuietAcksNothing(w, rounds[0]);
      FruitlessDeliveries(w, rounds[0]);
      QuietStays(w, rounds[1..]);
    }
  }

  lemma {:induction false} QuietAcksNothing(w: World, calls: seq<Call>)
    requires Quiet(w) && AllClean(calls)
    ensures AckCount(w, calls) == 0
    decreases |calls|
  {
    if calls != [] {
      assert calls[0] == CleanDelivery(calls[0].message, calls[0].now);
      DeliverOnce(w, calls[0]);
      QuietAcksNothing(w, calls[1..]);
    }
  }

  /** Every fair schedule drains the queues: as many rounds as messages are queued, whatever
      the order within a round, end with nothing left to acknowledge. */
  lemma {:induction false} FairRoundsDrain(w: World, rounds: seq<seq<Call>>)
    requires Safe(w) && Rounds(w, rounds) && |rounds| >= |w.bus.queued|
    ensures Quiet(ServeRounds(w, rounds))
    decreases |rounds|
  {
    if rounds == [] {
      assert w.bus.queued == multiset{};
    } else {
      var w' := ServeAll(w, rounds[0]);
      RoundShrinks(w, rounds[0]);
      DeliveriesKeepSafe(w, rounds[0]);
      if Quiet(w) {
        QuietStays(w, rounds);
      } else {
        FairRoundsDrain(w', rounds[1..]);
      }
    }
  }

  /* ----- fair schedules exist ----- */

  lemma OrderedConcat(w: World, calls: seq<Call>, rest: seq<Call>)
    requires AllClean(calls) && AllClean(rest) && Ordered(w, calls) && Ordered(ServeAll(w, calls), rest)
    ensures AllClean(calls + rest) && Ordered(w, calls + rest)
  {
    AlwaysConcat(Serve, InOrder, w, calls, rest);
  }

  ghost predicate Queues(w: World, m: Message) {
    m in w.bus.queued
  }

  /** A message that left the queue was delivered. */
  lemma GoneWasDelivered(w: World, calls: seq<Call>, m: Message) returns (i: nat)
    requires AllClean(calls) && m in w.bus.queued && m !in ServeAll(w, calls).bus.queued
    ensures i < |calls| && calls[i].message == m
  {
    forall k, x | 0 <= k < |calls| && Queues(x, m) && calls[k].message != m ensures Queues(Serve(x, calls[k]), m) {
      StillQueued(x, calls[k], m);
    }
    i := FoldEnds(Serve, x => Queues(x, m), (c: Call) => c.Deliver? && c.message == m, w, calls);
  }

  lemma StillQueued(w: World, call: Call, m: Message)
    requires Clean(call) && m in w.bus.queued && call.message != m
    ensures m in Serve(w, call).bus.queued
  {
    DeliverOnce(w, call);
  }

  /** A delivery for each message of `q`. */
  lemma {:induction false} OfferAll(q: multiset<Message>) returns (calls: seq<Call>)
    ensures AllClean(calls)
    ensures forall m :: m in q ==> exists i :: 0 <= i < |calls| && calls[i].message == m
    decreases |q|
  {
    calls := [];
    if q != multiset{} {
      var m :| m in q;
      var rest := OfferAll(q - multiset{m});
      calls := [CleanDelivery(m, 0)] + rest;
      forall x | x in q ensures exists i :: 0 <= i < |calls| && calls[i].message == x {
        if x == m {
          assert calls[0].message == x;
        } else {
          assert x in q - multiset{m};
          var i :| 0 <= i < |rest| && rest[i].message == x;
          assert calls[i + 1].message == x;
        }
      }
    }
  }

  /** When nothing can be acknowledged no creation is queued, so any order will do. */
  lemma {:induction false} QuietIsOrdered(w: World, calls: seq<Call>)
    requires Safe(w) && Quiet(w) && AllClean(calls)
    ensures Ordered(w, calls)
    decreases |calls|
  {
    if calls != [] {
      var call := calls[0];
      assert call == CleanDelivery(call.message, call.now);
      DeliverOnce(w, call);
      if CreatedQueued(w, call.message.code) {
        var m :| m in w.bus.queued && m.TicketCreated? && m.code == call.message.code;
        StuckIff(w, m);
      }
      QuietIsOrdered(w, calls[1..]);
    }
  }

  /** From every reachable world there is a round, even one that puts creations before cancellations. */
  lemma RoundExists(w: World) returns (calls: seq<Call>)
    requires Safe(w)
    ensures Round(w, calls) && Ordered(w, calls)
  {
    var drain := DrainEnds(w);
    var u := ServeAll(w, drain);
    DeliveriesKeepSafe(w, drain);
    var rest := OfferAll(u.bus.queued);
    QuietIsOrdered(u, rest);
    OrderedConcat(w, drain, rest);
    calls := drain + rest;
    forall m | m in w.bus.queued ensures exists i :: 0 <= i < |calls| && calls[i].message == m {
      if m in u.bus.queued {
        var i :| 0 <= i < |rest| && rest[i].message == m;
        assert calls[|drain| + i].message == m;
      } else {
        var i := GoneWasDelivered(w, drain, m);
        assert calls[i].message == m;
      }
    }
  }

  /* ----- confluence ----- */

  /** `call` does not deliver a cancellation before the creation it belongs to: the code is
      cached, or no creation of it is waiting. */
  ghost predicate InOrder(w: World, call: Call) {
    call.Deliver? && call.message.TicketCancelled? ==>
      call.message.code in w.cache || !CreatedQueued(w, call.message.code)
  }

  ghost predicate Ordered(w: World, calls: seq<Call>) {
    Always(Serve, InOrder, w, calls)
  }

  ghost predicate HasCreated(q: multiset<Message>) {
    exists m :: m in q && m.TicketCreated?
  }

  ghost predicate HasCancelled(q: multiset<Message>) {
    exists m :: m in q && m.TicketCancelled?
  }

  function RowStatus(row: Option<TicketRow>): Option<TicketStatus> {
    if row.Some? then Some(row.value.status) else None
  }

  function RecordStatus(record: Option<CacheRecord>): Option<ValidTicketStatus> {
    if record.Some? then Some(record.value.status) else None
  }

  /** Where draining will leave a code: its two statuses, and how many copies of `m` stay queued. */
  ghost function EndRow(v: CodeView): Option<TicketStatus> {
    if RowStatus(v.row) == Some(Emitted) && HasUsed(v.queued) then Some(TicketStatus.Used) else RowStatus(v.row)
  }

  ghost function EndRecord(v: CodeView): Option<ValidTicketStatus> {
    var created := if v.record.None? && HasCreated(v.queued) then Some(Active) else RecordStatus(v.record);
    if created == Some(Active) && HasCancelled(v.queued) then Some(ValidTicketStatus.Cancelled) else created
  }

  function EndCount(v: CodeView, m: Message): nat {
    if Left(v, m) then v.queued[m] else 0
  }

  /** The end is the same before and after. */
  ghost predicate SameEnd(v: CodeView, v': CodeView) {
    EndRow(v') == EndRow(v) && EndRecord(v') == EndRecord(v) && forall m :: EndCount(v', m) == EndCount(v, m)
  }

  /** Removing a message leaves the other kinds as they were. */
  lemma OtherKindsStay(q: multiset<Message>, m: Message)
    ensures !m.TicketUsed? ==> HasUsed(q - multiset{m}) == HasUsed(q)
    ensures !m.TicketCreated? ==> HasCreated(q - multiset{m}) == HasCreated(q)
    ensures !m.TicketCancelled? ==> HasCancelled(q - multiset{m}) == HasCancelled(q)
  {
    var q' := q - multiset{m};
    assert forall x :: x in q' ==> x in q;
    assert forall x :: x in q && x != m ==> x in q';
  }

  lemma CreatedKeepsEnd(v: CodeView, m: Message, record: Option<CacheRecord>)
    requires m in v.queued && m.TicketCreated?
    requires if v.record.Some? then record == v.record else record.Some? && record.value.status == Active
    ensures SameEnd(v, v.(record := record, queued := v.queued - multiset{m}))
  {
    OtherKindsStay(v.queued, m);
  }

  lemma UsedKeepsEnd(v: CodeView, m: Message, row: Option<TicketRow>)
    requires m in v.queued && m.TicketUsed? && v.row.Some? && row.Some?
    requires !Cancelled(v.row) && row.value.status == TicketStatus.Used
    ensures SameEnd(v, v.(row := row, queued := v.queued - multiset{m}))
  {
    OtherKindsStay(v.queued, m);
  }

  lemma CancelledKeepsEnd(v: CodeView, m: Message, record: Option<CacheRecord>)
    requires Sound(v) && v.row.Some? && m in v.queued && m.TicketCancelled? && (v.record.None? ==> !HasCreated(v.queued))
    requires if v.record.None? then record.None?
             else v.record.value.status == Active && record.Some? && record.value.status == ValidTicketStatus.Cancelled
    ensures SameEnd(v, v.(record := record, queued := v.queued - multiset{m}))
  {
    OtherKindsStay(v.queued, m);
    assert m == CancelledOf(v.row.value);
    assert forall x :: x in v.queued && x.TicketCancelled? ==> x == m;
  }

  /** A delivery sends nothing and admits nobody, and one that is refused does nothing. */
  lemma DeliveryEffect(row: Option<TicketRow>, record: Option<CacheRecord>, call: Call) returns (r: Response)
    requires call.Deliver?
    ensures r == Respond(row, record, call)
    ensures r.effect.send.None? && !r.effect.admits && !r.effect.missed
    ensures r.outcome != Ok ==> r.effect == Nothing(call.message.code)
  {
    r := Respond(row, record, call);
  }

  /** An acknowledged delivery changes at most the row or the record, and removes its message. */
  lemma AckedView(v: CodeView, call: Call, r: Response)
    requires Clean(call) && call.message in v.queued
    requires r.effect.send.None? && !r.effect.admits && !r.effect.missed
    requires r.outcome != Ok ==> r.effect == Nothing(call.message.code)
    ensures var v', e := ServeViewWith(v, call, r), r.effect;
            if r.outcome == Ok then
              v' == v.(row := if e.row.Some? then e.row else v.row, record := if e.record.Some? then e.record else v.record,
                       queued := v.queued - multiset{call.message}, early := v.early + Count(e.early))
            else v' == v
  {
  }

  lemma DeliveryKeepsEnd(v: CodeView, call: Call)
    requires Sound(v) && Clean(call) && call.message in v.queued && v.row.Some? && v.row.value.code == call.message.code
    requires call.message.TicketCancelled? && v.record.None? ==> !HasCreated(v.queued)
    ensures SameEnd(v, ServeView(v, call))
  {
    var m := call.message;
    var r := DeliveryEffect(v.row, v.record, call);
    AckedView(v, call, r);
    var v' := ServeView(v, call);
    if r.outcome == Ok {
      if m.TicketCreated? {
        CreatedKeepsEnd(v, m, v'.record);
      } else if m.TicketUsed? {
        UsedKeepsEnd(v, m, v'.row);
      } else {
        CancelledKeepsEnd(v, m, v'.record);
      }
    }
  }

  lemma ServeKeepsEnd(w: World, call: Call, c: string)
    requires Safe(w) && Clean(call) && Ordered(w, [call])
    ensures SameEnd(View(w, c), View(Serve(w, call), c))
  {
    var v := View(w, c);
    assert Sound(v);
    ServeIsLocal(w, call, c);
    if c == call.Code() && call.message in w.bus.queued {
      assert call.message in v.queued;
      assert HasCreated(v.queued) ==> CreatedQueued(w, c);
      DeliveryKeepsEnd(v, call);
    }
  }

  lemma {:induction false} DrainKeepsEnd(w: World, calls: seq<Call>, c: string)
    requires Safe(w) && AllClean(calls) && Ordered(w, calls)
    ensures Safe(ServeAll(w, calls)) && SameEnd(View(w, c), View(ServeAll(w, calls), c))
    decreases |calls|
  {
    if calls != [] {
      ServeKeepsEnd(w, calls[0], c);
      ServeKeepsSafe(w, calls[0]);
      DrainKeepsEnd(Serve(w, calls[0]), calls[1..], c);
    }
  }

  /** Where nothing can be acknowledged, the end is what there is. */
  lemma QuietIsItsEnd(w: World, c: string)
    requires Safe(w) && Quiet(w)
    ensures var v := View(w, c);
            EndRow(v) == RowStatus(v.row) && EndRecord(v) == RecordStatus(v.record)
            && forall m :: EndCount(v, m) == v.queued[m]
  {
    var v := View(w, c);
    forall m | m in v.queued ensures Left(v, m) {
      StuckIff(w, m);
    }
    LeftIsItsEnd(v);
  }

  lemma LeftIsItsEnd(v: CodeView)
    requires forall m :: m in v.queued ==> Left(v, m)
    ensures EndRow(v) == RowStatus(v.row) && EndRecord(v) == RecordStatus(v.record)
    ensures forall m :: EndCount(v, m) == v.queued[m]
  {
  }

  /** From a reachable world, any two exhaustive delivery orders that put created
      before cancelled end with the same statuses in both stores and the same messages left over. */
  lemma Confluence(w: World, calls: seq<Call>, calls': seq<Call>)
    requires Safe(w)
    requires AllClean(calls) && Ordered(w, calls) && Quiet(ServeAll(w, calls))
    requires AllClean(calls') && Ordered(w, calls') && Quiet(ServeAll(w, calls'))
    ensures var u, u' := ServeAll(w, calls), ServeAll(w, calls');
            && u.bus.queued == u'.bus.queued
            && forall c ::
                 && RowStatus(ByCode(u.db.tickets, c)) == RowStatus(ByCode(u'.db.tickets, c))
                 && RecordStatus(Lookup(u.cache, c)) == RecordStatus(Lookup(u'.cache, c))
  {
    var u, u' := ServeAll(w, calls), ServeAll(w, calls');
    forall c
      ensures RowStatus(ByCode(u.db.tickets, c)) == RowStatus(ByCode(u'.db.tickets, c))
      ensures RecordStatus(Lookup(u.cache, c)) == RecordStatus(Lookup(u'.cache, c))
      ensures forall m :: About(u.bus.queued, c)[m] == About(u'.bus.queued, c)[m]
    {
      DrainKeepsEnd(w, calls, c);
      DrainKeepsEnd(w, calls', c);
      QuietIsItsEnd(u, c);
      QuietIsItsEnd(u', c);
    }
    forall m: Message ensures u.bus.queued[m] == u'.bus.queued[m] {
      assert u.bus.queued[m] == About(u.bus.queued, m.code)[m];
      assert u'.bus.queued[m] == About(u'.bus.queued, m.code)[m];
    }
  }
}
