/** From the purchase to the mail, in every run: the codes of a completed purchase
    name its tickets, and the tokens in its mail verify back to those codes. */
module QrChain {
  import opened Wrappers
  import opened Messages
  import opened TicketDomain
  import opened TicketStore
  import opened ValidatorDomain
  import opened Calls
  import opened PurchaseSteps
  import opened Protocol
  import opened Views
  import opened Accounting
  import opened Safety
  import opened Guarantees
  import opened Reduction
  import opened Tokens
  import opened QrWorkers

  /** Codes are drawn as UUIDs. */
  ghost predicate PlainCodes(w: World) {
    forall id :: id in w.db.tickets ==> '.' !in w.db.tickets[id].code
  }

  /** `code` names a ticket of purchase `p`. */
  ghost predicate Names(w: World, p: int, code: string) {
    var row := ByCode(w.db.tickets, code);
    row.Some? && row.value.purchaseId == p && '.' !in code
  }

  /** `m` names the buyer and the event of its purchase and lists its tickets, each once. */
  ghost predicate Lists(w: World, m: PurchaseCompleted) {
    && m.purchaseId in w.db.purchases
    && m.buyerEmail == w.db.purchases[m.purchaseId].buyerEmail
    && w.db.purchases[m.purchaseId].eventId in w.db.events
    && m.eventName == w.db.events[w.db.purchases[m.purchaseId].eventId].name
    && |m.ticketCodes| == w.db.purchases[m.purchaseId].quantity
    && (forall i :: 0 <= i < |m.ticketCodes| ==> Names(w, m.purchaseId, m.ticketCodes[i]))
    && (forall i, j :: 0 <= i < j < |m.ticketCodes| ==> m.ticketCodes[i] != m.ticketCodes[j])
  }

  ghost predicate Mailable(w: World) {
    PlainCodes(w) && forall m :: m in w.bus.completed ==> Lists(w, m)
  }

  lemma StepKeepsPlainCodes(w: World, a: Action)
    requires Books(w) && PlainCodes(w)
    ensures PlainCodes(Step(w, a))
  {
    if a.Request? {
      RequestIsServe(w, a.call);
      RequestKeepsTickets(w, a.call);
      SameTicketsSameCodes(w, Serve(w, a.call));
    } else {
      PurchaseKeepsPlainCodes(w, a);
    }
  }

  lemma SameTicketsSameCodes(w: World, w': World)
    requires PlainCodes(w) && SameTickets(w, w')
    ensures PlainCodes(w')
  {
    assert forall id :: id in w'.db.tickets.Keys <==> id in w.db.tickets.Keys;
  }

  lemma PurchaseKeepsPlainCodes(w: World, a: Action)
    requires PlainCodes(w) && !a.Request?
    ensures PlainCodes(Step(w, a))
  {
  }

  /** Purchase rows and event names stay, and a code goes on naming the same ticket. */
  lemma StepKeepsLists(w: World, a: Action, m: PurchaseCompleted)
    requires Safe(w) && Lists(w, m)
    ensures Lists(Step(w, a), m)
  {
    var w' := Step(w, a);
    StepKeepsPurchases(w, a, m.purchaseId);
    StepKeepsTerms(w, a, w.db.purchases[m.purchaseId].eventId);
    forall i | 0 <= i < |m.ticketCodes| ensures Names(w', m.purchaseId, m.ticketCodes[i]) {
      assert Names(w, m.purchaseId, m.ticketCodes[i]);
      StepIsLater(w, a, m.ticketCodes[i]);
    }
  }

  lemma StepKeepsPurchases(w: World, a: Action, p: int)
    requires Books(w) && p in w.db.purchases
    ensures p in Step(w, a).db.purchases && Step(w, a).db.purchases[p] == w.db.purchases[p]
  {
    if a.Request? {
      RequestIsServe(w, a.call);
      RequestKeepsTickets(w, a.call);
    } else {
      BuyingKeepsPurchases(w, a, p);
    }
  }

  lemma BeginKeepsPurchases(db: Db, input: PurchaseInput, getUp: bool, addUp: bool, p: int)
    requires p in db.purchases && p < db.nextPurchase
    ensures var after := Begin(db, input, getUp, addUp).db.purchases; p in after && after[p] == db.purchases[p]
  {
  }

  lemma StartKeepsPurchases(w: World, a: Action, p: int)
    requires p in w.db.purchases && p < w.db.nextPurchase && a.StartPurchase?
    ensures p in Step(w, a).db.purchases && Step(w, a).db.purchases[p] == w.db.purchases[p]
  {
    BeginKeepsPurchases(w.db, a.input, a.getUp, a.addUp, p);
    assert Step(w, a).db == w.db || Step(w, a).db == Begin(w.db, a.input, a.getUp, a.addUp).db;
  }

  lemma LaterStepsKeepPurchases(w: World, a: Action)
    requires !a.Request? && !a.StartPurchase?
    ensures Step(w, a).db.purchases == w.db.purchases
  {
  }

  lemma BuyingKeepsPurchases(w: World, a: Action, p: int)
    requires Books(w) && p in w.db.purchases && !a.Request?
    ensures p in Step(w, a).db.purchases && Step(w, a).db.purchases[p] == w.db.purchases[p]
  {
    if a.StartPurchase? {
      assert p < w.db.nextPurchase;
      StartKeepsPurchases(w, a, p);
    } else {
      LaterStepsKeepPurchases(w, a);
    }
  }

  lemma {:induction false} IdsDistinct(tickets: seq<TicketRow>)
    ensures |Ids(tickets)| <= |tickets|
    ensures |Ids(tickets)| == |tickets| ==> forall i, j :: 0 <= i < j < |tickets| ==> tickets[i].id != tickets[j].id
    decreases |tickets|
  {
    if tickets == [] {
      assert Ids(tickets) == {};
    } else {
      var n := |tickets| - 1;
      var rest, t := tickets[..n], tickets[n];
      IdsDistinct(rest);
      IdsAppend(rest, t);
      assert tickets == rest + [t];
      if |Ids(tickets)| == |tickets| {
        assert t.id !in Ids(rest);
        forall i, j | 0 <= i < j < |tickets| ensures tickets[i].id != tickets[j].id {
          assert rest[i] in rest;
          assert j < n ==> rest[i].id != rest[j].id;
        }
      }
    }
  }

  /** The message of a purchase that completes. */
  lemma CompletedLists(w: World, e: int)
    requires Books(w) && PlainCodes(w) && e in w.running && w.running[e].settled
    ensures var run := w.running[e];
            Lists(w, PurchaseCompleted(run.purchase.id, run.purchase.buyerEmail, run.event.name, Codes(run.tickets)))
  {
    var run := w.running[e];
    var codes := Codes(run.tickets);
    assert Live(w, e, run);
    IdsDistinct(run.tickets);
    forall i | 0 <= i < |codes| ensures Names(w, run.purchase.id, codes[i]) {
      var t := run.tickets[i];
      assert t in run.tickets && t.id in Ids(run.tickets);
      ByCodeFinds(w.db.tickets, w.db.nextTicket, t.id);
    }
    forall i, j | 0 <= i < j < |codes| ensures codes[i] != codes[j] {
      assert run.tickets[i] in run.tickets && run.tickets[j] in run.tickets;
    }
  }

  /** Only the completion of a purchase publishes such a message. */
  lemma StepCompletes(w: World, a: Action, m: PurchaseCompleted)
    requires m in Step(w, a).bus.completed && m !in w.bus.completed
    ensures a.CompletePurchase? && a.eventId in w.running && w.running[a.eventId].settled
    ensures var run := w.running[a.eventId];
            m == PurchaseCompleted(run.purchase.id, run.purchase.buyerEmail, run.event.name, Codes(run.tickets))
  {
    if a.Request? {
      ServeTouchesNoRest(w, a.call);
    }
  }

  lemma StepKeepsMailable(w: World, a: Action)
    requires Safe(w) && Mailable(w)
    ensures Mailable(Step(w, a))
  {
    StepKeepsPlainCodes(w, a);
    forall m | m in Step(w, a).bus.completed ensures Lists(Step(w, a), m) {
      if m !in w.bus.completed {
        StepCompletes(w, a, m);
        CompletedLists(w, a.eventId);
      }
      StepKeepsLists(w, a, m);
    }
  }

  lemma {:induction false} RunKeepsMailable(w: World, trace: seq<Action>)
    requires Safe(w) && Mailable(w)
    ensures Mailable(Run(w, trace))
    decreases |trace|
  {
    if trace != [] {
      StepKeepsMailable(w, trace[0]);
      StepKeepsSafe(w, trace[0]);
      RunKeepsMailable(Step(w, trace[0]), trace[1..]);
    }
  }

  /** In every run, the mail for a completed purchase goes to its buyer, names its event, shows the tickets
      for which an image could be generated, in order, each once; every token shown
      verifies back to its code, which names a ticket of that purchase; and when
      no generation fails there is one image for each ticket bought. */
  lemma MailShowsThePurchase(trace: seq<Action>, m: PurchaseCompleted, signer: Signer, generate: Generator)
    returns (at: seq<nat>)
    requires m in Run(EMPTY, trace).bus.completed
    ensures Succeeded(signer, generate, m.ticketCodes, at)
    ensures var w, mail := Run(EMPTY, trace), MailOf(signer, generate, m);
            && m.purchaseId in w.db.purchases && mail.to == w.db.purchases[m.purchaseId].buyerEmail
            && w.db.purchases[m.purchaseId].eventId in w.db.events
            && mail.eventName == w.db.events[w.db.purchases[m.purchaseId].eventId].name
            && |mail.images| == |at|
            && ((forall i: nat, token :: generate(i, token).Some?) ==> |mail.images| == w.db.purchases[m.purchaseId].quantity)
            && forall k :: 0 <= k < |at| ==>
                 var code := m.ticketCodes[at[k]];
                 && generate(at[k], signer.Sign(code)) == Some(mail.images[k])
                 && signer.Verify(signer.Sign(code)) == (code, true)
                 && Names(w, m.purchaseId, code)
  {
    at := ImagesAreTheSuccesses(signer, generate, m.ticketCodes);
    ReachableIsSafe([]);
    RunKeepsMailable(EMPTY, trace);
    assert Lists(Run(EMPTY, trace), m);
    if forall i: nat, token :: generate(i, token).Some? {
      AllSucceed(|m.ticketCodes|, at);
    }
  }

  /** Every index is listed, in increasing order: so there are as many as indices. */
  lemma {:induction false} AllSucceed(n: nat, at: seq<nat>)
    requires forall k :: 0 <= k < |at| ==> at[k] < n
    requires forall j, k :: 0 <= j < k < |at| ==> at[j] < at[k]
    requires forall i: nat :: i < n ==> i in at
    ensures |at| == n
  {
    if n > 0 {
      assert n - 1 in at;
      assert at[|at| - 1] == n - 1;
      var rest := at[..|at| - 1];
      forall i: nat | i < n - 1 ensures i in rest {
        assert i in at;
      }
      AllSucceed(n - 1, rest);
    }
  }

  /* ----- at the gate ----- */

  /** A token presented at the gate, and how the infrastructure will answer. */
  datatype Scan = Scan(token: string, port: Port, io: IO, now: int)

  function CallOf(s: Scan, code: string): (call: Call)
    ensures call.Validate? && call.Code() == code
  {
    Validate(code, s.port, s.io, s.now)
  }

  /** The gate's endpoint asks the validator only about tokens that verify. */
  ghost function Scanned(w: World, signer: Signer, s: Scan): World {
    var v := signer.Verify(s.token);
    if s.token == "" || !v.1 then w else Serve(w, CallOf(s, v.0))
  }

  lemma CallAdmitsIff(w: World, call: Call, c: string)
    requires ValidTickets(w) && call.Validate?
    ensures Serve(w, call).hist.admitted[c] == w.hist.admitted[c] + Count(c == call.Code() && Opens(View(w, c), call))
  {
    ServeIsLocal(w, call, c);
    assert View(Serve(w, call), c).admitted == Serve(w, call).hist.admitted[c];
    if c == call.Code() {
      ValidateAdmitsIff(View(w, c), call);
    }
  }

  /** In every reachable world a scan admits the holder of `c` if and only if what was
      scanned is the token of `c` and the ticket can enter; and nobody else. */
  lemma GateAdmitsIff(trace: seq<Action>, signer: Signer, s: Scan, c: string)
    ensures var w := Run(EMPTY, trace);
            Scanned(w, signer, s).hist.admitted[c] ==
            w.hist.admitted[c] + Count(s.token == signer.Sign(c) && '.' !in c && Opens(View(w, c), CallOf(s, c)))
  {
    ReachableIsSafe(trace);
    VerifyInvertsSign(signer, s.token, c);
    CallAdmitsIff(Run(EMPTY, trace), CallOf(s, signer.Verify(s.token).0), c);
  }

  /** The token in the mail admits, unless the infrastructure fails, as long as its
      ticket was neither used nor cancelled; whether or not the validator has heard of it. */
  lemma MailedTokenAdmits(trace: seq<Action>, m: PurchaseCompleted, i: nat, signer: Signer, s: Scan)
    requires m in Run(EMPTY, trace).bus.completed && i < |m.ticketCodes|
    requires s.token == signer.Sign(m.ticketCodes[i]) && s.io == ALL_UP && s.port != Down
    ensures var w, c := Run(EMPTY, trace), m.ticketCodes[i];
            var row := ByCode(w.db.tickets, c);
            && row.Some?
            && ((row.value.status == Emitted && (c in w.cache ==> w.cache[c].status == Active)) ==>
                  Scanned(w, signer, s).hist.admitted[c] == w.hist.admitted[c] + 1)
  {
    ReachableIsSafe([]);
    RunKeepsMailable(EMPTY, trace);
    assert Lists(Run(EMPTY, trace), m);
    assert Names(Run(EMPTY, trace), m.purchaseId, m.ticketCodes[i]);
    GateAdmitsIff(trace, signer, s, m.ticketCodes[i]);
  }
}
