/** The QR worker: one mail per completed purchase, with an image of the signed
    token of every ticket whose image could be generated. */
module QrWorkers {
  import opened Wrappers
  import opened Messages
  import opened Tokens
  import opened Calls

  newtype byte = x: int | 0 <= x < 256

  type Image = seq<byte>

  datatype Mail = Mail(to: string, eventName: string, images: seq<Image>)

  /** The QR generator port: its answer to the n-th call for a message. */
  type Generator = (nat, string) -> Option<Image>

  /** The mailed images for `codes`. */
  function Images(signer: Signer, generate: Generator, codes: seq<string>): seq<Image> {
    if codes == [] then []
    else
      var n := |codes| - 1;
      var image := generate(n, signer.Sign(codes[n]));
      Images(signer, generate, codes[..n]) + if image.Some? then [image.value] else []
  }

  function MailOf(signer: Signer, generate: Generator, m: PurchaseCompleted): Mail {
    Mail(m.buyerEmail, m.eventName, Images(signer, generate, m.ticketCodes))
  }

  datatype Worked = Worked(decision: Decision, mailed: seq<Mail>)

  /** What becomes of one delivery, and the mail that goes out. */
  function Work(signer: Signer, body: Option<PurchaseCompleted>, generate: Generator, sendUp: bool): Worked {
    var d := Decide(body, if sendUp then Ok else Internal);
    Worked(d, if d == Ack then [MailOf(signer, generate, body.value)] else [])
  }

  class QRWorkerConsumer {
    const tokenSigner: Signer
    /** The mails the SMTP server accepted. */
    var mailed: seq<Mail>

    constructor (tokenSigner: Signer)
      ensures this.tokenSigner == tokenSigner && mailed == []
    {
      this.tokenSigner, mailed := tokenSigner, [];
    }

    /** A `body` of None does not unmarshal: it is dropped. A failed send is tried again. */
    method HandleMessage(body: Option<PurchaseCompleted>, generate: Generator, sendUp: bool) returns (d: Decision)
      modifies this
      ensures var work := Work(tokenSigner, body, generate, sendUp);
              d == work.decision && mailed == old(mailed) + work.mailed
      ensures d == if body.None? then Drop else if sendUp then Ack else Requeue
      ensures mailed == if d != Ack then old(mailed)
                        else old(mailed) + [Mail(body.value.buyerEmail, body.value.eventName,
                                                 Images(tokenSigner, generate, body.value.ticketCodes))]
    {
      if body.None? {
        return Drop;
      }
      var codes := body.value.ticketCodes;
      var qrImages: seq<Image> := [];
      for i := 0 to |codes|
        invariant qrImages == Images(tokenSigner, generate, codes[..i])
      {
        var token := tokenSigner.Sign(codes[i]);
        var image := generate(i, token);
        assert codes[..i + 1][..i] == codes[..i];
        if image.None? {
          continue;
        }
        qrImages := qrImages + [image.value];
      }
      assert codes[..|codes|] == codes;
      if !sendUp {
        return Requeue;
      }
      mailed := mailed + [Mail(body.value.buyerEmail, body.value.eventName, qrImages)];
      return Ack;
    }
  }

  /** `at` lists the calls of the generator that succeeded, in order. */
  ghost predicate Succeeded(signer: Signer, generate: Generator, codes: seq<string>, at: seq<nat>) {
    && (forall k :: 0 <= k < |at| ==> at[k] < |codes| && generate(at[k], signer.Sign(codes[at[k]])).Some?)
    && (forall j, k :: 0 <= j < k < |at| ==> at[j] < at[k])
    && (forall i: nat :: i < |codes| && generate(i, signer.Sign(codes[i])).Some? ==> i in at)
  }

  /** The images are those of the successful calls, in the order of the codes, each
      once; and each shows a token that verifies back to its code, if that has no dot. */
  lemma {:induction false} ImagesAreTheSuccesses(signer: Signer, generate: Generator, codes: seq<string>) returns (at: seq<nat>)
    ensures Succeeded(signer, generate, codes, at)
    ensures var images := Images(signer, generate, codes);
            && |images| == |at| <= |codes|
            && forall k :: 0 <= k < |at| ==>
                 var code := codes[at[k]];
                 && generate(at[k], signer.Sign(code)) == Some(images[k])
                 && (signer.Verify(signer.Sign(code)) == (code, true) <==> '.' !in code)
    decreases |codes|
  {
    at := [];
    if codes != [] {
      var n := |codes| - 1;
      at := ImagesAreTheSuccesses(signer, generate, codes[..n]);
      if generate(n, signer.Sign(codes[n])).Some? {
        at := at + [n];
      }
      forall k | 0 <= k < |at|
        ensures signer.Verify(signer.Sign(codes[at[k]])) == (codes[at[k]], true) <==> '.' !in codes[at[k]]
      {
        VerifyInvertsSign(signer, signer.Sign(codes[at[k]]), codes[at[k]]);
      }
    }
  }

  /* ----- the queue in front of the worker ----- */

  datatype Delivery = Delivery(m: PurchaseCompleted, generate: Generator, sendUp: bool, acked: bool)

  /** The queue, and the mails sent so far. */
  datatype Desk = Desk(queued: multiset<PurchaseCompleted>, mails: seq<Mail>)

  /** One delivery: the worker's mail goes out, and the message leaves the queue when it
      is acknowledged and the acknowledgement arrives. */
  function Deliver(signer: Signer, d: Desk, x: Delivery): Desk {
    if x.m !in d.queued then d
    else
      var work := Work(signer, Some(x.m), x.generate, x.sendUp);
      Desk(if work.decision != Requeue && x.acked then d.queued - multiset{x.m} else d.queued, d.mails + work.mailed)
  }

  function DeliverAll(signer: Signer, d: Desk, xs: seq<Delivery>): Desk
    decreases |xs|
  {
    if xs == [] then d else DeliverAll(signer, Deliver(signer, d, xs[0]), xs[1..])
  }

  /** The deliveries that found their message and sent a mail. */
  function Sends(signer: Signer, d: Desk, xs: seq<Delivery>): seq<Delivery>
    decreases |xs|
  {
    if xs == [] then []
    else (if xs[0].m in d.queued && xs[0].sendUp then [xs[0]] else []) + Sends(signer, Deliver(signer, d, xs[0]), xs[1..])
  }

  function MailsOf(signer: Signer, sends: seq<Delivery>): seq<Mail> {
    seq(|sends|, i requires 0 <= i < |sends| => MailOf(signer, sends[i].generate, sends[i].m))
  }

  /** How many of these deliveries took `m` off the queue. */
  function Departures(sends: seq<Delivery>, m: PurchaseCompleted): nat {
    if sends == [] then 0 else (if sends[0].m == m && sends[0].acked then 1 else 0) + Departures(sends[1..], m)
  }

  lemma OneDelivery(signer: Signer, d: Desk, x: Delivery, m: PurchaseCompleted)
    ensures var d' := Deliver(signer, d, x);
            if x.m in d.queued && x.sendUp then
              && d'.mails == d.mails + [MailOf(signer, x.generate, x.m)]
              && d.queued[m] == d'.queued[m] + (if x.m == m && x.acked then 1 else 0)
            else d' == d
  {
  }

  lemma SendFirst(signer: Signer, x: Delivery, rest: seq<Delivery>, m: PurchaseCompleted)
    ensures MailsOf(signer, [x] + rest) == [MailOf(signer, x.generate, x.m)] + MailsOf(signer, rest)
    ensures Departures([x] + rest, m) == (if x.m == m && x.acked then 1 else 0) + Departures(rest, m)
  {
    assert ([x] + rest)[1..] == rest;
  }

  lemma {:induction false} MailsAreSent(signer: Signer, d: Desk, xs: seq<Delivery>, m: PurchaseCompleted)
    ensures var d', sends := DeliverAll(signer, d, xs), Sends(signer, d, xs);
            && d'.mails == d.mails + MailsOf(signer, sends)
            && d.queued[m] == d'.queued[m] + Departures(sends, m)
    decreases |xs|
  {
    if xs == [] {
      assert d.mails + [] == d.mails;
    } else {
      var x, d1 := xs[0], Deliver(signer, d, xs[0]);
      var rest, mail := Sends(signer, d1, xs[1..]), [MailOf(signer, xs[0].generate, xs[0].m)];
      OneDelivery(signer, d, x, m);
      MailsAreSent(signer, d1, xs[1..], m);
      if x.m in d.queued && x.sendUp {
        SendFirst(signer, x, rest, m);
        assert Sends(signer, d, xs) == [x] + rest;
        Associate(d.mails, mail, MailsOf(signer, rest));
      } else {
        assert Sends(signer, d, xs) == rest;
      }
    }
  }

  lemma Associate<T>(a: seq<T>, b: seq<T>, c: seq<T>)
    ensures (a + b) + c == a + (b + c)
  {
  }

  /** `mail` is about message `m`: to its buyer, with its event and the images of its codes. */
  ghost predicate Tells(mail: Mail, m: PurchaseCompleted, signer: Signer, generate: Generator) {
    && mail.to == m.buyerEmail && mail.eventName == m.eventName
    && mail.images == Images(signer, generate, m.ticketCodes)
  }

  lemma MailsTell(signer: Signer, mails: seq<Mail>, sends: seq<Delivery>)
    ensures var all := mails + MailsOf(signer, sends);
            && |all| == |mails| + |sends| && all[..|mails|] == mails
            && forall i :: 0 <= i < |sends| ==> Tells(all[|mails| + i], sends[i].m, signer, sends[i].generate)
  {
    forall i | 0 <= i < |sends|
      ensures Tells((mails + MailsOf(signer, sends))[|mails| + i], sends[i].m, signer, sends[i].generate)
    {
      assert (mails + MailsOf(signer, sends))[|mails| + i] == MailOf(signer, sends[i].generate, sends[i].m);
    }
  }

  /** The mails are exactly those of the deliveries that sent one, in order; and a message
      leaves the queue exactly with such a delivery, unless its acknowledgement is lost. */
  lemma EveryMessageIsMailed(signer: Signer, d: Desk, xs: seq<Delivery>, m: PurchaseCompleted)
    ensures var d', sends := DeliverAll(signer, d, xs), Sends(signer, d, xs);
            && |d'.mails| == |d.mails| + |sends| && d'.mails[..|d.mails|] == d.mails
            && (forall i :: 0 <= i < |sends| ==> Tells(d'.mails[|d.mails| + i], sends[i].m, signer, sends[i].generate))
            && d.queued[m] == d'.queued[m] + Departures(sends, m)
  {
    MailsAreSent(signer, d, xs, m);
    MailsTell(signer, d.mails, Sends(signer, d, xs));
  }

  lemma {:induction false} DepartureSent(sends: seq<Delivery>, m: PurchaseCompleted) returns (i: nat)
    requires Departures(sends, m) > 0
    ensures i < |sends| && sends[i].m == m
  {
    if sends[0].m == m && sends[0].acked {
      i := 0;
    } else {
      i := DepartureSent(sends[1..], m);
      i := i + 1;
    }
  }

  /** Every message that left the queue was answered by a mail of its own content. */
  lemma DepartedWasMailed(signer: Signer, d: Desk, xs: seq<Delivery>, m: PurchaseCompleted) returns (i: nat, generate: Generator)
    requires DeliverAll(signer, d, xs).queued[m] < d.queued[m]
    ensures var mails := DeliverAll(signer, d, xs).mails;
            |d.mails| <= i < |mails| && Tells(mails[i], m, signer, generate)
  {
    EveryMessageIsMailed(signer, d, xs, m);
    var sends := Sends(signer, d, xs);
    var k := DepartureSent(sends, m);
    i, generate := |d.mails| + k, sends[k].generate;
  }
}
