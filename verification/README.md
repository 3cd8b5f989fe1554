# Tickets at the gate: a verified model of entradasQR

Two services keep track of the same tickets. The **ticket service** owns the rows in MySQL
(`emitted`, then `used` or `cancelled`) and sells them. The **validator** stands at the gate with a
replica in Redis (`active`, then `used` or `cancelled`) and asks the ticket service when its replica
has no record. Three queues, `ticket.created`, `ticket.cancelled` and `ticket.used`, carry the news
between them, with acknowledgement, requeue and drop. A fourth, `purchase.completed`, feeds the worker that mails
signed QR tokens. The project models these parts, and the rate limiter in front of the gate, and
proves what they guarantee together.

## How the model is built

- **Objects.** Entities, repositories, broker, services, consumers, QR worker and limiter are classes whose
  methods change fields as the Go code does (`TicketDomain`, `TicketStore`, `ValidatorDomain`, `Messages`,
  `TicketServices`, `ValidatorServices`, `Consumers`, `QrWorkers`, `RateLimit`). The infrastructure's answer to
  each repository or publisher call is a parameter; a call that fails has no effect.
- **Calls as values.** `Calls` and `PurchaseSteps` say what each call does to the row, the cache key and the queue, as
  functions. Every service method is proved equal to its function, for every combination of failures.
- **The whole system.** `Protocol` steps the same functions over tables, cache, message multisets and purchases in
  progress, with a history of admissions. A purchase advances one repository or publisher
  call at a time, so gate calls may run inside it. A delivery may be acknowledged, requeued, or handled and
  delivered again because its acknowledgement was lost.
- **One code at a time.** `Views` proves that a call about one code reads and writes that code's view and no
  other, so `Safety` states the invariant on a view and lifts it to every reachable world.
- **Results.** `Guarantees` (every run), `Answers` (what each call answers and does, on rows, records and messages), `Draining` (once requests stop), `Convergence` (when the stores agree), `Reduction`
  (interleaved calls and purchases that do not overlap), `Staleness` (every interleaving), `Overlaps`, `Races` and `LostSales` (pairs
  that overlap), `Accounting` and `Purchases` (sales), `Tokens`, `QrChain` (from purchase to gate), `RateLaws` and `SlidingWindow` (limiter), and
  `Witnesses` (concrete runs, built from `Samples`). Each file holds the module of its name.

## What the code needs, and where it falls short

The code reads, then writes blindly, without transactions. Each hypothesis below is named in the model, and comes with what
holds without it and with a run from the empty world in which its absence does harm.

- **Serial access.** Calls on one code, and purchases on one event, do not overlap. `Reduction.Reduction`
  shows that calls on different codes, and the steps of purchases, may interleave freely, and
  `Reduction.InterleavedIsReachable` carries the results about runs over to such interleavings. Less is enough for
  at-most-once and for statuses that move once: calls on one code may overlap as long as none writes a record or a row that another call has
  written since it was read (`Staleness.RecordedLaw`, `Staleness.FreshStatusesMoveOnce`). In every interleaving whatever,
  admissions exceed the one that the cache shows by exactly the uses that were written over (`Staleness.InterleavedAdmissionLaw`), so a second
  admission needs such a write. The code does not prevent it: two validations may overlap (exactly when both admit:
  `Overlaps.BothAdmitIff`; reachable: `Overlaps.OverlapIsReachable`), or the handler of a creation may read before a live
  admission and write after it (exactly when the use is lost: `Races.UseIsLostIff`; reachable: `Witnesses.StaleCreationAdmitsTwice`).
  In the database a stale use turns a cancelled ticket into a used one (`Witnesses.StaleUseIsReachable`). Of two purchases
  on one event both are counted if and only if one wrote the event back before the other read it
  (`LostSales.BothCountedIff`; reachable: `Witnesses.OneSeatTwoTickets`).
- **Lookup contract.** The port the validator asks answers with the ticket's own event id. The HTTP client in the repository
  fills in 0 (`internal/validator/adapter/ticket_service_http_client.go:88-92`): the ticket is then admitted, but no record can be
  created. `Guarantees.ReadmitsIffMissed` shows that the next validation admits it again exactly then, or when the cache
  write failed, and `Witnesses.LookupContractMatters` is a run with two holders. Runs of the model may use either answer;
  `Guarantees.AdmissionLaw` counts these misses.
- **Delivery order.** `created` is handled before `cancelled` is consumed; the acknowledgement of `created` may be lost.
  A cancellation consumed before that is acknowledged as a no-op and the replica stays active: `Convergence.OrderDecidesAdmission`
  shows that the order alone then decides whether a cancelled ticket still enters, `Witnesses.DeliveryOrderMatters` is a run in
  which it does, and `Convergence.ConvergesIff` says exactly when the stores agree in the end.
- **Idle clients.** The limiter forgets clients idle for ten minutes. That is harmless if and only if
  `rate * 600 >= burst` (`RateLaws.TransparentIff`, `RateLaws.RateKeptIff`); the wired 10 and 20 comply. Under the same condition the
  limiter refuses exactly the requests in excess of the rate (`SlidingWindow.RefusedIff`).
- **Codes with dots.** `Verify(Sign(c))` fails exactly when `c` holds a dot. UUIDs hold none.

Where documentation and code differ, the model follows the code: the comments on `NewTicket`, `NewEvent` and `NewPurchase` ask for
positive ids, the code accepts 0; the comment on `SyncTicketUsed` calls the operation idempotent reconciliation, but for a ticket
cancelled in the database it fails every time, so its message is requeued for ever (`Draining.StuckIff`).

## Model

| member | source | states |
|---|---|---|
| Guarantees.AtMostOnce | internal/validator/service.go:60-154 | in every run whose cache writes succeed and whose lookups honour their contract, no code is admitted twice, cache path and live path together, whatever is cancelled, lost, delivered or redelivered in between |
| Guarantees.AdmissionLaw | internal/validator/service.go:60-154 | in every run at all, the admissions of a code are the live ones that left no cache record, plus one if the cache says used |
| Guarantees.ReadmitsIffMissed | internal/validator/service.go:131-148 | after a live admission the next validation admits again if and only if the cache write failed or the lookup gave no event id |
| Guarantees.ValidateAdmitsIff | internal/validator/service.go:60-154 | a validation admits if and only if the record is read and is active and can be written, or there is none and the lookup says emitted |
| Guarantees.AdmitsIffValid | internal/validator/service.go:60-154 | the history counts exactly the answers with Valid = true, and counts as missed those after which no record was written; every such answer has tried to publish |
| Answers.ValidateAnswers | internal/validator/service.go:60-154 | what the gate is told, in every world: seven answers, no two alike, each if and only if its own condition holds of the record, the row, the lookup and the failures |
| Answers.ValidateDoes | internal/validator/service.go:60-154 | in every reachable world a validation that is not answered valid changes nothing; a valid one leaves a used record of the ticket's event with the time, unless the live path cannot, and sends or loses exactly one used message |
| Answers.CancelDoes | internal/ticket/service.go:167-194 | in every reachable world, each of the four outcomes of a cancellation if and only if its own condition on the row and the failures holds, and what becomes of the row and the queue in each |
| Answers.CancelSucceedsIff | internal/ticket/service.go:167-194 | the owner is told success if and only if the row was emitted, is cancelled now, and exactly its cancelled message joined the queue |
| Answers.CreatedDoes | internal/validator/service.go:167-188 | a delivered created message in every reachable world: outcome, record, and whether it leaves the queue |
| Answers.CancelledDoes | internal/validator/service.go:201-220 | likewise for a cancelled message: refused if and only if the record is used or cancelled, consumed without effect if there is none |
| Answers.UsedDoes | internal/ticket/service.go:207-230 | likewise for a used message: its row exists, and is used with the time of the delivery afterwards, or was cancelled, or a store failed |
| Guarantees.StatusesMoveOnce | internal/ticket/ticket.go:157-192 | along every run the row and the record of a code leave their initial status at most once each; id, code, event and purchase never change, although Update writes by id what was fetched by code |
| Guarantees.NoAdmissionAfterClosing | internal/validator/service.go:77-83 | once the cache says used or cancelled, the record is frozen and no later step of any run admits the code |
| Guarantees.UsedAtMarksUse | internal/validator/valid_ticket.go:133-168 | in every reachable world usedAt is set exactly when the status is used, in both stores |
| Guarantees.Provenance | internal/ticket/service.go:207-215 | every code in the cache or in a message names a row, the cached event id is the row's, and so is every field of a message, except that a used message may carry event id 0; so "ticket not found, acknowledge anyway" is never taken |
| Guarantees.HonestProvenance | internal/validator/service.go:131-148 | in every run whose lookups supply the event id, every field of every message, used ones included, is the row's |
| Guarantees.Reconciliation | internal/ticket/service.go:207-230 | a code was admitted if and only if the database says used, or a used message about it is queued, or its publish was lost |
| Guarantees.CancellationTracking | internal/ticket/service.go:167-194 | a ticket is cancelled in the database if and only if the cache says cancelled, or the message is queued, or its publish was lost, or it was consumed before the cache had a record |
| Safety.ReachableIsSafe | internal/validator/service.go:60-220 | the invariant behind these results holds of every code in every reachable world, together with the purchase books |
| Safety.ServeKeepsSound | internal/validator/service.go:60-220 | each call keeps the invariant of its own code, for every combination of failures |
| Views.ServeIsLocal | internal/ticket/storage/ticket_repository.go:38-76 | a call about one code changes the view of that code only, and in a way that depends on that view only |
| Views.UpdateIsLocal | internal/ticket/storage/ticket_repository.go:67-76 | writing by id what was read by code changes what that code finds, and what no other code finds |
| Convergence.ConvergesIff | internal/validator/service.go:201-220 | in every run, for every ticket about which nothing queued can be acknowledged: the stores agree on it if and only if the validator heard of it, by its announced creation or an admission on record; no delivery acknowledged a cancellation of it uncached, and none was lost; and if an admission is on record not all of its uses were lost, else all were, unless it is cancelled. Agreeing includes the ticket used at the gate and cancelled in the database at once, whose two messages are both still queued |
| Convergence.AnnouncedConvergesIff | internal/validator/service.go:201-220 | so, for an announced ticket no live admission of which missed the cache: if and only if no delivery acknowledged a cancellation of it uncached and no use or cancellation of it was lost |
| Convergence.CleanRunsConverge | internal/validator/service.go:60-220 | so they agree in every run without lost publishes or failed cache writes, under the lookup contract, in which cancellations are consumed after a creation of their code was handled, acknowledged or not |
| Convergence.OrderDecidesAdmission | internal/validator/service.go:201-220 | of a ticket cancelled in the database, both messages queued and not cached, the holder is admitted if the cancellation is delivered first, and refused if second |
| Convergence.CreationsFirstIsNeverEarly | internal/validator/service.go:207-209 | if cancellations are consumed after a creation of their code was handled, none is consumed uncached |
| Convergence.RunCountsEarly | internal/validator/service.go:207-209 | the history of early cancellations counts exactly the acknowledged deliveries of a cancellation whose code was not cached |
| Draining.StuckIff | internal/ticket/adapter/ticket_used_consumer.go:77-96 | with everything up, a queued message is refused at any time if and only if it is a used message of a cancelled ticket, or a cancelled message of a record already used or cancelled |
| Draining.StuckForever | internal/ticket/adapter/ticket_used_consumer.go:77-96 | such a message is never acknowledged nor dropped: it stays queued and refused along every run, whatever is called and whatever fails |
| Draining.DeliverOnce | internal/validator/adapter/rabbitmq_consumer.go:121-161 | with everything up a handled delivery takes its message off the queue and adds none, and a requeue changes nothing at all |
| Draining.DrainMeasure | internal/validator/adapter/rabbitmq_consumer.go:121-161 | queued messages plus acknowledgements are conserved over every delivery sequence: the queues never grow, and acknowledgements never outnumber them |
| Draining.DrainEnds | internal/validator/adapter/rabbitmq_consumer.go:121-161 | from every reachable world some delivery sequence in order, no longer than the queues, ends with nothing left to acknowledge |
| Draining.FairRoundsDrain | internal/validator/adapter/rabbitmq_consumer.go:121-161 | so does every fair schedule: as many rounds as messages are queued, each offering every queued message, in any order at all |
| Draining.RoundExists | internal/validator/adapter/rabbitmq_consumer.go:121-161 | from every reachable world there is such a round, even one that puts creations before cancellations |
| Draining.Confluence | internal/validator/service.go:167-220 | any two exhaustive delivery orders that put created before cancelled end with the same statuses in both stores and the same messages left over |
| Reduction.Reduction | internal/validator/service.go:60-220 | any interleaving of the reads, lookups, writes, publishes and acknowledgements of calls that do not overlap on a code, and of the repository and publisher calls of purchases, ends in the world that the same calls reach when run whole, in the order in which they returned, between the same purchase steps |
| Reduction.InterleavedIsReachable | internal/validator/service.go:60-220 | at every moment of every such interleaving, each code without a call in progress looks as in a reachable world; with none in progress the world is reachable |
| Reduction.InterleavedAtMostOnce | internal/validator/service.go:60-154 | at every moment of every such interleaving no code has been admitted twice, when cache writes succeed and lookups honour their contract |
| Overlaps.BothAdmitIff | internal/validator/service.go:62-104 | in every reachable world, of two validations of one code whose steps merge in any order, both admit if and only if each could alone and neither wrote before the other read, unless what it wrote was no record |
| Overlaps.OverlapAdmitsTwice | internal/validator/service.go:62-89 | wherever each could admit alone, some merge of their steps admits both |
| Overlaps.OverlapIsReachable | internal/validator/service.go:62-89 | from the empty world, with every call successful and every lookup honest, one ticket admits two holders |
| Staleness.InterleavedAdmissionLaw | internal/validator/service.go:60-220 | at every moment of every interleaving, whatever overlaps and fails, the admissions of a code, told or about to be, are the live ones that left no record, plus one if the cache says used, plus one for each time a use was written over |
| Staleness.RecordedLaw | internal/validator/service.go:60-220 | when cache writes succeed and lookups honour their contract: no code is admitted twice before a use of it was written over, nor at all if no call writes what another has written since it was read |
| Staleness.FreshStatusesMoveOnce | internal/ticket/service.go:167-230 | however calls overlap, if no call writes stale then the row and the record of a code leave their initial status at most once each, and keys never change |
| Staleness.NoOverlapIsFresh | internal/validator/service.go:60-220 | calls that do not overlap on a code never write stale, so the hypothesis above is the weaker one |
| Races.UseIsLostIff | internal/validator/service.go:131-188 | in every reachable world, of a validation and a delivery of the creation of its code, their steps merged in any order: the validation admits on record and the cache ends active if and only if it would admit live and on record, the creation can be cached, read before the validation wrote, and writes after it |
| Races.StaleCreationLosesUse | internal/validator/service.go:167-188 | wherever a live admission and the caching of a creation are both possible, some merge admits and loses the use |
| Races.StaleUseRevives | internal/ticket/service.go:167-230 | wherever an emitted ticket is cancelled while the handler of a use has read it and not written, it turns from cancelled to used |
| Witnesses.StaleCreationAdmitsTwice | internal/validator/service.go:167-188 | from the empty world: a stale creation, and two validations that do not overlap both admit, every call successful and every lookup honest |
| Witnesses.StaleUseIsReachable | internal/ticket/service.go:207-230 | from the empty world: a row moves from cancelled to used |
| Witnesses.LookupContractMatters | internal/validator/adapter/ticket_service_http_client.go:88-92 | from the empty world: two validations, one after the other, with lookups that answer event id 0, both admit |
| Witnesses.DeliveryOrderMatters | internal/validator/service.go:207-209 | from the empty world: after a cancellation delivered before its creation nothing is left to deliver, the stores disagree, and the cancelled ticket is admitted |
| Accounting.Conservation | internal/ticket/service.go:88-155 | in every run, with a failure possible at each call, 0 <= sold count <= capacity, and the rows of an event are the sold count, plus the rows stranded by purchases that stopped early, plus those of the purchase in progress |
| Accounting.SettledPurchaseIsWhole | internal/ticket/service.go:113-138 | a purchase that wrote its event back owns as many rows as it bought tickets |
| Accounting.RequestKeepsBooks | internal/ticket/service.go:167-230 | validating, cancelling and reconciling move no count |
| Accounting.StepKeepsBooks | internal/ticket/service.go:88-155 | each step of a purchase, failed or not, keeps the books: tables, purchases in progress and sold counts |
| Accounting.EventsKeepTheirTerms | internal/ticket/storage/event_repository.go:88-97 | although Update writes the whole event back as it was read before the tickets were issued, along every run nothing about an event changes but its sold count, which never falls |
| LostSales.BothCountedIff | internal/ticket/service.go:89-136 | of two purchases on one event, their steps merged in any order and failing anywhere, that both write the event back: its rows grow by all they bought, and its sold count by as much if and only if one wrote it before the other read it; otherwise the count misses one of them |
| LostSales.OverlapLosesSale | internal/ticket/service.go:89-136 | whenever two purchases on one event could each begin, whatever quantities they buy, both can succeed with all their rows stored while the event counts one |
| Witnesses.OneSeatTwoTickets | internal/ticket/service.go:89-136 | from the empty world: an event with one seat ends with two emitted tickets and a sold count of one |
| Purchases.PurchaseUnderFaults | internal/ticket/service.go:88-155 | every outcome of Purchase: not found or refused exactly by event and availability; nothing changed; or a purchase row and the k tickets before the first that cannot be stored, all of them announced, or up to the first that cannot be announced, whose message was lost; or all of them and the event written back; success means that all was done |
| Purchases.PurchaseSucceedsIff | internal/ticket/service.go:88-155 | Purchase succeeds if and only if every call is answered, the event exists and has the tickets left, the buyer is named, and every code drawn is neither stored nor drawn twice |
| Purchases.SuccessfulPurchase | internal/ticket/service.go:113-154 | a successful purchase of q adds its purchase row and exactly q emitted rows with new, distinct ids and codes, tied to the new purchase and its event; stored, returned and listed tickets are the same sequence, and exactly their created messages join the queue |
| Purchases.PurchaseIsItsSteps | internal/ticket/service.go:88-155 | uninterrupted, Purchase is a run of the small steps of the transition system, so it keeps what they keep; on success the run announces the returned tickets one by one in their order |
| Purchases.SalesAreGreedy | internal/ticket/event.go:145-181 | without failures, the accepted requests and the final sold count of any sequence of purchases on an event are those of serving first come, first served from the remaining capacity |
| Purchases.ReserveNeverOverflows | internal/ticket/event.go:168-181 | in every reachable world no value that ReserveTickets computes leaves 64 bits, for any 64-bit quantity |
| Tokens.VerifyInvertsSign | internal/ticket/adapter/hmac_token_signer.go:22-50 | for all strings and any key, Verify accepts a token as that of a code if and only if the token is Sign of that code and the code has no dot; a rejection returns the empty code |
| Tokens.TokenShape | internal/ticket/adapter/hmac_token_signer.go:22-28 | a token is its code, a dot, and the 64 characters of that code's MAC, which hold no further dot |
| Tokens.SignThenVerify | internal/ticket/adapter/hmac_token_signer.go:22-50 | what one key signs another verifies if and only if the code has no dot and the two MACs of it agree; it is never accepted as another code's token |
| Tokens.SignIsInjective | internal/ticket/adapter/hmac_token_signer.go:22-28 | no two codes share a token |
| Tokens.SplitAtDot | internal/ticket/adapter/hmac_token_signer.go:32-39 | the first part has no dot and the two parts rejoin to the token; without a dot there is one part |
| QrChain.MailShowsThePurchase | internal/ticket/adapter/qr_worker.go:102-148 | in every run, the mail for a completed purchase goes to its buyer, carries the name that its event has in the database, and shows, in order and each once, the tickets whose image could be generated; each token shown verifies back to a code that names a ticket of that purchase |
| QrChain.GateAdmitsIff | internal/validator/handler/validator_handler.go:71-100 | in every reachable world a scan admits a ticket's holder if and only if the string scanned is that ticket's token and the ticket is active in the cache, or not cached and emitted when looked up; it admits nobody else |
| QrChain.MailedTokenAdmits | internal/validator/handler/validator_handler.go:71-100 | a mailed token of a ticket neither used nor cancelled admits, whether or not the validator has heard of the ticket |
| QrWorkers.ImagesAreTheSuccesses | internal/ticket/adapter/qr_worker.go:117-130 | the images are those of the successful generator calls, in the order of the codes, none missing and none twice |
| QrWorkers.EveryMessageIsMailed | internal/ticket/adapter/qr_worker.go:132-139 | over every delivery sequence the mails are exactly those of the deliveries that sent one, in order, each to the buyer, with the event's name and the images of the codes of its own message, and a message leaves the queue exactly with such a delivery, unless its acknowledgement is lost |
| QrWorkers.DepartedWasMailed | internal/ticket/adapter/qr_worker.go:132-139 | every message that left the queue was answered by a mail to its buyer, with its event's name and the images of its codes |
| QrWorkers.QRWorkerConsumer.HandleMessage | internal/ticket/adapter/qr_worker.go:102-148 | the collecting loop mails the images of the successes to the buyer, under the event's name; drop if and only if malformed, requeue when the send fails, acknowledge only after it succeeded |
| RateLaws.TransparentIff | internal/platform/middleware/ratelimit.go:53-86 | for every rate and burst: forgetting idle clients changes no answer in any trace, cleanups anywhere, if and only if rate * 600 s >= burst |
| RateLaws.RateKeptIff | internal/platform/middleware/ratelimit.go:53-110 | under the same condition, and only then, every client gets through at most burst + rate * T times in every window of length T of every trace |
| RateLaws.WiredLimiterKeepsItsRate | cmd/validator-api/main.go:96 | with rate 10 and burst 20, at most 20 + 10 T requests of a client in any window, cleanups included, and the same answers as without cleanups |
| SlidingWindow.RefusedIff | internal/platform/middleware/ratelimit.go:53-110 | for every rate and burst: in every trace the limiter answers exactly like one that keeps no buckets and refuses a request if and only if, for some earlier time s, the client's requests let through since s, plus one, exceed burst + rate * (now - s); if and only if rate * 600 s >= burst |
| SlidingWindow.RequestRefusedIff | internal/platform/middleware/ratelimit.go:91-110 | so under that condition the verdict on any request is given by the times of the earlier verdicts alone |
| SlidingWindow.KeepingIsNeverRefused | internal/platform/middleware/ratelimit.go:91-110 | a client whose requests never exceed burst plus rate in any stretch is never refused, whoever else asks and however often idle clients are forgotten |
| RateLimit.IPRateLimiter.GetLimiter | internal/platform/middleware/ratelimit.go:53-68 | marks the client as seen and returns its own bucket, a new and full one if it has none; no other client is touched |
| RateLimit.IPRateLimiter.Cleanup | internal/platform/middleware/ratelimit.go:71-86 | forgets exactly the clients idle for more than ten minutes |
| RateLimit.IPRateLimiter.Middleware | internal/platform/middleware/ratelimit.go:91-110 | the request passes if and only if its client's bucket, new and full if it had none, holds a token, which it takes; a refused one changes only when the client was last seen, and no other client is touched. When that is the case, in terms of requests and times alone, is `SlidingWindow.RequestRefusedIff` |
| ValidatorServices.ValidatorService.ValidateTicket | internal/validator/service.go:60-75 | cache, queue, history and answer after the call, for every record, lookup answer and failure: an error if and only if the cache could not be read or an active record not written, valid if and only if active or, uncached, emitted; anything but valid changes nothing |
| ValidatorServices.ValidatorService.ValidateLocal | internal/validator/service.go:77-104 | refuses a record that is not active; otherwise marks it used, writes it, and answers valid even if the publish fails |
| ValidatorServices.ValidatorService.ValidateFallback | internal/validator/service.go:106-154 | refuses when unreachable, unknown or not emitted, each in its own words; otherwise answers valid even if the record is not created, not written, or its publish fails |
| ValidatorServices.ValidatorService.SyncTicketCreated | internal/validator/service.go:167-188 | adds an active record only where there is none |
| ValidatorServices.ValidatorService.SyncTicketCancelled | internal/validator/service.go:201-220 | cancels an active record; nothing to do without one; fails on a used or cancelled one |
| TicketServices.TicketService.CancelTicket | internal/ticket/service.go:167-194 | table, queue and outcome after the call: success if and only if an emitted ticket was cancelled and announced, not found or refused by its status; the row stays cancelled even if the publish fails |
| TicketServices.TicketService.SyncTicketUsed | internal/ticket/service.go:207-230 | marks an emitted row used at the given time; no-op on a missing or used one; fails on a cancelled one, or when a store fails |
| TicketServices.TicketService.GetTicketByCode | internal/ticket/service.go:242-253 | returns a fresh copy of the row of that code, not found if and only if there is none |
| TicketServices.TicketService.IssueTicket | internal/ticket/service.go:113-134 | one round of the loop stores, adds and announces one ticket, or stops the purchase; the error branches of NewTicket and AddTicket are dead |
| TicketServices.TicketService.Purchase | internal/ticket/service.go:88-155 | the imperative loop over the stores equals the purchase steps for every combination of failures, and the result reports the stored tickets |
| Consumers.RabbitMQConsumer.HandleCreated | internal/validator/adapter/rabbitmq_consumer.go:121-140 | drops exactly what does not unmarshal, acknowledges exactly when the record is there or was added, requeues otherwise, with that effect on the cache |
| Consumers.RabbitMQConsumer.HandleCancelled | internal/validator/adapter/rabbitmq_consumer.go:142-161 | drops exactly what does not unmarshal, acknowledges exactly when there is no record or an active one was cancelled, requeues otherwise, a used or cancelled record included |
| Consumers.TicketUsedConsumer.HandleMessage | internal/ticket/adapter/ticket_used_consumer.go:77-96 | drops exactly what does not unmarshal, acknowledges exactly when there is no row, a used one, or an emitted one was marked, requeues otherwise, a cancelled row included |
| TicketStore.TicketRepository.Add | internal/ticket/storage/ticket_repository.go:46-64 | inserts under a new id and sets it on the entity; a duplicate code fails; the table keeps unique ids and codes |
| TicketStore.TicketRepository.GetByCode | internal/ticket/storage/ticket_repository.go:38-42 | a fresh object with the row of that code, null if and only if there is none |
| TicketStore.TicketRepository.Update | internal/ticket/storage/ticket_repository.go:67-76 | writes status and use time of the row with the entity's id |
| TicketStore.EventRepository.Update | internal/ticket/storage/event_repository.go:88-97 | overwrites the whole row |
| TicketStore.PurchaseRepository.Add | internal/ticket/storage/purchase_repository.go:45-63 | inserts the row and sets its id through SetID |
| ValidatorDomain.RedisValidTicketRepository.Add | internal/validator/storage/redis_valid_ticket_repository.go:67-93 | overwrites the one key of the code, whatever it held |
| TicketDomain.Event.ReserveTickets | internal/ticket/event.go:168-181 | adds the quantity if it is positive and available, else changes nothing |
| TicketDomain.Ticket.MarkAsUsed | internal/ticket/ticket.go:157-172 | only an emitted ticket becomes used, with its use time |
| TicketDomain.Ticket.Cancel | internal/ticket/ticket.go:179-192 | only an emitted ticket becomes cancelled |
| TicketDomain.Purchase.AddTicket | internal/ticket/purchase.go:145-157 | appends a ticket until the quantity is reached |
| TicketDomain.Purchase.TicketCodes | internal/ticket/purchase.go:160-167 | the codes of the tickets, in order |
| ValidatorDomain.ValidTicket.NewValidTicket | internal/validator/valid_ticket.go:47-76 | fails on a negative id, an empty code or an event id that is not positive; otherwise active |
| ValidatorDomain.ValidTicket.MarkAsCancelled | internal/validator/valid_ticket.go:155-168 | only an active record becomes cancelled |

## Left out

- TicketStore.TicketRepository.Add: a failed insert uses up no AUTO_INCREMENT value, while InnoDB may skip one; ids are only required to be new.
- RateLimit.IPRateLimiter.Middleware: looking up the bucket and taking from it is one step at one time; a request stalled between the two while a cleanup forgets its client is not modelled.
- Reduction.Reduction: each repository or publisher call of a purchase is one step, as it is in the code; a ticket is assumed not to be stored while a call about its code, a UUID nobody knows yet, is in progress.
- TicketStore.ByCode: codes are compared exactly; MySQL's default collation ignores case, and the migration sets none, so a lookup in another spelling would find a row where the model finds none.
- Guarantees.Reconciliation: a lost publish stays lost; nothing in the repository publishes it again.
- Consumers.RabbitMQConsumer.HandleCreated: malformed bodies are dropped here, but the queues of the transition system hold only what the two services publish.
- Failing infrastructure calls have no effect. A write that takes effect although its error is reported is not modelled, except for lost acknowledgements.
- Purchase is split into three methods to keep proofs small; together they are the one Go method.
- The token bucket of golang.org/x/time/rate is assumed, over real numbers: tokens capped at the burst, refilled at the rate, untouched by a refusal, full when new. Nanosecond rounding and an infinite rate are not modelled.
- HMAC, SHA-256 and hex are an arbitrary function of the code whose value has 64 characters and no dot; nothing is claimed about forging it.
- Go strings are sequences of characters; encodings are not modelled.
- Prices are real numbers; float rounding and DECIMAL(10,2) are not modelled.
- Created, updated and synced timestamps, and the id of a cache record, which is always 0, are dropped; no branch reads them. Use times are parameters.
- HTTP handlers, DTOs, JSON and routing: only the gate's use of the token signer is modelled, and "does not unmarshal" as a delivery.
- The HTTP client of the validator is a port with three answers; its missing Authorization header is not modelled.
- AMQP, MySQL, Redis and SMTP clients, connections, prefetch and redelivery limits, foreign keys; queues are multisets, so any delivery order is allowed.
- Authentication and its key cache, MIME and QR encoding, metrics, logging, configuration and mains.
- extractIP: the limiter is keyed by whatever string it yields.
- Listing events, finding tickets by purchase or event, and UpdateName: reads and edits no result here depends on.
