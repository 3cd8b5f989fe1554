/** The queue consumers of both services. Each hands a delivery to its service
    and decides what becomes of the delivery. */
module Consumers {
  import opened Wrappers
  import opened Messages
  import opened TicketDomain
  import opened TicketStore
  import opened ValidatorDomain
  import opened Calls
  import opened TicketServices
  import opened ValidatorServices

  /** The validator's two consumers. A `body` of None is one that does not unmarshal. */
  class RabbitMQConsumer {
    const service: ValidatorService

    constructor (service: ValidatorService)
      ensures this.service == service
    {
      this.service := service;
    }

    method HandleCreated(body: Option<Message>, io: IO) returns (d: Decision)
      requires body.Some? ==> body.value.TicketCreated?
      modifies service.repo
      ensures body.None? ==> d == Drop && service.repo.store == old(service.repo.store)
      ensures body.Some? ==>
                var m := body.value;
                var r := SyncTicketCreated(Lookup(old(service.repo.store), m.code), m.code, m.eventId, io);
                && d == Decide(body, r.outcome)
                && service.repo.store == WriteRecord(old(service.repo.store), r.effect)
      ensures d == Drop <==> body.None?
      ensures body.Some? ==>
                var m, known := body.value, body.value.code in old(service.repo.store);
                var adds := io.get && !known && m.code != "" && m.eventId > 0 && io.write;
                && (d == Ack <==> adds || (io.get && known))
                && service.repo.store ==
                   if adds then old(service.repo.store)[m.code := CacheRecord(m.eventId, Active, None)]
                   else old(service.repo.store)
    {
      if body.None? {
        return Drop;
      }
      var outcome := service.SyncTicketCreated(body.value.code, body.value.eventId, io);
      if outcome != Ok {
        return Requeue;
      }
      return Ack;
    }

    method HandleCancelled(body: Option<Message>, io: IO) returns (d: Decision)
      requires body.Some? ==> body.value.TicketCancelled?
      modifies service.repo
      ensures body.None? ==> d == Drop && service.repo.store == old(service.repo.store)
      ensures body.Some? ==>
                var m := body.value;
                var r := SyncTicketCancelled(Lookup(old(service.repo.store), m.code), m.code, io);
                && d == Decide(body, r.outcome)
                && service.repo.store == WriteRecord(old(service.repo.store), r.effect)
      ensures d == Drop <==> body.None?
      ensures body.Some? ==>
                var record := Lookup(old(service.repo.store), body.value.code);
                var closes := io.get && record.Some? && record.value.status == Active && io.write;
                && (d == Ack <==> closes || (io.get && record.None?))
                && service.repo.store ==
                   if closes then old(service.repo.store)[body.value.code := record.value.(status := ValidTicketStatus.Cancelled)]
                   else old(service.repo.store)
    {
      if body.None? {
        return Drop;
      }
      var outcome := service.SyncTicketCancelled(body.value.code, io);
      if outcome != Ok {
        return Requeue;
      }
      return Ack;
    }
  }

  /** The ticket service's consumer of `ticket.used`. */
  class TicketUsedConsumer {
    const service: TicketService

    constructor (service: TicketService)
      ensures this.service == service
    {
      this.service := service;
    }

    method HandleMessage(body: Option<Message>, io: IO, now: int) returns (d: Decision)
      requires service.Valid()
      requires body.Some? ==> body.value.TicketUsed?
      modifies service.tickets
      ensures service.Valid()
      ensures body.None? ==> d == Drop && service.tickets.rows == old(service.tickets.rows)
      ensures body.Some? ==>
                var m := body.value;
                var r := SyncTicketUsed(ByCode(old(service.tickets.rows), m.code), m.code, io, now);
                && d == Decide(body, r.outcome)
                && service.tickets.rows == WriteRow(old(service.tickets.rows), r.effect)
      ensures d == Drop <==> body.None?
      ensures body.Some? ==>
                var row := ByCode(old(service.tickets.rows), body.value.code);
                var marks := io.get && row.Some? && row.value.status == Emitted && io.write;
                && (d == Ack <==> marks || (io.get && (row.None? || row.value.status == TicketStatus.Used)))
                && service.tickets.rows ==
                   if !marks then old(service.tickets.rows)
                   else old(service.tickets.rows)[
                     row.value.id := row.value.(status := TicketStatus.Used, usedAt := Some(now))]
    {
      if body.None? {
        return Drop;
      }
      var outcome := service.SyncTicketUsed(body.value.code, io, now);
      if outcome != Ok {
        return Requeue;
      }
      return Ack;
    }
  }
}
