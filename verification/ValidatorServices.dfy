/** The validator service: cache first, live lookup on a miss. */
module ValidatorServices {
  import opened Wrappers
  import opened Messages
  import opened ValidatorDomain
  import opened Calls

  class ValidatorService {
    const repo: RedisValidTicketRepository
    const broker: Broker

    constructor (repo: RedisValidTicketRepository, broker: Broker)
      ensures this.repo == repo && this.broker == broker
    {
      this.repo, this.broker := repo, broker;
    }

    /** `reply` is what the ticket service port answers if it is asked. */
    method ValidateTicket(code: string, reply: Reply, io: IO, now: int)
      returns (outcome: Outcome, result: ValidationResult)
      modifies repo, broker
      ensures var v := Calls.ValidateTicket(Lookup(old(repo.store), code), reply, code, io, now);
              && outcome == v.outcome && result == v.result
              && repo.store == WriteRecord(old(repo.store), v.effect)
              && broker.Value() == Send(old(broker.Value()), v.effect)
      ensures var record := Lookup(old(repo.store), code);
              var open := io.get && if record.Some? then record.value.status == Active && io.write
                                    else reply.Info? && reply.status == "emitted";
              && (result.valid <==> open)
              && (outcome != Ok <==> !io.get || (record.Some? && record.value.status == Active && !io.write))
              && (outcome != Ok ==> outcome == Internal && result == ValidationResult(false, ""))
              && (!open ==> repo.store == old(repo.store) && broker.Value() == old(broker.Value()))
    {
      var ok, vt := repo.GetByCode(code, io.get);
      if !ok {
        return Internal, NO_RESULT;
      }
      if vt != null {
        outcome, result := ValidateLocal(vt, io, now);
        return;
      }
      outcome, result := ValidateFallback(code, reply, io, now);
    }

    method ValidateLocal(vt: ValidTicket, io: IO, now: int) returns (outcome: Outcome, result: ValidationResult)
      modifies repo, broker, vt
      ensures var v := Calls.ValidateLocal(old(vt.Record()), vt.code, io, now);
              && outcome == v.outcome && result == v.result
              && repo.store == WriteRecord(old(repo.store), v.effect)
              && broker.Value() == Send(old(broker.Value()), v.effect)
    {
      if !vt.IsActive() {
        return Ok, ValidationResult(false, "ticket is " + StatusText(vt.status));
      }
      var ok := vt.MarkAsUsed(now);
      if !ok {
        return BusinessRule, NO_RESULT;
      }
      ok := repo.Update(vt, io.write);
      if !ok {
        return Internal, NO_RESULT;
      }
      var _ := broker.Publish(TicketUsed(vt.code, vt.eventId), io.publish);
      return Ok, ValidationResult(true, "ticket validated successfully");
    }

    method ValidateFallback(code: string, reply: Reply, io: IO, now: int)
      returns (outcome: Outcome, result: ValidationResult)
      modifies repo, broker
      ensures var v := Calls.ValidateFallback(reply, code, io, now);
              && outcome == v.outcome && result == v.result
              && repo.store == WriteRecord(old(repo.store), v.effect)
              && broker.Value() == Send(old(broker.Value()), v.effect)
      ensures outcome == Ok && (result.valid <==> reply.Info? && reply.status == "emitted")
      ensures reply == Unreachable ==> result.message == "unable to validate ticket at this time"
      ensures reply == Unknown ==> result.message == "ticket not found"
      ensures reply.Info? ==> result.message == if result.valid then "ticket validated via live check" else "ticket is " + reply.status
    {
      if reply == Unreachable {
        return Ok, ValidationResult(false, "unable to validate ticket at this time");
      }
      if reply == Unknown {
        return Ok, ValidationResult(false, "ticket not found");
      }
      if reply.status != "emitted" {
        return Ok, ValidationResult(false, "ticket is " + reply.status);
      }
      var vt := ValidTicket.NewValidTicket(0, reply.code, reply.eventId);
      if vt != null {
        var marked := vt.MarkAsUsed(now);
        if marked {
          var _ := repo.Add(vt, io.write);
        }
      }
      var _ := broker.Publish(TicketUsed(reply.code, reply.eventId), io.publish);
      return Ok, ValidationResult(true, "ticket validated via live check");
    }

    method SyncTicketCreated(code: string, eventId: int, io: IO) returns (outcome: Outcome)
      modifies repo
      ensures var r := Calls.SyncTicketCreated(Lookup(old(repo.store), code), code, eventId, io);
              && outcome == r.outcome
              && repo.store == WriteRecord(old(repo.store), r.effect)
              && r.effect.send.None?
    {
      var ok, existing := repo.GetByCode(code, io.get);
      if !ok {
        return Internal;
      }
      if existing != null {
        return Ok;
      }
      var vt := ValidTicket.NewValidTicket(0, code, eventId);
      if vt == null {
        return Internal;
      }
      ok := repo.Add(vt, io.write);
      return if ok then Ok else Internal;
    }

    method SyncTicketCancelled(code: string, io: IO) returns (outcome: Outcome)
      modifies repo
      ensures var r := Calls.SyncTicketCancelled(Lookup(old(repo.store), code), code, io);
              && outcome == r.outcome
              && repo.store == WriteRecord(old(repo.store), r.effect)
              && r.effect.send.None?
    {
      var ok, vt := repo.GetByCode(code, io.get);
      if !ok {
        return Internal;
      }
      if vt == null {
        return Ok;
      }
      ok := vt.MarkAsCancelled();
      if !ok {
        return BusinessRule;
      }
      ok := repo.Update(vt, io.write);
      return if ok then Ok else Internal;
    }
  }
}
