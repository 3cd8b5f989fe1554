/** What each service call that handles one existing ticket does, as a value: the row it
    updates, the cache key it overwrites, the message it publishes and the
    answer it gives, from the row and the record it reads.

    An `IO` fixes how the infrastructure answers the call: the first read, the
    write, and the publish. A call that fails has no effect. */
module Calls {
  import opened Wrappers
  import opened Messages
  import opened TicketDomain
  import opened TicketStore
  import opened ValidatorDomain

  datatype IO = IO(get: bool, write: bool, publish: bool)

  const ALL_UP: IO := IO(true, true, true)

  /** Everything one call does, all of it about `code`. The last three fields
      are history: the call admitted a holder; it did so without leaving a
      cache record; it consumed a cancellation that found no cache record. */
  datatype Effect = Effect(
    code: string,
    row: Option<TicketRow>,
    record: Option<CacheRecord>,
    send: Option<Message>,
    sent: bool,
    admits: bool,
    missed: bool,
    early: bool)

  function Nothing(code: string): Effect {
    Effect(code, None, None, None, false, false, false, false)
  }

  datatype Response = Response(effect: Effect, outcome: Outcome)

  /* ----- what becomes of a delivery ----- */

  /** Ack; Nack with requeue; Nack without. */
  datatype Decision = Ack | Requeue | Drop

  /** A `body` of None is one that does not unmarshal. */
  function Decide<Body>(body: Option<Body>, outcome: Outcome): Decision {
    if body.None? then Drop else if outcome == Ok then Ack else Requeue
  }

  /* ----- ticket service ----- */

  function CancelTicket(row: Option<TicketRow>, code: string, io: IO): Response {
    if !io.get then Response(Nothing(code), Internal)
    else if row.None? then Response(Nothing(code), NotFound)
    else
      var cancelled := TicketDomain.MarkCancelled(row.value);
      if cancelled.None? then Response(Nothing(code), BusinessRule)
      else if !io.write then Response(Nothing(code), Internal)
      else
        var t := cancelled.value;
        Response(
          Nothing(code).(row := Some(t), send := Some(TicketCancelled(t.id, t.code, t.eventId)), sent := io.publish),
          if io.publish then Ok else Internal)
  }

  function SyncTicketUsed(row: Option<TicketRow>, code: string, io: IO, now: int): Response {
    if !io.get then Response(Nothing(code), Internal)
    else if row.None? || row.value.status == TicketStatus.Used then Response(Nothing(code), Ok)
    else
      var used := TicketDomain.MarkUsed(row.value, now);
      if used.None? || !io.write then Response(Nothing(code), Internal)
      else Response(Nothing(code).(row := used), Ok)
  }

  /* ----- validator service ----- */

  /** What the `TicketServiceClient` port answers. */
  datatype Reply = Unreachable | Unknown | Info(code: string, eventId: int, status: string)

  datatype ValidationResult = ValidationResult(valid: bool, message: string)

  datatype Validation = Validation(effect: Effect, outcome: Outcome, result: ValidationResult)

  const NO_RESULT := ValidationResult(false, "")

  function Refused(code: string, message: string): Validation {
    Validation(Nothing(code), Ok, ValidationResult(false, message))
  }

  function ValidateLocal(record: CacheRecord, code: string, io: IO, now: int): Validation {
    if record.status != Active then Refused(code, "ticket is " + ValidatorDomain.StatusText(record.status))
    else if !io.write then Validation(Nothing(code), Internal, NO_RESULT)
    else
      Validation(
        Nothing(code).(record := ValidatorDomain.MarkUsed(record, now), admits := true,
                       send := Some(TicketUsed(code, record.eventId)), sent := io.publish),
        Ok, ValidationResult(true, "ticket validated successfully"))
  }

  function ValidateFallback(reply: Reply, code: string, io: IO, now: int): Validation {
    match reply
    case Unreachable => Refused(code, "unable to validate ticket at this time")
    case Unknown => Refused(code, "ticket not found")
    case Info(found, eventId, status) =>
      if status != "emitted" then Refused(code, "ticket is " + status)
      else
        var stored := found != "" && eventId > 0 && io.write;
        Validation(
          Nothing(found).(record := if stored then Some(CacheRecord(eventId, ValidTicketStatus.Used, Some(now))) else None,
                          admits := true, missed := !stored,
                          send := Some(TicketUsed(found, eventId)), sent := io.publish),
          Ok, ValidationResult(true, "ticket validated via live check"))
  }

  function ValidateTicket(record: Option<CacheRecord>, reply: Reply, code: string, io: IO, now: int): Validation {
    if !io.get then Validation(Nothing(code), Internal, NO_RESULT)
    else if record.Some? then ValidateLocal(record.value, code, io, now)
    else ValidateFallback(reply, code, io, now)
  }

  function SyncTicketCreated(record: Option<CacheRecord>, code: string, eventId: int, io: IO): Response {
    if !io.get then Response(Nothing(code), Internal)
    else if record.Some? then Response(Nothing(code), Ok)
    else if code == "" || eventId <= 0 || !io.write then Response(Nothing(code), Internal)
    else Response(Nothing(code).(record := Some(CacheRecord(eventId, Active, None))), Ok)
  }

  function SyncTicketCancelled(record: Option<CacheRecord>, code: string, io: IO): Response {
    if !io.get then Response(Nothing(code), Internal)
    else if record.None? then Response(Nothing(code).(early := true), Ok)
    else
      var cancelled := ValidatorDomain.MarkCancelled(record.value);
      if cancelled.None? then Response(Nothing(code), BusinessRule)
      else if !io.write then Response(Nothing(code), Internal)
      else Response(Nothing(code).(record := cancelled), Ok)
  }

  /* ----- applying an effect to the stores and the bus ----- */

  function WriteRecord(cache: Cache, e: Effect): Cache {
    if e.record.Some? then cache[e.code := e.record.value] else cache
  }

  function WriteRow(rows: TicketTable, e: Effect): TicketTable {
    if e.row.Some? then UpdateRow(rows, e.row.value) else rows
  }

  function Send(bus: Bus, e: Effect): Bus {
    Bus(
      if e.send.Some? && e.sent then bus.queued + multiset{e.send.value} else bus.queued,
      if e.send.Some? && !e.sent then bus.lost + multiset{e.send.value} else bus.lost,
      bus.completed)
  }
}
