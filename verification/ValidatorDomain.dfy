/** The validator's own ticket entity and its Redis repository. */
module ValidatorDomain {
  import opened Wrappers

  datatype ValidTicketStatus = Active | Used | Cancelled

  function StatusText(s: ValidTicketStatus): string {
    match s
    case Active => "active"
    case Used => "used"
    case Cancelled => "cancelled"
  }

  /** The record stored under the key `ticket:{code}`. */
  datatype CacheRecord = CacheRecord(eventId: int, status: ValidTicketStatus, usedAt: Option<int>)

  function MarkUsed(r: CacheRecord, now: int): Option<CacheRecord> {
    if r.status == Active then Some(r.(status := Used, usedAt := Some(now))) else None
  }

  function MarkCancelled(r: CacheRecord): Option<CacheRecord> {
    if r.status == Active then Some(r.(status := Cancelled)) else None
  }

  class ValidTicket {
    const code: string
    const eventId: int
    var status: ValidTicketStatus
    var usedAt: Option<int>

    function Record(): CacheRecord
      reads this
    {
      CacheRecord(eventId, status, usedAt)
    }

    constructor FromRecord(code: string, r: CacheRecord)
      ensures this.code == code && Record() == r
    {
      this.code, eventId, status, usedAt := code, r.eventId, r.status, r.usedAt;
    }

    static method NewValidTicket(id: int, code: string, eventId: int) returns (t: ValidTicket?)
      ensures t == null <==> id < 0 || code == "" || eventId <= 0
      ensures t != null ==> fresh(t) && t.code == code && t.Record() == CacheRecord(eventId, Active, None)
    {
      if id < 0 || code == "" || eventId <= 0 {
        return null;
      }
      t := new ValidTicket.FromRecord(code, CacheRecord(eventId, Active, None));
    }

    predicate IsActive()
      reads this
    {
      status == Active
    }

    method MarkAsUsed(now: int) returns (ok: bool)
      modifies this
      ensures ok <==> MarkUsed(old(Record()), now).Some?
      ensures Record() == MarkUsed(old(Record()), now).GetOr(old(Record()))
      ensures ok <==> old(status) == Active
      ensures Record() == if ok then CacheRecord(eventId, Used, Some(now)) else old(Record())
    {
      if status == Used || status == Cancelled {
        return false;
      }
      status, usedAt := Used, Some(now);
      return true;
    }

    method MarkAsCancelled() returns (ok: bool)
      modifies this
      ensures ok <==> MarkCancelled(old(Record())).Some?
      ensures Record() == MarkCancelled(old(Record())).GetOr(old(Record()))
      ensures ok <==> old(status) == Active
      ensures Record() == if ok then CacheRecord(eventId, Cancelled, old(usedAt)) else old(Record())
    {
      if status == Used || status == Cancelled {
        return false;
      }
      status := Cancelled;
      return true;
    }
  }

  type Cache = map<string, CacheRecord>

  function Lookup(cache: Cache, code: string): Option<CacheRecord> {
    if code in cache then Some(cache[code]) else None
  }

  /** One key per code; Add and Update both overwrite whatever is there. */
  class RedisValidTicketRepository {
    var store: Cache

    constructor ()
      ensures store == map[]
    {
      store := map[];
    }

    method GetByCode(code: string, up: bool) returns (ok: bool, t: ValidTicket?)
      ensures ok == up
      ensures t == null <==> !up || code !in store
      ensures t != null ==> fresh(t) && t.code == code && Some(t.Record()) == Lookup(store, code)
    {
      if !up || code !in store {
        return up, null;
      }
      ok := true;
      t := new ValidTicket.FromRecord(code, store[code]);
    }

    method Add(t: ValidTicket, up: bool) returns (ok: bool)
      modifies this
      ensures ok == up
      ensures store == if up then old(store)[t.code := t.Record()] else old(store)
    {
      if up {
        store := store[t.code := t.Record()];
      }
      ok := up;
    }

    method Update(t: ValidTicket, up: bool) returns (ok: bool)
      modifies this
      ensures ok == up
      ensures store == if up then old(store)[t.code := t.Record()] else old(store)
    {
      ok := Add(t, up);
    }
  }
}
