/** The MySQL repositories of the ticket service. A table is a map from the
    primary key to the row; `up` is the database's answer to one call, and a
    call that fails leaves the table as it was. */
module TicketStore {
  import opened Wrappers
  import opened TicketDomain

  type TicketTable = map<int, TicketRow>

  /** Primary key and the UNIQUE constraint on `code`. */
  ghost predicate ValidTable(rows: TicketTable, nextId: int) {
    && 0 < nextId
    && (forall id :: id in rows ==> rows[id].id == id && 0 < id < nextId)
    && (forall i, j :: i in rows && j in rows && rows[i].code == rows[j].code ==> i == j)
  }

  /** SELECT ... WHERE code = ? */
  ghost function ByCode(rows: TicketTable, code: string): (r: Option<TicketRow>)
    ensures r.None? <==> forall id :: id in rows ==> rows[id].code != code
    ensures r.Some? ==> r.value.code == code && exists id :: id in rows && rows[id] == r.value
  {
    if exists id :: id in rows && rows[id].code == code then
      var id :| id in rows && rows[id].code == code;
      Some(rows[id])
    else None
  }

  /** Under the UNIQUE constraint the lookup finds the row itself. */
  lemma ByCodeFinds(rows: TicketTable, nextId: int, id: int)
    requires ValidTable(rows, nextId) && id in rows
    ensures ByCode(rows, rows[id].code) == Some(rows[id])
  {
    var r := ByCode(rows, rows[id].code);
    assert r.Some?;
  }

  /** UPDATE tickets SET status = ?, used_at = ? WHERE id = ? */
  function UpdateRow(rows: TicketTable, t: TicketRow): TicketTable {
    if t.id in rows then rows[t.id := rows[t.id].(status := t.status, usedAt := t.usedAt)] else rows
  }

  class TicketRepository {
    var rows: TicketTable
    var nextId: int

    ghost predicate Valid()
      reads this
    {
      ValidTable(rows, nextId)
    }

    constructor ()
      ensures Valid() && rows == map[] && nextId == 1000
    {
      rows, nextId := map[], 1000;
    }

    method GetByCode(code: string, up: bool) returns (ok: bool, t: Ticket?)
      requires Valid()
      ensures ok == up
      ensures t == null <==> !up || ByCode(rows, code).None?
      ensures t != null ==> fresh(t) && Some(t.Row()) == ByCode(rows, code)
    {
      if !up {
        return false, null;
      }
      ok, t := true, null;
      if id :| id in rows && rows[id].code == code {
        ByCodeFinds(rows, nextId, id);
        t := new Ticket.FromRow(rows[id]);
      }
    }

    /** INSERT; a duplicate code violates the UNIQUE constraint and fails. The
        generated key is set on the entity, which must still be without one. */
    method Add(t: Ticket, up: bool) returns (ok: bool)
      requires Valid()
      modifies this, t`id
      ensures Valid()
      ensures var stored := up && ByCode(old(rows), t.code).None?;
              && (ok <==> stored && old(t.id) == 0)
              && (if stored then
                    && rows == old(rows)[old(nextId) := old(t.Row()).(id := old(nextId))]
                    && nextId == old(nextId) + 1
                  else rows == old(rows) && nextId == old(nextId))
              && t.Row() == if ok then old(t.Row()).(id := old(nextId)) else old(t.Row())
    {
      if !up || exists id :: id in rows && rows[id].code == t.code {
        return false;
      }
      var id := nextId;
      rows, nextId := rows[id := t.Row().(id := id)], nextId + 1;
      ok := t.SetId(id);
    }

    method Update(t: Ticket, up: bool) returns (ok: bool)
      requires Valid()
      modifies this`rows
      ensures Valid()
      ensures ok == up
      ensures rows == if up then UpdateRow(old(rows), t.Row()) else old(rows)
    {
      if up && t.id in rows {
        rows := rows[t.id := rows[t.id].(status := t.status, usedAt := t.usedAt)];
      }
      ok := up;
    }
  }

  class EventRepository {
    var rows: map<int, EventRow>
    var nextId: int

    constructor ()
      ensures rows == map[] && nextId == 1
    {
      rows, nextId := map[], 1;
    }

    /** A read rebuilds a fresh object: changing it does not change the table. */
    method Get(id: int, up: bool) returns (ok: bool, e: Event?)
      ensures ok == up
      ensures e == null <==> !up || id !in rows
      ensures e != null ==> fresh(e) && e.Row() == rows[id].(id := id)
    {
      if !up || id !in rows {
        return up, null;
      }
      ok := true;
      e := new Event.FromRow(rows[id].(id := id));
    }

    method Add(e: Event, up: bool) returns (ok: bool)
      modifies this, e`id
      ensures ok == up
      ensures if up then rows == old(rows)[old(nextId) := old(e.Row()).(id := old(nextId))] && nextId == old(nextId) + 1
              else rows == old(rows) && nextId == old(nextId)
      ensures e.Row() == if up then old(e.Row()).(id := old(nextId)) else old(e.Row())
    {
      if up {
        rows, nextId := rows[nextId := e.Row().(id := nextId)], nextId + 1;
        e.id := nextId - 1;
      }
      ok := up;
    }

    /** Writes the whole row back. */
    method Update(e: Event, up: bool) returns (ok: bool)
      modifies this`rows
      ensures ok == up
      ensures rows == if up && e.id in old(rows) then old(rows)[e.id := e.Row()] else old(rows)
    {
      if up && e.id in rows {
        rows := rows[e.id := e.Row()];
      }
      ok := up;
    }
  }

  class PurchaseRepository {
    var rows: map<int, PurchaseRow>
    var nextId: int

    constructor ()
      ensures rows == map[] && nextId == 1000
    {
      rows, nextId := map[], 1000;
    }

    method Add(p: Purchase, up: bool) returns (ok: bool)
      modifies this, p`id
      ensures ok <==> up && old(p.id) == 0 && old(nextId) > 0
      ensures if up then rows == old(rows)[old(nextId) := old(p.Row()).(id := old(nextId))] && nextId == old(nextId) + 1
              else rows == old(rows) && nextId == old(nextId)
      ensures p.Row() == if ok then old(p.Row()).(id := old(nextId)) else old(p.Row())
    {
      if !up {
        return false;
      }
      var id := nextId;
      rows, nextId := rows[id := p.Row().(id := id)], nextId + 1;
      ok := p.SetId(id);
    }
  }
}
