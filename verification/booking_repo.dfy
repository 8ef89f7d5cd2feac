/** The Postgres booking repository: the booking row and its outbox event in one transaction, conflicts read
    from the name of the unique index. */
module BookingRepos {
  import opened Domain
  import Sales

  const SEAT_UNIQUE := "confirmed_bookings_seat_unique"
  const SESSION_UNIQUE := "confirmed_bookings_session_unique"

  /** The domain error of a violated constraint, if it is one of the two. */
  function ConflictError(constraint: string): (e: Option<Error>)
    ensures e == Some(SeatAlreadyBooked) <==> constraint == "confirmed_bookings_seat_unique"
    ensures e == Some(SessionAlreadyConfirmed) <==> constraint == "confirmed_bookings_session_unique"
  {
    if constraint == SEAT_UNIQUE then Some(SeatAlreadyBooked)
    else if constraint == SESSION_UNIQUE then Some(SessionAlreadyConfirmed)
    else None
  }

  /** What the insert statement answers: a row, or the constraint it violates. */
  datatype Inserted = Row(row: Booking) | Violates(constraint: string)

  /** How the transaction ends when the insert succeeded. */
  datatype Ending = Commits | OutboxFails | CommitFails

  class BookingRepo {
    var table: Sales.Table

    constructor (table: Sales.Table)
      ensures this.table == table
    {
      this.table := table;
    }

    /** The insert against the state the transaction sees; an index is reported only if it is violated. */
    method InsertConfirmed(rows: seq<Booking>, b: Booking, id: Id, now: int, reported: Sales.Index)
      returns (r: Inserted)
      ensures match r
              case Row(row) => Sales.Insert(rows, b, id, now, reported) == (Ok(row), rows + [row])
              case Violates(constraint) =>
                ConflictError(constraint).Some? &&
                Sales.Insert(rows, b, id, now, reported) == (Err(ConflictError(constraint).value), rows)
      ensures r == Violates("confirmed_bookings_session_unique") ==> exists p :: p in rows && p.session == b.session
      ensures r == Violates("confirmed_bookings_seat_unique") ==>
                exists p :: p in rows && p.status == Confirmed && p.screening == b.screening && p.seat == b.seat
    {
      Sales.InsertArbitrates(rows, b, id, now, reported);
      var used := Sales.FindSession(rows, b.session) >= 0;
      var taken := Sales.SeatConfirmed(rows, b.Ref());
      if used && (!taken || reported.SessionIndex?) {
        return Violates(SESSION_UNIQUE);
      }
      if taken {
        return Violates(SEAT_UNIQUE);
      }
      r := Row(b.(id := id, status := Confirmed, confirmedAt := now));
    }

    /** One transaction: both rows land or neither does, and the event repeats the row's own fields. */
    method Confirm(b: Booking, id: Id, event: Id, now: int, reported: Sales.Index, ending: Ending)
      returns (r: Result<Booking>)
      modifies this
      ensures ending.Commits? ==> (r, table) == Sales.Commit(old(table), b, id, event, now, reported)
      ensures !ending.Commits? ==> r.Err? && table == old(table)
      ensures !ending.Commits? && Sales.Commit(old(table), b, id, event, now, reported).0.Err? ==>
                r == Sales.Commit(old(table), b, id, event, now, reported).0
      ensures !ending.Commits? && Sales.Commit(old(table), b, id, event, now, reported).0.Ok? ==> r == Err(Infra)
      ensures r.Ok? ==>
                && var row := r.value;
                && row == Booking(id, b.session, b.screening, b.seat, b.user, Confirmed, now)
                && table.rows == old(table).rows + [row]
                && |table.outbox| == |old(table).outbox| + 1 && table.outbox[..|old(table).outbox|] == old(table).outbox
                && var e := table.outbox[|old(table).outbox|];
                && e.id == event && e.booking == row.id && e.session == row.session && e.user == row.user
                && e.screening == row.screening && e.seat == row.seat && e.confirmedAt == row.confirmedAt
    {
      var tx := table;
      var inserted := InsertConfirmed(tx.rows, b, id, now, reported);
      if inserted.Violates? {
        var conflict := ConflictError(inserted.constraint);
        return if conflict.Some? then Err(conflict.value) else Err(Infra);
      }
      var row := inserted.row;
      tx := tx.(rows := tx.rows + [row]);
      if ending.OutboxFails? {
        return Err(Infra);
      }
      tx := tx.(outbox := tx.outbox +
                          [Sales.Event(event, row.id, row.session, row.screening, row.seat, row.user,
                              row.confirmedAt)]);
      if ending.CommitFails? {
        return Err(Infra);
      }
      table := tx;
      r := Ok(row);
    }

    /** One statement: any row of the session, of which the unique index leaves one at most. */
    method GetBySession(session: Id) returns (r: Result<Booking>)
      requires Sales.Unique(table.rows)
      ensures r == Sales.GetBySession(table.rows, session)
      ensures forall b :: r == Ok(b) <==> b in table.rows && b.session == session
    {
      if k :| 0 <= k < |table.rows| && table.rows[k].session == session {
        Sales.FoundAt(table.rows, k);
        return Ok(table.rows[k]);
      }
      r := Err(BookingNotFound);
    }

    /** One statement. */
    method SeatConfirmed(ref: SeatRef) returns (confirmed: bool)
      ensures confirmed == Sales.SeatConfirmed(table.rows, ref)
      ensures confirmed <==> exists k :: 0 <= k < |table.rows| && table.rows[k].status == Confirmed &&
                                         table.rows[k].screening == ref.screening && table.rows[k].seat == ref.seat
    {
      confirmed := exists k :: 0 <= k < |table.rows| && table.rows[k].Ref() == ref && table.rows[k].status == Confirmed;
    }

    /** One statement, and a loop over the rows it returns. */
    method ConfirmedSeats(screening: string) returns (seats: seq<Seat>)
      ensures forall seat :: seat in seats <==> seat in Sales.ConfirmedSeats(table.rows, screening)
      ensures forall seat :: seat in seats <==>
                exists k :: 0 <= k < |table.rows| && table.rows[k].status == Confirmed &&
                            table.rows[k].screening == screening && table.rows[k].seat == seat
    {
      seats := [];
      for i := 0 to |table.rows|
        invariant forall seat :: seat in seats <==> seat in Sales.ConfirmedSeats(table.rows[..i], screening)
      {
        if table.rows[i].screening == screening && table.rows[i].status == Confirmed {
          seats := seats + [table.rows[i].seat];
        }
        ConfirmedSeatsGrow(table.rows, i, screening);
      }
      assert table.rows[..|table.rows|] == table.rows;
    }
  }

  lemma ConfirmedSeatsGrow(rows: seq<Booking>, i: nat, screening: string)
    requires i < |rows|
    ensures Sales.ConfirmedSeats(rows[..i + 1], screening) == Sales.ConfirmedSeats(rows[..i], screening) +
            if rows[i].screening == screening && rows[i].status == Confirmed then {rows[i].seat} else {}
  {
    assert rows[..i + 1] == rows[..i] + [rows[i]];
  }
}
