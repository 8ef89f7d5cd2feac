/** The sales record as a value: confirmed bookings arbitrated by two unique indexes, and the outbox event that
    is written with each of them. */
module Sales {
  import opened Domain

  datatype Event = Event(id: Id, booking: Id, session: Id, screening: string, seat: Seat, user: Id, confirmedAt: int)

  datatype Table = Table(rows: seq<Booking>, outbox: seq<Event>)

  /** Which unique index the database reports when an insert violates both. */
  datatype Index = SeatIndex | SessionIndex

  function FindSession(rows: seq<Booking>, session: Id): (i: int)
    ensures -1 <= i < |rows|
    ensures 0 <= i ==> rows[i].session == session
    ensures forall k :: 0 <= k < (if i < 0 then |rows| else i) ==> rows[k].session != session
  {
    if rows == [] then -1
    else if rows[0].session == session then 0
    else var i := FindSession(rows[1..], session); if i < 0 then -1 else i + 1
  }

  /** A confirmed row on the seat; cancelled rows do not block. */
  predicate SeatConfirmed(rows: seq<Booking>, ref: SeatRef) {
    exists k :: 0 <= k < |rows| && rows[k].Ref() == ref && rows[k].status == Confirmed
  }

  function GetBySession(rows: seq<Booking>, session: Id): Result<Booking> {
    var i := FindSession(rows, session);
    if i < 0 then Err(BookingNotFound) else Ok(rows[i])
  }

  function ConfirmedSeats(rows: seq<Booking>, screening: string): set<Seat> {
    set k | 0 <= k < |rows| && rows[k].screening == screening && rows[k].status == Confirmed :: rows[k].seat
  }

  function EventOf(b: Booking, id: Id): Event {
    Event(id, b.id, b.session, b.screening, b.seat, b.user, b.confirmedAt)
  }

  /** The insert of a booking: the database stamps identity, status and time, or reports an index. */
  function Insert(rows: seq<Booking>, b: Booking, id: Id, now: int, reported: Index): (Result<Booking>, seq<Booking>) {
    var used := FindSession(rows, b.session) >= 0;
    var taken := SeatConfirmed(rows, b.Ref());
    if !used && !taken then
      var row := b.(id := id, status := Confirmed, confirmedAt := now);
      (Ok(row), rows + [row])
    else if used && (!taken || reported.SessionIndex?) then (Err(SessionAlreadyConfirmed), rows)
    else (Err(SeatAlreadyBooked), rows)
  }

  /** The commit point: the booking row and its event together, or neither. */
  function Commit(t: Table, b: Booking, id: Id, event: Id, now: int, reported: Index): (Result<Booking>, Table) {
    var (answer, rows) := Insert(t.rows, b, id, now, reported);
    (answer, if answer.Ok? then Table(rows, t.outbox + [EventOf(answer.value, event)]) else t)
  }

  // ----- the laws -----

  /** One booking per session, one confirmed booking per seat. */
  ghost predicate Unique(rows: seq<Booking>) {
    && (forall i, j :: 0 <= i < j < |rows| ==> rows[i].session != rows[j].session)
    && (forall i, j :: 0 <= i < j < |rows| && rows[i].status == rows[j].status == Confirmed ==>
          rows[i].Ref() != rows[j].Ref())
  }

  /** The event carries the booking's own fields. */
  predicate Repeats(e: Event, b: Booking) {
    && e.booking == b.id && e.session == b.session && e.user == b.user
    && e.screening == b.screening && e.seat == b.seat && e.confirmedAt == b.confirmedAt
  }

  /** Events and bookings match one to one, field by field. */
  ghost predicate Announced(t: Table) {
    && |t.outbox| == |t.rows|
    && (forall k :: 0 <= k < |t.rows| ==> Repeats(t.outbox[k], t.rows[k]))
    && (forall i, j :: 0 <= i < j < |t.outbox| ==> t.outbox[i].id != t.outbox[j].id && t.rows[i].id != t.rows[j].id)
  }

  ghost predicate Lawful(t: Table) { Unique(t.rows) && Announced(t) }

  lemma InsertUnique(rows: seq<Booking>, b: Booking, id: Id, now: int, reported: Index)
    requires Unique(rows)
    ensures Unique(Insert(rows, b, id, now, reported).1)
  {
    var (answer, after) := Insert(rows, b, id, now, reported);
    if answer.Ok? {
      assert forall k :: 0 <= k < |rows| ==> after[k] == rows[k] && rows[k].session != b.session;
    }
  }

  /** Both commit-point rows are appended or nothing changes, and the laws hold either way. */
  lemma CommitLawful(t: Table, b: Booking, id: Id, event: Id, now: int, reported: Index)
    requires Lawful(t)
    requires forall k :: 0 <= k < |t.rows| ==> t.rows[k].id != id && t.outbox[k].id != event
    ensures var (answer, u) := Commit(t, b, id, event, now, reported);
            && Lawful(u)
            && (answer.Ok? ==> u.rows == t.rows + [answer.value] && |u.outbox| == |t.outbox| + 1)
            && (answer.Err? ==> u == t)
  {
    InsertUnique(t.rows, b, id, now, reported);
    hide Unique;
    var (answer, u) := Commit(t, b, id, event, now, reported);
    if answer.Ok? {
      assert forall k :: 0 <= k < |t.rows| ==> u.rows[k] == t.rows[k] && u.outbox[k] == t.outbox[k];
    }
  }

  /** An insert succeeds exactly if no row has the session and no confirmed row the seat. It then appends the booking
      as asked for, confirmed and stamped with identity and time; a failed one changes nothing and reports an index
      that is violated, of two the one the database happens to name. */
  lemma InsertArbitrates(rows: seq<Booking>, b: Booking, id: Id, now: int, reported: Index)
    ensures var (answer, after) := Insert(rows, b, id, now, reported);
            && (answer.Ok? <==> forall p :: p in rows ==>
                  p.session != b.session &&
                  !(p.status == Confirmed && p.screening == b.screening && p.seat == b.seat))
            && (answer.Ok? ==>
                  answer.value == Booking(id, b.session, b.screening, b.seat, b.user, Confirmed, now) &&
                  after == rows + [answer.value])
            && (answer.Err? ==> after == rows && answer.error in {SessionAlreadyConfirmed, SeatAlreadyBooked})
            && (answer == Err(SessionAlreadyConfirmed) ==> exists p :: p in rows && p.session == b.session)
            && (answer == Err(SeatAlreadyBooked) ==>
                  exists p :: p in rows && p.status == Confirmed && p.screening == b.screening && p.seat == b.seat)
            && ((exists p :: p in rows && p.session == b.session) &&
                (exists p :: p in rows && p.status == Confirmed && p.screening == b.screening && p.seat == b.seat) ==>
                  answer == Err(if reported == SessionIndex then SessionAlreadyConfirmed else SeatAlreadyBooked))
  {
    ConfirmedMeans(rows, b.Ref());
    if FindSession(rows, b.session) >= 0 {
      assert rows[FindSession(rows, b.session)] in rows;
    }
  }

  /** A commit that succeeds appends the inserted booking and, under the other identifier, an event with its fields; any
      other changes nothing. */
  lemma CommitDecides(t: Table, b: Booking, id: Id, event: Id, now: int, reported: Index)
    ensures var (answer, u) := Commit(t, b, id, event, now, reported);
            && answer == Insert(t.rows, b, id, now, reported).0
            && (answer.Err? ==> u == t)
            && (answer.Ok? ==>
                  && u.rows == t.rows + [answer.value]
                  && |u.outbox| == |t.outbox| + 1 && u.outbox[..|t.outbox|] == t.outbox
                  && u.outbox[|t.outbox|].id == event && Repeats(u.outbox[|t.outbox|], answer.value))
  {
    hide FindSession, SeatConfirmed;
  }

  /** The lookups on plain rows: the session's booking, and whether a confirmed row has the seat. */
  lemma LookupsDecide(rows: seq<Booking>, session: Id, ref: SeatRef)
    requires Unique(rows)
    ensures forall b :: GetBySession(rows, session) == Ok(b) <==> b in rows && b.session == session
    ensures GetBySession(rows, session).Err? <==> GetBySession(rows, session) == Err(BookingNotFound)
    ensures SeatConfirmed(rows, ref) <==>
            exists b :: b in rows && b.screening == ref.screening && b.seat == ref.seat && b.status == Confirmed
  {
    hide Unique;
    forall b ensures GetBySession(rows, session) == Ok(b) <==> b in rows && b.session == session {
      if b in rows && b.session == session {
        var k :| 0 <= k < |rows| && rows[k] == b;
        FoundAt(rows, k);
      }
    }
    ConfirmedMeans(rows, ref);
  }

  /** A seat is confirmed exactly if some row says so. */
  lemma ConfirmedMeans(rows: seq<Booking>, ref: SeatRef)
    ensures SeatConfirmed(rows, ref) <==>
            exists b :: b in rows && b.screening == ref.screening && b.seat == ref.seat && b.status == Confirmed
  {
    if k :| 0 <= k < |rows| && rows[k].Ref() == ref && rows[k].status == Confirmed {
      assert rows[k] in rows;
    }
    if b :| b in rows && b.screening == ref.screening && b.seat == ref.seat && b.status == Confirmed {
      var k :| 0 <= k < |rows| && rows[k] == b;
      assert rows[k].Ref() == ref;
    }
  }

  /** In a unique table a row is found by its session. */
  lemma FoundAt(rows: seq<Booking>, k: nat)
    requires Unique(rows) && k < |rows|
    ensures FindSession(rows, rows[k].session) == k
  {
    var i := FindSession(rows, rows[k].session);
    assert i == k || i < k || k < i;
  }
}
