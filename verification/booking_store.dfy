/** The in-memory booking store: the arbiter re-expressed as two maps. */
module BookingStores {
  import opened Domain
  import opened SeatKeys
  import Sales

  class BookingStore {
    var bySession: map<Id, Booking>
    var bySeat: map<string, seq<Booking>>
    /** Every booking ever confirmed, in order. */
    ghost var rows: seq<Booking>

    ghost predicate Valid()
      reads this
    {
      && Sales.Unique(rows)
      && (forall k :: 0 <= k < |rows| ==> ProperSeat(rows[k].seat))
      && SessionsIndexed(bySession, rows)
      && SeatsIndexed(bySeat, rows)
    }

    constructor ()
      ensures Valid() && rows == []
    {
      bySession, bySeat, rows := map[], map[], [];
    }

    method Confirm(b: Booking, id: Id, now: int) returns (r: Result<Booking>)
      requires Valid() && ProperSeat(b.seat)
      modifies this
      ensures Valid()
      ensures (r, rows) == Sales.Insert(old(rows), b, id, now, Sales.SessionIndex)
    {
      hide SeatKey, SessionsIndexed, SeatsIndexed, Sales.Unique;
      SessionFound(bySession, rows, b.session);
      Sales.InsertUnique(rows, b, id, now, Sales.SessionIndex);
      if b.session in bySession {
        return Err(SessionAlreadyConfirmed);
      }
      var key := SeatKey(b.screening, b.seat);
      var onSeat := if key in bySeat then bySeat[key] else [];
      SeatFound(bySeat, rows, b.Ref());
      for i := 0 to |onSeat|
        invariant forall k :: 0 <= k < i ==> onSeat[k].status != Confirmed
      {
        if onSeat[i].status == Confirmed {
          return Err(SeatAlreadyBooked);
        }
      }
      var row := b.(id := id, status := Confirmed, confirmedAt := now);
      AppendKeepsIndexes(bySession, bySeat, rows, row);
      bySession := bySession[b.session := row];
      bySeat := bySeat[key := onSeat + [row]];
      rows := rows + [row];
      r := Ok(row);
    }

    method GetBySession(session: Id) returns (r: Result<Booking>)
      requires Valid()
      ensures r == Sales.GetBySession(rows, session)
    {
      SessionFound(bySession, rows, session);
      r := if session in bySession then Ok(bySession[session]) else Err(BookingNotFound);
    }

    method SeatConfirmed(screening: string, seat: Seat) returns (confirmed: bool)
      requires Valid() && ProperSeat(seat)
      ensures confirmed == Sales.SeatConfirmed(rows, SeatRef(screening, seat))
      ensures confirmed <==> exists k :: 0 <= k < |rows| && Sold(rows[k], screening, seat)
    {
      hide SeatKey;
      SeatFound(bySeat, rows, SeatRef(screening, seat));
      var key := SeatKey(screening, seat);
      var onSeat := if key in bySeat then bySeat[key] else [];
      for i := 0 to |onSeat|
        invariant forall k :: 0 <= k < i ==> onSeat[k].status != Confirmed
      {
        if onSeat[i].status == Confirmed {
          return true;
        }
      }
      confirmed := false;
    }

    /** The confirmed seats of the screening, in any order. */
    method ConfirmedSeats(screening: string) returns (seats: seq<Seat>)
      requires Valid()
      ensures forall seat :: seat in seats <==> exists k :: 0 <= k < |rows| && Sold(rows[k], screening, seat)
    {
      hide SeatKey;
      seats := [];
      var todo := bySeat.Keys;
      while todo != {}
        invariant todo <= bySeat.Keys
        invariant forall seat :: seat in seats <==>
                    exists key, j :: key in bySeat.Keys - todo && 0 <= j < |bySeat[key]| &&
                                     Sold(bySeat[key][j], screening, seat)
        decreases todo
      {
        var key :| key in todo;
        var onSeat := bySeat[key];
        ghost var before := seats;
        for i := 0 to |onSeat|
          invariant forall seat :: seat in seats <==>
                      seat in before || exists j :: 0 <= j < i && Sold(onSeat[j], screening, seat)
        {
          if onSeat[i].screening == screening && onSeat[i].status == Confirmed {
            seats := seats + [onSeat[i].seat];
          }
        }
        todo := todo - {key};
      }
      IndexHoldsSales(bySeat, rows, screening);
    }
  }

  predicate Sold(b: Booking, screening: string, seat: Seat) {
    b.screening == screening && b.status == Confirmed && b.seat == seat
  }

  ghost predicate SessionsIndexed(bySession: map<Id, Booking>, rows: seq<Booking>) {
    && (forall k :: 0 <= k < |rows| ==> rows[k].session in bySession && bySession[rows[k].session] == rows[k])
    && (forall x :: x in bySession ==> exists k :: 0 <= k < |rows| && rows[k].session == x)
  }

  ghost predicate SeatsIndexed(bySeat: map<string, seq<Booking>>, rows: seq<Booking>) {
    && (forall k :: 0 <= k < |rows| ==>
          SeatKey(rows[k].screening, rows[k].seat) in bySeat &&
              rows[k] in bySeat[SeatKey(rows[k].screening, rows[k].seat)])
    && (forall key, j :: key in bySeat && 0 <= j < |bySeat[key]| ==>
          bySeat[key][j] in rows && SeatKey(bySeat[key][j].screening, bySeat[key][j].seat) == key)
  }

  lemma SessionFound(bySession: map<Id, Booking>, rows: seq<Booking>, session: Id)
    requires Sales.Unique(rows) && SessionsIndexed(bySession, rows)
    ensures session in bySession <==> Sales.FindSession(rows, session) >= 0
    ensures session in bySession ==> bySession[session] == rows[Sales.FindSession(rows, session)]
  {
  }

  lemma SeatFound(bySeat: map<string, seq<Booking>>, rows: seq<Booking>, ref: SeatRef)
    requires SeatsIndexed(bySeat, rows) && (forall k :: 0 <= k < |rows| ==> ProperSeat(rows[k].seat))
    requires ProperSeat(ref.seat)
    ensures var key := SeatKey(ref.screening, ref.seat);
            Sales.SeatConfirmed(rows, ref) <==>
            key in bySeat && exists j :: 0 <= j < |bySeat[key]| && bySeat[key][j].status == Confirmed
  {
    hide SeatKey;
    var key := SeatKey(ref.screening, ref.seat);
    if key in bySeat {
      forall j | 0 <= j < |bySeat[key]| ensures bySeat[key][j].Ref() == ref && bySeat[key][j] in rows {
        SeatKeyInjective(bySeat[key][j].Ref(), ref);
      }
    }
  }

  lemma AppendKeepsIndexes(bySession: map<Id, Booking>, bySeat: map<string, seq<Booking>>, rows: seq<Booking>,
        row: Booking)
    requires SessionsIndexed(bySession, rows) && SeatsIndexed(bySeat, rows) && row.session !in bySession
    ensures SessionsIndexed(bySession[row.session := row], rows + [row])
    ensures var key := SeatKey(row.screening, row.seat);
            SeatsIndexed(bySeat[key := (if key in bySeat then bySeat[key] else []) + [row]], rows + [row])
  {
    hide SeatKey;
    var after := rows + [row];
    forall x | x in bySession ensures exists k :: 0 <= k < |after| && after[k].session == x {
      var k :| 0 <= k < |rows| && rows[k].session == x;
      assert after[k].session == x;
    }
    assert after[|rows|] == row;
  }

  lemma IndexHoldsSales(bySeat: map<string, seq<Booking>>, rows: seq<Booking>, screening: string)
    requires SeatsIndexed(bySeat, rows)
    ensures forall seat :: seat in Sales.ConfirmedSeats(rows, screening) <==>
              exists key, j :: key in bySeat && 0 <= j < |bySeat[key]| && Sold(bySeat[key][j], screening, seat)
  {
    hide SeatKey;
    forall seat | seat in Sales.ConfirmedSeats(rows, screening)
      ensures exists key, j :: key in bySeat && 0 <= j < |bySeat[key]| && Sold(bySeat[key][j], screening, seat)
    {
      var k :| 0 <= k < |rows| && Sold(rows[k], screening, seat);
      var key := SeatKey(rows[k].screening, rows[k].seat);
      var j :| 0 <= j < |bySeat[key]| && bySeat[key][j] == rows[k];
    }
  }
}
