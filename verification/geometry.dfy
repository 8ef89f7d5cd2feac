/** The seat grid of a screening and the seat map rendered over it. */
module Geometry {
  import opened Domain

  predicate HasSeat(s: Screening, seat: Seat) {
    1 <= seat.number <= s.seatsPerRow && seat.row in s.rows
  }

  function RowSeats(row: string, count: nat): seq<Seat> {
    seq(count, n requires 0 <= n < count => Seat(row, n + 1))
  }

  /** The first k rows, row after row. */
  function Grid(s: Screening, k: nat): seq<Seat>
    requires s.seatsPerRow >= 0 && k <= |s.rows|
  {
    if k == 0 then [] else Grid(s, k - 1) + RowSeats(s.rows[k - 1], s.seatsPerRow)
  }

  lemma {:induction false} GridSize(s: Screening, k: nat)
    requires s.seatsPerRow >= 0 && k <= |s.rows|
    ensures |Grid(s, k)| == k * s.seatsPerRow
  {
    if k > 0 {
      GridSize(s, k - 1);
      assert (k - 1) * s.seatsPerRow + s.seatsPerRow == k * s.seatsPerRow;
    }
  }

  /** Where the seat of row index i and number n stands in the grid. */
  function Position(s: Screening, i: int, n: int): int { i * s.seatsPerRow + n - 1 }

  lemma {:induction false} GridAt(s: Screening, k: nat, i: nat, n: int)
    requires s.seatsPerRow >= 0 && i < k <= |s.rows| && 1 <= n <= s.seatsPerRow
    ensures 0 <= Position(s, i, n) < |Grid(s, k)|
    ensures Grid(s, k)[Position(s, i, n)] == Seat(s.rows[i], n)
  {
    GridSize(s, k - 1);
    if i < k - 1 {
      GridAt(s, k - 1, i, n);
    }
  }

  /** The grid holds exactly the seats the geometry accepts. */
  lemma {:induction false} GridHolds(s: Screening, k: nat, seat: Seat)
    requires s.seatsPerRow >= 0 && k <= |s.rows|
    ensures seat in Grid(s, k) <==> 1 <= seat.number <= s.seatsPerRow && seat.row in s.rows[..k]
  {
    if k > 0 {
      GridHolds(s, k - 1, seat);
      var last := RowSeats(s.rows[k - 1], s.seatsPerRow);
      assert s.rows[..k] == s.rows[..k - 1] + [s.rows[k - 1]];
      if seat.row == s.rows[k - 1] && 1 <= seat.number <= s.seatsPerRow {
        assert last[seat.number - 1] == seat;
      }
      assert seat in Grid(s, k) <==> seat in Grid(s, k - 1) || seat in last;
    }
  }

  /** The whole grid is laid out row after row, each row by number. */
  ghost predicate LaidOut(s: Screening, seats: seq<Seat>) {
    forall i, n :: 0 <= i < |s.rows| && 1 <= n <= s.seatsPerRow ==>
      0 <= Position(s, i, n) < |seats| && seats[Position(s, i, n)] == Seat(s.rows[i], n)
  }

  lemma GridLaid(s: Screening)
    requires s.seatsPerRow >= 0
    ensures LaidOut(s, Grid(s, |s.rows|))
  {
    hide Grid, Position;
    forall i, n | 0 <= i < |s.rows| && 1 <= n <= s.seatsPerRow
      ensures 0 <= Position(s, i, n) < |Grid(s, |s.rows|)|
      ensures Grid(s, |s.rows|)[Position(s, i, n)] == Seat(s.rows[i], n)
    {
      GridAt(s, |s.rows|, i, n);
    }
  }

  lemma GridCounted(s: Screening)
    requires s.seatsPerRow >= 0
    ensures |Grid(s, |s.rows|)| == |s.rows| * s.seatsPerRow
    ensures forall seat :: seat in Grid(s, |s.rows|) <==> 1 <= seat.number <= s.seatsPerRow && seat.row in s.rows
  {
    hide Grid;
    GridSize(s, |s.rows|);
    forall seat ensures seat in Grid(s, |s.rows|) <==> 1 <= seat.number <= s.seatsPerRow && seat.row in s.rows {
      GridHolds(s, |s.rows|, seat);
      assert s.rows[..|s.rows|] == s.rows;
    }
  }

  lemma RowStarts(row: string)
    ensures RowSeats(row, 0) == []
  {
  }

  lemma RowGrows(row: string, n: nat)
    ensures RowSeats(row, n) + [Seat(row, n + 1)] == RowSeats(row, n + 1)
  {
  }

  /** Positions number the grid row after row, each row by number, from zero on and without a gap up to the count. */
  lemma PositionIsRowMajor(s: Screening, i: int, n: int, j: int, m: int)
    requires 0 <= i < |s.rows| && 1 <= n <= s.seatsPerRow && 0 <= j < |s.rows| && 1 <= m <= s.seatsPerRow
    ensures Position(s, i, n) < Position(s, j, m) <==> i < j || (i == j && n < m)
    ensures 0 <= Position(s, i, n) < |s.rows| * s.seatsPerRow
    ensures Position(s, 0, 1) == 0 && Position(s, |s.rows| - 1, s.seatsPerRow) == |s.rows| * s.seatsPerRow - 1
  {
    if i < j {
      RowsAhead(s.seatsPerRow, i, j);
    } else if j < i {
      RowsAhead(s.seatsPerRow, j, i);
    }
    RowsAhead(s.seatsPerRow, i, |s.rows|);
    RowsAhead(s.seatsPerRow, |s.rows| - 1, |s.rows|);
    RowsAhead(s.seatsPerRow, -1, i);
    NextRow(s.seatsPerRow, |s.rows| - 1);
  }

  lemma NextRow(w: nat, i: int)
    ensures (i + 1) * w == i * w + w
  {
  }

  lemma {:induction false} RowsAhead(w: nat, i: int, j: int)
    requires i < j
    ensures i * w + w <= j * w
    decreases j - i
  {
    NextRow(w, j - 1);
    if i < j - 1 {
      RowsAhead(w, i, j - 1);
    }
  }

  method CheckSeat(s: Screening, seat: Seat) returns (has: bool)
    ensures has == HasSeat(s, seat)
    ensures has <==> 1 <= seat.number <= s.seatsPerRow && seat.row in s.rows
  {
    if seat.number < 1 || seat.number > s.seatsPerRow {
      return false;
    }
    for i := 0 to |s.rows|
      invariant forall k :: 0 <= k < i ==> s.rows[k] != seat.row
    {
      if s.rows[i] == seat.row {
        return true;
      }
    }
    has := false;
  }

  /** Every seat of the grid in row-major order: the seat of row index i and number n is at i * SeatsPerRow
      + n - 1. */
  method AllSeats(s: Screening) returns (seats: seq<Seat>)
    requires s.seatsPerRow >= 0
    ensures |seats| == |s.rows| * s.seatsPerRow && LaidOut(s, seats)
    ensures forall seat :: seat in seats <==> 1 <= seat.number <= s.seatsPerRow && seat.row in s.rows
  {
    hide LaidOut, HasSeat, RowSeats;
    seats := [];
    for i := 0 to |s.rows|
      invariant seats == Grid(s, i)
    {
      RowStarts(s.rows[i]);
      for n := 1 to s.seatsPerRow + 1
        invariant seats == Grid(s, i) + RowSeats(s.rows[i], n - 1)
      {
        RowGrows(s.rows[i], n - 1);
        seats := seats + [Seat(s.rows[i], n)];
      }
    }
    GridLaid(s);
    GridCounted(s);
  }

  /** Booked wins over held, held over available. */
  function StatusOf(booked: set<Seat>, held: set<Seat>, seat: Seat): SeatStatus {
    if seat in booked then Booked else if seat in held then Held else Available
  }

  /** One cell for each seat of the grid, at its position: booked if it is booked, else held if it is held, else
      available. */
  ghost predicate Rendered(s: Screening, cells: seq<(Seat, SeatStatus)>, booked: set<Seat>, held: set<Seat>) {
    && |cells| == |s.rows| * s.seatsPerRow
    && forall i, n :: 0 <= i < |s.rows| && 1 <= n <= s.seatsPerRow ==>
         var at, seat := Position(s, i, n), Seat(s.rows[i], n);
         && 0 <= at < |cells|
         && cells[at] == (seat, if seat in booked then Booked else if seat in held then Held else Available)
  }

  lemma RenderedOverSameGrid(s: Screening, t: Screening, cells: seq<(Seat, SeatStatus)>, booked: set<Seat>,
                             held: set<Seat>)
    requires Rendered(s, cells, booked, held) && t.rows == s.rows && t.seatsPerRow == s.seatsPerRow
    ensures Rendered(t, cells, booked, held)
  {
    forall i, n | 0 <= i < |t.rows| && 1 <= n <= t.seatsPerRow
      ensures var at, seat := Position(t, i, n), Seat(t.rows[i], n);
              && 0 <= at < |cells|
              && cells[at] == (seat, if seat in booked then Booked else if seat in held then Held else Available)
    {
      assert Position(t, i, n) == Position(s, i, n);
    }
  }

  /** The rendered map: one status per grid seat, in the grid's order. */
  method SeatMap(s: Screening, booked: seq<Seat>, held: seq<Seat>) returns (cells: seq<(Seat, SeatStatus)>)
    requires s.seatsPerRow >= 0
    ensures |cells| == |s.rows| * s.seatsPerRow
    ensures forall i, n :: 0 <= i < |s.rows| && 1 <= n <= s.seatsPerRow ==>
              var at := Position(s, i, n);
              var seat := Seat(s.rows[i], n);
              && 0 <= at < |cells|
              && cells[at].0 == seat
              && (cells[at].1 == Booked <==> seat in booked)
              && (cells[at].1 == Held <==> seat !in booked && seat in held)
              && (cells[at].1 == Available <==> seat !in booked && seat !in held)
  {
    var bookedSet: set<Seat> := {};
    for i := 0 to |booked|
      invariant forall seat :: seat in bookedSet <==> seat in booked[..i]
    {
      bookedSet := bookedSet + {booked[i]};
    }
    var heldSet: set<Seat> := {};
    for i := 0 to |held|
      invariant forall seat :: seat in heldSet <==> seat in held[..i]
    {
      heldSet := heldSet + {held[i]};
    }
    assert booked[..|booked|] == booked && held[..|held|] == held;
    var seats := AllSeats(s);
    cells := [];
    for i := 0 to |seats|
      invariant |cells| == i
      invariant forall k :: 0 <= k < i ==> cells[k] == (seats[k], StatusOf(bookedSet, heldSet, seats[k]))
    {
      var status := Available;
      if seats[i] in bookedSet {
        status := Booked;
      } else if seats[i] in heldSet {
        status := Held;
      }
      cells := cells + [(seats[i], status)];
    }
  }
}
