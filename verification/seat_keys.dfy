/** The seat key codec of the hold stores: `seat:{screening}:{row}:{number}`. */
module SeatKeys {
  import opened Domain
  import opened Decimal
  import opened Strings

  const SEAT_PREFIX := "seat:"

  function SeatKey(screening: string, seat: Seat): string {
    SEAT_PREFIX + screening + ":" + seat.row + ":" + Itoa(seat.number)
  }

  function ParseSeatKey(screening: string, key: string): Option<Seat> {
    var prefix := SEAT_PREFIX + screening + ":";
    if !(prefix <= key) then None
    else
      var rest := key[|prefix|..];
      var colon := IndexOf(rest, ':');
      if colon < 0 then None
      else
        match Atoi(rest[colon + 1..])
        case None => None
        case Some(number) => NewSeat(rest[..colon], number)
  }

  lemma ItoaHasNoColon(n: int)
    ensures forall i :: 0 <= i < |Itoa(n)| ==> Itoa(n)[i] != ':'
  {
    if n < 0 {
      assert forall i :: 0 < i < |Itoa(n)| ==> Itoa(n)[i] == PrintNat(-n)[i - 1];
    }
  }

  /** Parsing undoes printing, whatever characters the screening ID holds. */
  lemma ParseUndoesKey(screening: string, seat: Seat)
    requires ProperSeat(seat)
    ensures ParseSeatKey(screening, SeatKey(screening, seat)) == Some(seat)
  {
    hide Itoa, Atoi, IndexOf, NewSeat;
    var key := SeatKey(screening, seat);
    var prefix := SEAT_PREFIX + screening + ":";
    var rest := seat.row + ":" + Itoa(seat.number);
    assert key == prefix + rest;
    assert key[|prefix|..] == rest;
    var colon := IndexOf(rest, ':');
    assert colon == |seat.row| by {
      assert rest[|seat.row|] == ':';
      assert forall k :: 0 <= k < |seat.row| ==> rest[k] == seat.row[k] && rest[k] != ':';
    }
    assert rest[..colon] == seat.row && rest[colon + 1..] == Itoa(seat.number);
    AtoiItoa(seat.number);
    NewSeatFixesValid(seat);
  }

  /** The key is made up of the prefix, the screening, a row without a colon, and a numeral. */
  ghost predicate Spells(key: string, screening: string, row: string, number: string) {
    key == "seat:" + screening + ":" + row + ":" + number && forall i :: 0 <= i < |row| ==> row[i] != ':'
  }

  /** Exactly which keys parse, and to what: what stands after the screening's prefix is a row up to the first colon and
      a numeral, and NewSeat accepts the two. */
  lemma ParseDecides(screening: string, key: string, seat: Seat)
    ensures ParseSeatKey(screening, key) == Some(seat) <==>
            exists row, number :: Spells(key, screening, row, number) && Atoi(number).Some? &&
                                  NewSeat(row, Atoi(number).value) == Some(seat)
  {
    hide Atoi, IndexOf, NewSeat;
    var prefix := SEAT_PREFIX + screening + ":";
    if ParseSeatKey(screening, key).Some? {
      var rest := key[|prefix|..];
      var colon := IndexOf(rest, ':');
      assert key == prefix + (rest[..colon] + ":" + rest[colon + 1..]);
      assert Spells(key, screening, rest[..colon], rest[colon + 1..]);
    }
    hide ParseSeatKey, Spells;
    forall row, number | Spells(key, screening, row, number)
      ensures ParseSeatKey(screening, key) == if Atoi(number).Some? then NewSeat(row, Atoi(number).value) else None
    {
      SpelledParses(screening, key, row, number);
    }
  }

  lemma SpelledParses(screening: string, key: string, row: string, number: string)
    requires Spells(key, screening, row, number)
    ensures ParseSeatKey(screening, key) == if Atoi(number).Some? then NewSeat(row, Atoi(number).value) else None
  {
    hide Atoi, IndexOf, NewSeat;
    var prefix, rest := SEAT_PREFIX + screening + ":", row + ":" + number;
    assert key == prefix + rest;
    assert key[|prefix|..] == rest;
    assert rest[|row|] == ':' && forall k :: 0 <= k < |row| ==> rest[k] == row[k];
    assert IndexOf(rest, ':') == |row|;
    assert rest[..|row|] == row && rest[|row| + 1..] == number;
  }

  /** A key never parses as a key of another screening, even when an ID is a prefix of the other or holds
      colons. */
  lemma ForeignKeyNeverParses(screening: string, seat: Seat, other: string)
    requires ValidSeat(seat) && other != screening
    ensures ParseSeatKey(other, SeatKey(screening, seat)) == None
  {
    hide Itoa, Atoi, IndexOf, NewSeat;
    var key := SeatKey(screening, seat);
    var number := Itoa(seat.number);
    var prefix := SEAT_PREFIX + other + ":";
    var first := 5 + |screening|;             // the colon after the screening ID
    var second := first + 1 + |seat.row|;     // the colon after the row
    assert key[5..first] == screening && key[first] == ':' && key[second] == ':';
    assert forall k :: first < k < second ==> key[k] == seat.row[k - first - 1];
    assert key[second + 1..] == number;
    assert forall k :: second < k < |key| ==> key[k] == number[k - second - 1];
    ItoaHasNoColon(seat.number);
    if prefix <= key {
      assert prefix[5..|prefix| - 1] == other;
      assert key[5..|prefix| - 1] == other && key[|prefix| - 1] == ':';
      var rest := key[|prefix|..];
      if |other| > |screening| {
        assert |prefix| - 1 == second;
        assert rest == number;
      } else {
        assert |other| < |screening|;
        var colon := IndexOf(rest, ':');
        assert rest[first - |prefix|] == ':' && colon <= first - |prefix|;
        assert rest[colon + 1..][second - |prefix| - colon - 1] == ':';
        if Atoi(rest[colon + 1..]).Some? {
          AtoiAlphabet(rest[colon + 1..]);
          assert false;
        }
      }
    }
  }

  /** Distinct seats have distinct keys. */
  lemma SeatKeyInjective(a: SeatRef, b: SeatRef)
    requires ProperSeat(a.seat) && ProperSeat(b.seat)
    requires SeatKey(a.screening, a.seat) == SeatKey(b.screening, b.seat)
    ensures a == b
  {
    ParseUndoesKey(a.screening, a.seat);
    ParseUndoesKey(b.screening, b.seat);
    if a.screening != b.screening {
      ForeignKeyNeverParses(a.screening, a.seat, b.screening);
    }
  }
}
