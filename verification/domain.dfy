/** The values shared by every component: seats, holds, bookings, payments and screenings.
    Times are integers counting nanoseconds since the Unix epoch. */
module Domain {

  datatype Option<+T> = None | Some(value: T)

  const SECOND := 1_000_000_000

  /** Identifiers the system mints and only ever compares: sessions, users, hold tokens, intents, bookings,
      refresh tokens and their families. NoId is the empty string. */
  datatype Id = NoId | Id(n: nat)

  /** The widths of Go's `int` on the supported platforms and of `ParseInt(_, 10, 64)`. */
  predicate IsInt64(n: int) {
    -0x8000_0000_0000_0000 <= n < 0x8000_0000_0000_0000
  }

  datatype Seat = Seat(row: string, number: int)

  /** A seat of one screening: what a hold claims and a booking sells. */
  datatype SeatRef = SeatRef(screening: string, seat: Seat)

  datatype Hold = Hold(session: Id, screening: string, seat: Seat, user: Id, token: Id, expiresAt: int) {
    function Ref(): SeatRef { SeatRef(screening, seat) }

    predicate IsExpired(now: int) { !(now < expiresAt) }

    predicate CanBeConfirmed(now: int) { !IsExpired(now) }

    /** Well-formed and not yet expired. */
    predicate Validates(now: int) {
      session != NoId && screening != "" && user != NoId && token != NoId && seat.row != "" && seat.number >= 1 &&
      now < expiresAt
    }
  }

  datatype BookingStatus = Confirmed | Cancelled

  datatype Booking = Booking(id: Id, session: Id, screening: string, seat: Seat, user: Id,
                             status: BookingStatus, confirmedAt: int)
  {
    function Ref(): SeatRef { SeatRef(screening, seat) }
  }

  datatype SeatStatus = Available | Held | Booked

  datatype Screening = Screening(id: string, rows: seq<string>, seatsPerRow: int, price: int)

  datatype Status = Intent | Authorized | Captured | Refunding | Refunded | Failed {
    /** The legal status edges; same-status moves are not edges. */
    predicate CanTransitionTo(next: Status) {
      match this
      case Intent => next == Authorized || next == Captured || next == Failed
      case Authorized => next == Captured || next == Failed
      case Captured => next == Refunding
      case Refunding => next == Refunded
      case Refunded => false
      case Failed => false
    }

    /** The predicate of the partial unique index on active payments. */
    predicate IsActive() { this != Failed && this != Refunded }
  }

  datatype Payment = Payment(id: Id, session: Id, gateway: string, intent: Id, status: Status,
                             amount: int, currency: string, createdAt: int, updatedAt: int)

  /** Every error the modelled operations can answer; `Infra` stands for any failure of the
      infrastructure behind a port. */
  datatype Error =
    | Infra
    | ScreeningNotFound | SeatOutOfRange | SeatAlreadyBooked | InvalidHold
    | SeatAlreadyHeld | HoldLimitExceeded | HoldNotFound | NotHoldOwner | HoldExpired
    | SessionAlreadyConfirmed | BookingNotFound | OwnershipViolated
    | PaymentNotFound | PaymentNotCaptured | PaymentDeclined | InvalidTransition
    | IntentExists | DuplicateIntent | GatewayRejected

  datatype Result<+T> = Ok(value: T) | Err(error: Error)

  /** A call is answered, fails without effect, or takes effect with its reply lost. */
  datatype Net = Answered | Dropped | ReplyLost

  // ----- NewSeat -----

  /** Unicode white space, as `strings.TrimSpace` reads it. */
  predicate IsSpace(c: char) {
    '\t' <= c <= '\r' || c == ' ' || c == '\U{0085}' || c == '\U{00A0}' || c == '\U{1680}' ||
    '\U{2000}' <= c <= '\U{200A}' || c == '\U{2028}' || c == '\U{2029}' || c == '\U{202F}' ||
    c == '\U{205F}' || c == '\U{3000}'
  }

  /** Upper case, exact for every character whose upper case is an ASCII letter: the ASCII letters, the
      dotless i and the long s. Any other character is left alone here; its true upper case is not an
      ASCII letter either, so NewSeat refuses it both ways. */
  function ToUpper(c: char): char {
    if 'a' <= c <= 'z' then (c as int - 32) as char
    else if c == '\U{0131}' then 'I'
    else if c == '\U{017F}' then 'S'
    else c
  }

  predicate IsRowLetter(c: char) { 'A' <= c <= 'Z' }

  function TrimLeft(s: string): string {
    if s != "" && IsSpace(s[0]) then TrimLeft(s[1..]) else s
  }

  function TrimRight(s: string): string {
    if s != "" && IsSpace(s[|s| - 1]) then TrimRight(s[..|s| - 1]) else s
  }

  function Normalize(row: string): string {
    var t := TrimRight(TrimLeft(row));
    seq(|t|, i requires 0 <= i < |t| => ToUpper(t[i]))
  }

  /** The shape NewSeat establishes: one to three upper-case letters, number at least one. */
  predicate ValidSeat(seat: Seat) {
    1 <= |seat.row| <= 3 && (forall i :: 0 <= i < |seat.row| ==> IsRowLetter(seat.row[i])) && seat.number >= 1
  }

  /** A seat NewSeat built, numbered within the width of the source's integers. */
  predicate ProperSeat(seat: Seat) { ValidSeat(seat) && IsInt64(seat.number) }

  function NewSeat(row: string, number: int): (r: Option<Seat>)
    ensures r.Some? ==> ValidSeat(r.value) && r.value.number == number
  {
    var seat := Seat(Normalize(row), number);
    if ValidSeat(seat) then Some(seat) else None
  }

  /** A seat that NewSeat built is a fixed point of NewSeat. */
  lemma NewSeatFixesValid(seat: Seat)
    requires ValidSeat(seat)
    ensures NewSeat(seat.row, seat.number) == Some(seat)
  {
    assert !IsSpace(seat.row[0]) && !IsSpace(seat.row[|seat.row| - 1]);
    assert Normalize(seat.row) == seat.row;
  }

  /** The row letter u as a user may type it: itself, its lower case, or one of the two foreign letters that
      upper-case to it. */
  predicate ReadsAs(c: char, u: char) {
    IsRowLetter(u) &&
    (c == u || c as int == u as int + 32 || (c == '\U{0131}' && u == 'I') || (c == '\U{017F}' && u == 'S'))
  }

  /** The letters stand in the typed row from position at on, with nothing but white space around them. */
  ghost predicate TypedAt(row: string, letters: string, at: nat) {
    && at + |letters| <= |row|
    && (forall i :: 0 <= i < at || at + |letters| <= i < |row| ==> IsSpace(row[i]))
    && (forall i :: 0 <= i < |letters| ==> ReadsAs(row[at + i], letters[i]))
  }

  lemma {:induction false} TrimLeftAt(s: string) returns (k: nat)
    ensures k <= |s| && TrimLeft(s) == s[k..]
    ensures forall i :: 0 <= i < k ==> IsSpace(s[i])
    ensures k < |s| ==> !IsSpace(s[k])
  {
    hide IsSpace;
    k := 0;
    if s != "" && IsSpace(s[0]) {
      k := TrimLeftAt(s[1..]);
      assert s[1..][k..] == s[k + 1..];
      assert forall i :: 0 < i <= k ==> s[i] == s[1..][i - 1];
      k := k + 1;
    }
  }

  lemma {:induction false} TrimRightAt(s: string) returns (k: nat)
    ensures k <= |s| && TrimRight(s) == s[..k]
    ensures forall i :: k <= i < |s| ==> IsSpace(s[i])
    ensures k > 0 ==> !IsSpace(s[k - 1])
  {
    hide IsSpace;
    k := |s|;
    if s != "" && IsSpace(s[|s| - 1]) {
      var front := s[..|s| - 1];
      k := TrimRightAt(front);
      assert front[..k] == s[..k];
      assert forall i :: k <= i < |front| ==> s[i] == front[i];
    } else {
      assert s[..k] == s;
    }
  }

  /** What is left of a typed row: the stretch between the surrounding white space, letter by letter in upper case. */
  lemma NormalizeAt(row: string) returns (from: nat, to: nat)
    ensures from <= to <= |row| && |Normalize(row)| == to - from
    ensures forall i :: 0 <= i < to - from ==> Normalize(row)[i] == ToUpper(row[from + i])
    ensures forall i :: 0 <= i < from || to <= i < |row| ==> IsSpace(row[i])
    ensures from < to ==> !IsSpace(row[from]) && !IsSpace(row[to - 1])
  {
    hide IsSpace, ToUpper;
    from := TrimLeftAt(row);
    var k := TrimRightAt(row[from..]);
    to := from + k;
    assert forall i :: to <= i < |row| ==> row[i] == row[from..][i - from];
    assert forall i :: 0 <= i < k ==> row[from..][..k][i] == row[from + i];
  }

  lemma UpperReads(c: char, u: char)
    ensures IsRowLetter(u) ==> (ToUpper(c) == u <==> ReadsAs(c, u))
    ensures ReadsAs(c, u) ==> !IsSpace(c)
  {
  }

  /** Exactly which input names a seat: a number from one on, and one to three letters in either case, with any white
      space around them; the seat carries those letters in upper case. */
  lemma NewSeatReads(row: string, number: int, seat: Seat)
    ensures NewSeat(row, number) == Some(seat) <==>
            seat.number == number >= 1 && 1 <= |seat.row| <= 3 && exists at: nat :: TypedAt(row, seat.row, at)
  {
    hide IsSpace, ToUpper, ReadsAs, IsRowLetter, TrimLeft, TrimRight, Normalize;
    var from, to := NormalizeAt(row);
    var letters := Normalize(row);
    forall c, u ensures (IsRowLetter(u) ==> (ToUpper(c) == u <==> ReadsAs(c, u))) && (ReadsAs(c, u) ==> !IsSpace(c)) {
      UpperReads(c, u);
    }
    forall c, u | ReadsAs(c, u) ensures IsRowLetter(u) {
      ReadsARowLetter(c, u);
    }
    if ValidSeat(seat) && seat.row == letters {
      assert TypedAt(row, letters, from);
    }
    if at: nat :| TypedAt(row, seat.row, at) && 1 <= |seat.row| {
      assert ReadsAs(row[at + 0], seat.row[0]);
      assert ReadsAs(row[at + (|seat.row| - 1)], seat.row[|seat.row| - 1]);
      assert at == from && at + |seat.row| == to;
      assert forall i :: 0 <= i < |letters| ==> letters[i] == ToUpper(row[at + i]) == seat.row[i];
      assert seat.row == letters;
    }
  }

  lemma ReadsARowLetter(c: char, u: char)
    requires ReadsAs(c, u)
    ensures IsRowLetter(u)
  {
  }

  // ----- statuses -----

  /** What the guarded writes may do to a status: leave it, or settle an open one. */
  predicate Settles(before: Status, after: Status) {
    after == before || (before in {Intent, Authorized} && after in {Captured, Failed})
  }

  /** Money that moved and dead intents stay as they are, and every change is an edge of the state machine. */
  lemma SettlingFollowsEdges(a: Status, b: Status)
    ensures Settles(a, b) ==> a == b || a.CanTransitionTo(b)
  {
  }

  /** How far a payment has come. */
  function Stage(status: Status): nat {
    match status
    case Intent => 0
    case Authorized => 1
    case Captured | Failed => 2
    case Refunding => 3
    case Refunded => 4
  }

  predicate MoneyMoved(status: Status) { status == Captured || status == Refunding || status == Refunded }

  /** The status machine in one line: an open payment moves forward to authorized, captured or failed, and collected
      money moves one stage at a time through a refund; nothing else moves. So it only goes forward, ends in failed and
      refunded alone, takes money back only by a refund, and collects it only from an open payment. */
  lemma EdgesGoForward(a: Status, b: Status)
    ensures a.CanTransitionTo(b) <==>
            (Stage(a) < 2 && Stage(a) < Stage(b) <= 2) || (MoneyMoved(a) && MoneyMoved(b) && Stage(b) == Stage(a) + 1)
    ensures a.CanTransitionTo(b) ==> Stage(a) < Stage(b) && a != Failed && a != Refunded
    ensures a.CanTransitionTo(b) && MoneyMoved(a) ==> MoneyMoved(b) && b != Captured
    ensures a.CanTransitionTo(b) && MoneyMoved(b) && !MoneyMoved(a) ==> a in {Intent, Authorized} && b == Captured
    ensures a.CanTransitionTo(b) && b == Failed ==> a in {Intent, Authorized}
  {
  }
}
