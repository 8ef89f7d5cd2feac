/** What a request achieves when nothing interferes: the exact conditions under which each use case succeeds, and
    a purchase from hold to booking. */
module ProtocolProgress {
  import opened Domain
  import opened Protocol
  import opened Landings
  import Holds
  import Ledger
  import Sales

  /** The request runs on alone, every port call answered, one choice per step. */
  function Alone(w: World, me: nat, op: Op, pc: Pc, cs: seq<Choice>): (World, Pc)
    decreases |cs|
  {
    if cs == [] || pc.Done? then (w, pc)
    else Alone(After(w, me, op, pc, cs[0], Answered), me, op, Landing(w, me, op, pc, cs[0], Answered), cs[1..])
  }

  function Serve(w: World, me: nat, op: Op, cs: seq<Choice>): (World, Pc) { Alone(w, me, op, Start, cs) }

  // ----- hold -----

  /** The hold the request asks for, under the identifiers its third step mints. */
  function Asked(w: World, op: Op, c: Choice): Hold
    requires op.OpHold?
  {
    Hold(c.a, op.screening, op.seat, op.user, c.b, w.now + w.ttl)
  }

  /** The screening's grid has the seat. */
  predicate InGridOf(w: World, screening: string, seat: Seat) {
    && screening in w.screenings
    && 1 <= seat.number <= w.screenings[screening].seatsPerRow && seat.row in w.screenings[screening].rows
  }

  /** A confirmed booking has the seat. */
  ghost predicate Taken(rows: seq<Booking>, ref: SeatRef) {
    exists b :: b in rows && b.screening == ref.screening && b.seat == ref.seat && b.status == Confirmed
  }

  lemma TakenIsConfirmed(rows: seq<Booking>, ref: SeatRef)
    ensures Taken(rows, ref) <==> Sales.SeatConfirmed(rows, ref)
  {
    Sales.ConfirmedMeans(rows, ref);
  }

  /** No field of the hold is empty, and it is not born expired. */
  predicate WellFormed(hold: Hold, now: int) {
    && hold.session != NoId && hold.token != NoId && hold.user != NoId && hold.screening != ""
    && hold.seat.row != "" && hold.seat.number >= 1 && now < hold.expiresAt
  }

  /** When a claim can be granted. */
  ghost predicate Grantable(w: World, hold: Hold) {
    && InGridOf(w, hold.screening, hold.seat)
    && !Taken(w.sales.rows, hold.Ref())
    && WellFormed(hold, w.now)
    && |w.holds.keys.Slots(hold.user)| < w.max
    && hold.Ref() !in w.holds.keys.seats
  }

  /** A seat is held exactly if it exists, is neither sold nor held, and the user has a slot left; a refusal names
      the first obstacle and changes nothing. */
  lemma HoldAlone(w: World, me: nat, op: Op, cs: seq<Choice>)
    requires op.OpHold? && |cs| >= 4
    ensures var (v, pc) := Serve(w, me, op, cs);
            var hold := Asked(w, op, cs[2]);
            && (pc == Done(HoldGranted(hold)) <==> Grantable(w, hold))
            && v == w.(minter := v.minter, holds := v.holds)
            && v.holds.keys == (if Grantable(w, hold) then Holds.Granted(w.holds.keys, hold) else w.holds.keys)
            && (!Grantable(w, hold) ==> pc.Done? && pc.out.Refused? && Obstacle(w, hold, pc.out.error))
  {
    hide After, Landing, Taken, Sales.SeatConfirmed, Holds.Granted;
    ScreeningLands(w, me, op, Start, cs[0], Answered, op.screening);
    var w1, p1 := After(w, me, op, Start, cs[0], Answered), Landing(w, me, op, Start, cs[0], Answered);
    assert Serve(w, me, op, cs) == Alone(w1, me, op, p1, cs[1..]);
    if p1.InGrid? {
      SeatAlone(w1, me, op, cs[1..]);
    }
  }

  /** Why a claim is refused. */
  ghost predicate Obstacle(w: World, hold: Hold, e: Error) {
    match e
    case ScreeningNotFound => hold.screening !in w.screenings
    case SeatOutOfRange => hold.screening in w.screenings && !InGridOf(w, hold.screening, hold.seat)
    case SeatAlreadyBooked => Taken(w.sales.rows, hold.Ref())
    case InvalidHold => !WellFormed(hold, w.now)
    case HoldLimitExceeded => |w.holds.keys.Slots(hold.user)| >= w.max
    case SeatAlreadyHeld => hold.Ref() in w.holds.keys.seats && |w.holds.keys.Slots(hold.user)| < w.max
    case _ => false
  }

  /** From the seat check on. */
  lemma SeatAlone(w: World, me: nat, op: Op, cs: seq<Choice>)
    requires op.OpHold? && |cs| >= 3 && InGridOf(w, op.screening, op.seat)
    ensures var (v, pc) := Alone(w, me, op, InGrid, cs);
            var hold := Asked(w, op, cs[1]);
            && (pc == Done(HoldGranted(hold)) <==> Grantable(w, hold))
            && v == w.(minter := v.minter, holds := v.holds)
            && v.holds.keys == (if Grantable(w, hold) then Holds.Granted(w.holds.keys, hold) else w.holds.keys)
            && (!Grantable(w, hold) ==> pc.Done? && pc.out.Refused? && Obstacle(w, hold, pc.out.error))
  {
    hide Alone, After, Landing, InGridOf, Taken, Sales.SeatConfirmed, Holds.Granted;
    AloneStep(w, me, op, InGrid, cs);
    SeatLands(w, me, op, cs[0], Answered);
    TakenIsConfirmed(w.sales.rows, SeatRef(op.screening, op.seat));
    var w1, p1 := After(w, me, op, InGrid, cs[0], Answered), Landing(w, me, op, InGrid, cs[0], Answered);
    if p1.Unsold? {
      ClaimAlone(w, w1, me, op, cs[1..]);
    } else {
      AloneEnds(w1, me, op, p1.out, cs[1..]);
    }
  }

  /** From the minting of the hold on. */
  lemma ClaimAlone(w: World, u: World, me: nat, op: Op, cs: seq<Choice>)
    requires op.OpHold? && |cs| >= 2 && OnlyReads(w, u)
    requires InGridOf(w, op.screening, op.seat) && !Taken(w.sales.rows, SeatRef(op.screening, op.seat))
    ensures var (v, pc) := Alone(u, me, op, Unsold, cs);
            var hold := Asked(w, op, cs[0]);
            && (pc == Done(HoldGranted(hold)) <==> Grantable(w, hold))
            && v == w.(minter := v.minter, holds := v.holds)
            && v.holds.keys == (if Grantable(w, hold) then Holds.Granted(w.holds.keys, hold) else w.holds.keys)
            && (!Grantable(w, hold) ==> pc.Done? && pc.out.Refused? && Obstacle(w, hold, pc.out.error))
  {
    hide Alone, After, Landing, InGridOf, Taken, Holds.Granted;
    AloneStep(u, me, op, Unsold, cs);
    MintLands(u, me, op, cs[0]);
    var u1, p1 := After(u, me, op, Unsold, cs[0], Answered), Landing(u, me, op, Unsold, cs[0], Answered);
    if p1.Claiming? {
      AloneStep(u1, me, op, p1, cs[1..]);
      ClaimLands(u1, me, op, p1.hold, cs[1], Answered);
      var u2, p2 := After(u1, me, op, p1, cs[1], Answered), Landing(u1, me, op, p1, cs[1], Answered);
      AloneEnds(u2, me, op, p2.out, cs[2..]);
    } else {
      AloneEnds(u1, me, op, p1.out, cs[1..]);
    }
  }

  // ----- the hold gate -----

  /** The session's record is filed under its own name. */
  predicate Filed(w: World, session: Id) {
    session in w.holds.keys.sessions ==> w.holds.keys.sessions[session].session == session
  }

  /** The session's hold as the store reads it back: exactly, or its expiry floored to the second behind Redis. */
  function ReadBack(w: World, session: Id, g: Choice): Hold
    requires session in w.holds.keys.sessions
  {
    var hold := w.holds.keys.sessions[session];
    if g.redis then hold.(expiresAt := hold.expiresAt / 1_000_000_000 * 1_000_000_000) else hold
  }

  /** The user's own hold, not yet expired as read. */
  predicate Live(w: World, user: Id, session: Id, g: Choice) {
    && session in w.holds.keys.sessions
    && w.holds.keys.sessions[session].user == user
    && w.now < ReadBack(w, session, g).expiresAt
  }

  predicate GateObstacle(w: World, user: Id, session: Id, g: Choice, e: Error) {
    match e
    case HoldNotFound => session !in w.holds.keys.sessions
    case NotHoldOwner => session in w.holds.keys.sessions && w.holds.keys.sessions[session].user != user
    case HoldExpired =>
      session in w.holds.keys.sessions && w.holds.keys.sessions[session].user == user &&
      ReadBack(w, session, g).expiresAt <= w.now
    case _ => false
  }

  lemma ReadLands(w: World, me: nat, op: Op, session: Id, c: Choice)
    requires ReadsHold(op, session)
    ensures OnlyReads(w, After(w, me, op, Start, c, Answered))
    ensures Landing(w, me, op, Start, c, Answered) ==
            if session in w.holds.keys.sessions then Read(ReadBack(w, session, c)) else Refuse(HoldNotFound)
  {
    GetSteps(Mint(w, me, c), me, op, session, c);
    hide Exec;
  }

  /** The gate opens exactly for a live hold; two steps, nothing changes. */
  lemma GateAlone(w: World, me: nat, op: Op, session: Id, cs: seq<Choice>) returns (u: World)
    requires ReadsHold(op, session) && |cs| >= 2
    ensures OnlyReads(w, u)
    ensures Live(w, op.user, session, cs[0]) ==>
              Serve(w, me, op, cs) == Alone(u, me, op, Gated(ReadBack(w, session, cs[0]), w.now), cs[2..])
    ensures !Live(w, op.user, session, cs[0]) ==>
              var (v, pc) := Serve(w, me, op, cs);
              v == u && pc.Done? && pc.out.Refused? && GateObstacle(w, op.user, session, cs[0], pc.out.error)
  {
    hide After, Landing;
    ReadLands(w, me, op, session, cs[0]);
    u := After(w, me, op, Start, cs[0], Answered);
    var p := Landing(w, me, op, Start, cs[0], Answered);
    assert Serve(w, me, op, cs) == Alone(u, me, op, p, cs[1..]);
    if p.Read? {
      ClockLands(u, me, op, p.hold, cs[1]);
      var p' := Landing(u, me, op, p, cs[1], Answered);
      var u' := After(u, me, op, p, cs[1], Answered);
      assert Alone(u, me, op, p, cs[1..]) == Alone(u', me, op, p', cs[2..]);
      u := u';
    }
  }

  // ----- confirm -----

  /** Some row of the session has been captured. */
  ghost predicate MoneyIn(rows: seq<Payment>, session: Id) {
    exists p :: p in rows && p.session == session && p.status == Captured
  }

  lemma MoneyIsCaptured(rows: seq<Payment>, session: Id)
    ensures MoneyIn(rows, session) <==> Ledger.HasCaptured(rows, session)
  {
    Ledger.CapturedMeans(rows, session);
  }

  ghost predicate PaidFor(w: World, user: Id, session: Id, g: Choice) {
    Live(w, user, session, g) && MoneyIn(w.payments, session)
  }

  ghost predicate NoBookingOf(rows: seq<Booking>, session: Id) { forall b :: b in rows ==> b.session != session }

  /** When a confirm sells: live hold, captured money, session and seat both unsold. */
  ghost predicate Sellable(w: World, user: Id, session: Id, g: Choice) {
    && PaidFor(w, user, session, g) && NoBookingOf(w.sales.rows, session)
    && !Taken(w.sales.rows, w.holds.keys.sessions[session].Ref())
  }

  /** When a confirm finds the caller's own earlier sale. */
  ghost predicate Replayable(w: World, user: Id, session: Id, g: Choice, b: Booking) {
    PaidFor(w, user, session, g) && b in w.sales.rows && b.session == session && b.user == user && b.status == Confirmed
  }

  function SoldRow(w: World, session: Id, c: Choice): Booking
    requires session in w.holds.keys.sessions
  {
    var hold := w.holds.keys.sessions[session];
    Booking(c.a, session, hold.screening, hold.seat, hold.user, Confirmed, w.now)
  }

  /** Why a confirm is refused. */
  ghost predicate ConfirmObstacle(w: World, user: Id, session: Id, g: Choice, e: Error) {
    if !Live(w, user, session, g) then GateObstacle(w, user, session, g, e)
    else if !MoneyIn(w.payments, session) then e == PaymentNotCaptured
    else if NoBookingOf(w.sales.rows, session) then
      e == SeatAlreadyBooked && Taken(w.sales.rows, w.holds.keys.sessions[session].Ref())
    else exists b :: b in w.sales.rows && b.session == session && IsForeign(b, user, e)
  }

  /** The session's booking is another user's, or is not confirmed; neither is ever the case in a run. */
  predicate IsForeign(b: Booking, user: Id, e: Error) {
    if b.user != user then e == OwnershipViolated
    else b.status != Confirmed && (e == SessionAlreadyConfirmed || e == SeatAlreadyBooked)
  }

  /** The booking and one event with its fields are new, and the hold is out of the store. */
  ghost predicate Sells(w: World, v: World, row: Booking, event: Id, hold: Hold) {
    && v.sales.rows == w.sales.rows + [row]
    && |v.sales.outbox| == |w.sales.outbox| + 1 && v.sales.outbox[..|w.sales.outbox|] == w.sales.outbox
    && var e := v.sales.outbox[|w.sales.outbox|];
    && e.id == event && e.booking == row.id && e.session == row.session && e.user == row.user
    && e.screening == row.screening && e.seat == row.seat && e.confirmedAt == row.confirmedAt
    && Holds.GivesBack(w.holds.keys, v.holds.keys, hold)
  }

  /** What a confirm alone does: it sells, replays or refuses, exactly in these cases. */
  ghost predicate Confirms(w: World, v: World, pc: Pc, user: Id, session: Id, g: Choice, c: Choice) {
    && pc.Done?
    && v == w.(minter := v.minter, sales := v.sales, holds := v.holds, checked := v.checked, creator := v.creator)
    && (Sellable(w, user, session, g) ==>
          && pc == Done(Bought(SoldRow(w, session, c), true))
          && Sells(w, v, SoldRow(w, session, c), c.b, w.holds.keys.sessions[session]))
    && (!Sellable(w, user, session, g) ==> v.sales == w.sales && v.holds == w.holds)
    && (forall b :: Replayable(w, user, session, g, b) <==> pc == Done(Bought(b, false)))
    && (pc.out.Bought? || (pc.out.Refused? && ConfirmObstacle(w, user, session, g, pc.out.error)))
  }

  lemma ConfirmAlone(w: World, me: nat, user: Id, session: Id, cs: seq<Choice>)
    requires |cs| >= 5 && Filed(w, session) && Sales.Unique(w.sales.rows)
    ensures var (v, pc) := Serve(w, me, OpConfirm(user, session), cs); Confirms(w, v, pc, user, session, cs[0], cs[3])
  {
    hide Alone, Serve, After, Landing, MoneyIn, NoBookingOf, Taken, Sells, Sales.Unique;
    var op := OpConfirm(user, session);
    var u := GateAlone(w, me, op, session, cs);
    if Live(w, user, session, cs[0]) {
      PaymentAlone(w, u, me, op, cs[0], cs[2..]);
    }
  }

  lemma AloneStep(w: World, me: nat, op: Op, pc: Pc, cs: seq<Choice>)
    requires cs != [] && !pc.Done?
    ensures Alone(w, me, op, pc, cs) ==
            Alone(After(w, me, op, pc, cs[0], Answered), me, op, Landing(w, me, op, pc, cs[0], Answered), cs[1..])
  {
  }

  lemma AloneEnds(w: World, me: nat, op: Op, out: Outcome, cs: seq<Choice>)
    ensures Alone(w, me, op, Done(out), cs) == (w, Done(out))
  {
  }

  /** From the payment gate on. */
  lemma PaymentAlone(w: World, u: World, me: nat, op: Op, g: Choice, cs: seq<Choice>)
    requires op.OpConfirm? && |cs| >= 3 && OnlyReads(w, u) && Filed(w, op.session) && Live(w, op.user, op.session, g)
    requires Sales.Unique(w.sales.rows)
    ensures var (v, pc) := Alone(u, me, op, Gated(ReadBack(w, op.session, g), w.now), cs);
            Confirms(w, v, pc, op.user, op.session, g, cs[1])
  {
    hide Alone, After, Landing, Ledger.HasCaptured, MoneyIn, NoBookingOf, Taken, Sells, Sales.Unique;
    var hold := ReadBack(w, op.session, g);
    var p := Gated(hold, w.now);
    AloneStep(u, me, op, p, cs);
    GateLands(u, me, op, hold, w.now, cs[0], Answered);
    MoneyIsCaptured(w.payments, op.session);
    var u1, p1 := After(u, me, op, p, cs[0], Answered), Landing(u, me, op, p, cs[0], Answered);
    if p1.Paid? {
      SaleAlone(w, u1, me, op, g, cs[1..]);
    } else {
      AloneEnds(u1, me, op, p1.out, cs[1..]);
    }
  }

  /** Whether the commit of this hold succeeds, and what it writes, on plain rows. */
  lemma CommitSells(w: World, hold: Hold, c: Choice)
    ensures var (answer, table) := Sales.Commit(w.sales, Order(hold), c.a, c.b, w.now, c.reported);
            && (answer.Ok? <==> NoBookingOf(w.sales.rows, hold.session) && !Taken(w.sales.rows, hold.Ref()))
            && (answer.Ok? ==>
                  answer.value == Booking(c.a, hold.session, hold.screening, hold.seat, hold.user, Confirmed, w.now))
            && (answer.Err? ==> answer.error in {SessionAlreadyConfirmed, SeatAlreadyBooked} && table == w.sales)
            && (answer == Err(SeatAlreadyBooked) ==> Taken(w.sales.rows, hold.Ref()))
            && (answer == Err(SessionAlreadyConfirmed) ==> !NoBookingOf(w.sales.rows, hold.session))
  {
    hide Sales.Commit, Sales.Insert;
    Sales.CommitDecides(w.sales, Order(hold), c.a, c.b, w.now, c.reported);
    Sales.InsertArbitrates(w.sales.rows, Order(hold), c.a, w.now, c.reported);
  }

  /** From the commit on. */
  lemma SaleAlone(w: World, u: World, me: nat, op: Op, g: Choice, cs: seq<Choice>)
    requires op.OpConfirm? && |cs| >= 2 && OnlyReads(w, u) && Filed(w, op.session) && PaidFor(w, op.user, op.session, g)
    requires Sales.Unique(w.sales.rows)
    ensures var (v, pc) := Alone(u, me, op, Paid(ReadBack(w, op.session, g), w.now), cs);
            Confirms(w, v, pc, op.user, op.session, g, cs[0])
  {
    hide Alone, After, Landing, MoneyIn, NoBookingOf, Taken, Sells, Sales.Unique, Sales.Commit;
    var hold := ReadBack(w, op.session, g);
    var p := Paid(hold, w.now);
    AloneStep(u, me, op, p, cs);
    CommitLands(u, me, op, hold, w.now, cs[0], Answered);
    CommitSells(u, hold, cs[0]);
    var u1, p1 := After(u, me, op, p, cs[0], Answered), Landing(u, me, op, p, cs[0], Answered);
    AloneStep(u1, me, op, p1, cs[1..]);
    var u2, p2 := After(u1, me, op, p1, cs[1], Answered), Landing(u1, me, op, p1, cs[1], Answered);
    if p1.Cleaning? {
      SaleEnds(w, u, u1, me, op, g, cs[0], cs[1]);
    } else {
      RecoveryLands(u1, me, op, p1.error, cs[1], Answered);
      RecoveryEnds(w, u2, p2, op.user, op.session, g, cs[0], p1.error);
    }
    AloneEnds(u2, me, op, p2.out, cs[2..]);
  }

  /** The cleanup after a sale. */
  lemma SaleEnds(w: World, u: World, u1: World, me: nat, op: Op, g: Choice, c: Choice, d: Choice)
    requires op.OpConfirm? && OnlyReads(w, u) && Filed(w, op.session) && Sellable(w, op.user, op.session, g)
    requires var hold := ReadBack(w, op.session, g);
             var (answer, table) := Sales.Commit(u.sales, Order(hold), c.a, c.b, u.now, c.reported);
             && answer == Ok(SoldRow(w, op.session, c))
             && u1 == u.(minter := u1.minter, sales := table, checked := u1.checked, creator := u1.creator)
    ensures var row := SoldRow(w, op.session, c);
            var v, pc := After(u1, me, op, Cleaning(row), d, Answered), Landing(u1, me, op, Cleaning(row), d, Answered);
            Confirms(w, v, pc, op.user, op.session, g, c)
  {
    hide After, Landing, MoneyIn, Taken, Holds.Release, Sales.Commit, Sales.Insert, Holds.GivesBack;
    var row, record := SoldRow(w, op.session, c), w.holds.keys.sessions[op.session];
    Sales.CommitDecides(u.sales, Order(ReadBack(w, op.session, g)), c.a, c.b, u.now, c.reported);
    ReleaseLands(u1, me, op, Cleaning(row), d, Answered);
    Holds.ReleaseDecides(u1.holds.keys, op.session, op.user);
  }

  /** The recovery after a conflict. */
  lemma RecoveryEnds(w: World, v: World, pc: Pc, user: Id, session: Id, g: Choice, c: Choice, conflict: Error)
    requires PaidFor(w, user, session, g) && !Sellable(w, user, session, g) && Sales.Unique(w.sales.rows)
    requires conflict == SessionAlreadyConfirmed || conflict == SeatAlreadyBooked
    requires conflict == SeatAlreadyBooked ==> Taken(w.sales.rows, w.holds.keys.sessions[session].Ref())
    requires conflict == SessionAlreadyConfirmed ==> !NoBookingOf(w.sales.rows, session)
    requires pc == RecoveryAnswered(user, conflict, Sales.GetBySession(w.sales.rows, session))
    requires v == w.(minter := v.minter, checked := v.checked, creator := v.creator)
    ensures Confirms(w, v, pc, user, session, g, c)
  {
    assert session in w.holds.keys.sessions;
    hide Sales.Unique, Sales.GetBySession, NoBookingOf, Taken, MoneyIn, Live, Sells, ReadBack, GateObstacle;
    BookingFound(w.sales.rows, session);
  }

  /** The session's booking, as the lookup finds it. */
  lemma BookingFound(rows: seq<Booking>, session: Id)
    requires Sales.Unique(rows)
    ensures var found := Sales.GetBySession(rows, session);
            && (found.Ok? ==> found.value in rows && found.value.session == session && !NoBookingOf(rows, session))
            && (found.Err? ==> found.error == BookingNotFound && NoBookingOf(rows, session))
            && (forall b :: b in rows && b.session == session ==> found == Ok(b))
  {
    hide Sales.Unique, Sales.GetBySession;
    Sales.LookupsDecide(rows, session, SeatRef("", Seat("", 0)));
    var found := Sales.GetBySession(rows, session);
    if found.Ok? {
      assert found.value in rows && found.value.session == session;
    } else {
      forall b | b in rows ensures b.session != session {
        assert found != Ok(b);
      }
    }
  }

  // ----- release -----

  /** What a release alone does: it gives back the user's own hold, or names why not and changes nothing. */
  ghost predicate Releases(w: World, v: World, pc: Pc, user: Id, session: Id) {
    && v == w.(minter := v.minter, holds := v.holds)
    && if session !in w.holds.keys.sessions then pc == Done(Refused(HoldNotFound)) && v.holds == w.holds
       else if w.holds.keys.sessions[session].user != user then pc == Done(Refused(NotHoldOwner)) && v.holds == w.holds
       else pc == Done(HoldReleased) && Holds.GivesBack(w.holds.keys, v.holds.keys, w.holds.keys.sessions[session])
  }

  lemma ReleaseAlone(w: World, me: nat, user: Id, session: Id, cs: seq<Choice>)
    requires |cs| >= 1 && Filed(w, session)
    ensures var (v, pc) := Serve(w, me, OpRelease(user, session), cs); Releases(w, v, pc, user, session)
  {
    hide Alone, After, Landing, Holds.Release, Holds.GivesBack;
    var op := OpRelease(user, session);
    AloneStep(w, me, op, Start, cs);
    ReleaseLands(w, me, op, Start, cs[0], Answered);
    Holds.ReleaseDecides(w.holds.keys, session, user);
    RefusedReleaseKeeps(w, me, op, cs[0]);
    var u, p := After(w, me, op, Start, cs[0], Answered), Landing(w, me, op, Start, cs[0], Answered);
    AloneEnds(u, me, op, p.out, cs[1..]);
  }

  lemma RefusedReleaseKeeps(w: World, me: nat, op: Op, c: Choice)
    requires op.OpRelease?
    ensures Holds.Release(w.holds.keys, op.session, op.user).0.Err? ==>
              After(w, me, op, Start, c, Answered).holds == w.holds
  {
    hide Holds.Dropped;
  }

  // ----- create intent -----

  /** No row of the session is ongoing: each has failed or been refunded. */
  ghost predicate NothingOngoing(rows: seq<Payment>, session: Id) {
    forall p :: p in rows && p.session == session ==> p.status == Failed || p.status == Refunded
  }

  /** The session's ongoing row, as the lookup finds it. */
  lemma OngoingFound(rows: seq<Payment>, session: Id)
    requires Ledger.Lawful(rows)
    ensures var found := Ledger.GetActive(rows, session);
            && (forall p :: found == Ok(p) <==> Ledger.IsOngoing(rows, session, p))
            && (found.Err? <==> NothingOngoing(rows, session))
            && (found.Err? ==> found.error == PaymentNotFound)
  {
    hide Ledger.Lawful, Ledger.GetActive;
    Ledger.LookupsDecide(rows, session, NoId);
    var found := Ledger.GetActive(rows, session);
    if found.Err? {
      forall p | p in rows && p.session == session ensures p.status == Failed || p.status == Refunded {
        assert found != Ok(p);
      }
    } else {
      assert found == Ok(found.value);
    }
  }

  /** The intent is in no row. */
  ghost predicate NewIntent(rows: seq<Payment>, intent: Id) { forall p :: p in rows ==> p.intent != intent }

  /** When a new intent is recorded: live hold, no ongoing row, a gateway that accepts a positive price. */
  ghost predicate Chargeable(w: World, user: Id, session: Id, g: Choice, c: Choice) {
    && Live(w, user, session, g) && NothingOngoing(w.payments, session)
    && var hold := w.holds.keys.sessions[session];
    && hold.screening in w.screenings && w.screenings[hold.screening].price > 0
    && c.accepts && NewIntent(w.payments, c.a)
  }

  /** Why create-intent is refused. */
  ghost predicate IntentObstacle(w: World, user: Id, session: Id, g: Choice, c: Choice, e: Error) {
    if !Live(w, user, session, g) then GateObstacle(w, user, session, g, e)
    else
      var screening := w.holds.keys.sessions[session].screening;
      NothingOngoing(w.payments, session) &&
      match e
      case ScreeningNotFound => screening !in w.screenings
      case Infra => screening in w.screenings && !c.accepts
      case GatewayRejected => screening in w.screenings && c.accepts && w.screenings[screening].price <= 0
      case DuplicateIntent => !NewIntent(w.payments, c.a)
      case _ => false
  }

  function IntentRow(w: World, session: Id, c: Choice, id: Id): Payment
    requires session in w.holds.keys.sessions && w.holds.keys.sessions[session].screening in w.screenings
  {
    var price := w.screenings[w.holds.keys.sessions[session].screening].price;
    Payment(id, session, "fake", c.a, Intent, price, "usd", w.now, w.now)
  }

  /** What create-intent alone does: it returns the ongoing row, or appends one for the screening's price, or
      refuses, to be paid before the hold expires as read. */
  ghost predicate Intends(w: World, v: World, pc: Pc, user: Id, session: Id, g: Choice, c: Choice, id: Id) {
    && pc.Done? && v == w.(minter := v.minter, payments := v.payments)
    && if Live(w, user, session, g) && !NothingOngoing(w.payments, session) then
         && v.payments == w.payments
         && pc.out.IntentReady? && Ledger.IsOngoing(w.payments, session, pc.out.payment) && !pc.out.created
         && pc.out.payBy == ReadBack(w, session, g).expiresAt
       else if Chargeable(w, user, session, g, c) then
         && v.payments == w.payments + [IntentRow(w, session, c, id)]
         && pc == Done(IntentReady(IntentRow(w, session, c, id), true, ReadBack(w, session, g).expiresAt))
       else v.payments == w.payments && pc.out.Refused? && IntentObstacle(w, user, session, g, c, pc.out.error)
  }

  lemma IntentAlone(w: World, me: nat, user: Id, session: Id, cs: seq<Choice>)
    requires |cs| >= 6 && Ledger.Lawful(w.payments)
    ensures var (v, pc) := Serve(w, me, OpIntent(user, session), cs); Intends(w, v, pc, user, session, cs[0], cs[4],
              cs[5].a)
  {
    hide Alone, Serve, After, Landing, Ledger.GetActive, Ledger.Lawful, NothingOngoing, NewIntent;
    OngoingFound(w.payments, session);
    var op := OpIntent(user, session);
    var u := GateAlone(w, me, op, session, cs);
    if Live(w, user, session, cs[0]) {
      var p := Gated(ReadBack(w, session, cs[0]), w.now);
      AloneStep(u, me, op, p, cs[2..]);
      ActiveLands(u, me, op, p, cs[2], Answered);
      var u1, p1 := After(u, me, op, p, cs[2], Answered), Landing(u, me, op, p, cs[2], Answered);
      if p1.NoIntent? {
        PricingAlone(w, u1, me, op, cs[0], cs[3..]);
      } else {
        AloneEnds(u1, me, op, p1.out, cs[3..]);
      }
    }
  }

  /** From the price lookup on. */
  lemma PricingAlone(w: World, u: World, me: nat, op: Op, g: Choice, cs: seq<Choice>)
    requires op.OpIntent? && |cs| >= 3 && OnlyReads(w, u) && Live(w, op.user, op.session, g)
    requires NothingOngoing(w.payments, op.session)
    ensures var (v, pc) := Alone(u, me, op, NoIntent(ReadBack(w, op.session, g)), cs);
            Intends(w, v, pc, op.user, op.session, g, cs[1], cs[2].a)
  {
    hide Alone, After, Landing, Ledger.Insert, NothingOngoing, NewIntent;
    var p := NoIntent(ReadBack(w, op.session, g));
    AloneStep(u, me, op, p, cs);
    ScreeningLands(u, me, op, p, cs[0], Answered, p.hold.screening);
    var u1, p1 := After(u, me, op, p, cs[0], Answered), Landing(u, me, op, p, cs[0], Answered);
    if p1.Priced? {
      AloneStep(u1, me, op, p1, cs[1..]);
      GatewayLands(u1, me, op, p1.hold, p1.price, cs[1], Answered);
      var u2, p2 := After(u1, me, op, p1, cs[1], Answered), Landing(u1, me, op, p1, cs[1], Answered);
      if p2.IntentMinted? {
        AloneStep(u2, me, op, p2, cs[2..]);
        InsertLands(u2, me, op, p2.hold, p2.price, p2.intent, cs[2], Answered);
        InsertAnswers(w.payments, NewRow(op.session, p2.intent, p2.price), cs[2].a, w.now);
        var u3, p3 := After(u2, me, op, p2, cs[2], Answered), Landing(u2, me, op, p2, cs[2], Answered);
        AloneEnds(u3, me, op, p3.out, cs[3..]);
      } else {
        AloneEnds(u2, me, op, p2.out, cs[2..]);
      }
    } else {
      AloneEnds(u1, me, op, p1.out, cs[1..]);
    }
  }

  /** Without an ongoing row of the session, only a known intent keeps an insert out. */
  lemma InsertAnswers(rows: seq<Payment>, p: Payment, id: Id, now: int)
    requires NothingOngoing(rows, p.session)
    ensures var row := Payment(id, p.session, p.gateway, p.intent, Intent, p.amount, p.currency, now, now);
            Ledger.Insert(rows, p, id, now) ==
            if NewIntent(rows, p.intent) then (Ok(row), rows + [row]) else (Err(DuplicateIntent), rows)
  {
    hide Ledger.Insert;
    Ledger.InsertDecides(rows, p, id, now);
  }

  // ----- client payment -----

  /** What a client's payment alone does: the open row is charged and captured, or declined and failed; a captured one
      is returned; without an ongoing row, or with one that is being refunded, it is refused. */
  ghost predicate Pays(w: World, v: World, pc: Pc, user: Id, session: Id, g: Choice, accepts: bool) {
    && pc.Done? && v == w.(minter := v.minter, payments := v.payments, moved := v.moved, captor := v.captor)
    && (!Live(w, user, session, g) ==>
          v.payments == w.payments && pc.out.Refused? && GateObstacle(w, user, session, g, pc.out.error))
    && (Live(w, user, session, g) && NothingOngoing(w.payments, session) ==>
          v.payments == w.payments && pc == Done(Refused(PaymentNotCaptured)))
    && (Live(w, user, session, g) ==>
          forall i :: 0 <= i < |w.payments| && Ledger.IsOngoing(w.payments, session, w.payments[i]) ==>
            PaysRow(w, v, pc, i, accepts))
  }

  ghost predicate PaysRow(w: World, v: World, pc: Pc, i: nat, accepts: bool)
    requires i < |w.payments|
  {
    match w.payments[i].status
    case Captured => v.payments == w.payments && pc == Done(PaymentMade(w.payments[i], false))
    case Intent | Authorized =>
      var row := w.payments[i].(status := if accepts then Captured else Failed, updatedAt := w.now);
      && v.payments == w.payments[i := row]
      && pc == Done(if accepts then PaymentMade(row, true) else Refused(PaymentDeclined))
    case _ => v.payments == w.payments && pc == Done(Refused(InvalidTransition))
  }

  /** Where the lookup finds the ongoing row. */
  lemma OngoingAt(rows: seq<Payment>, session: Id, i: nat)
    requires Ledger.Lawful(rows) && i < |rows| && Ledger.IsOngoing(rows, session, rows[i])
    ensures Ledger.LastActive(rows, session) == i && !NothingOngoing(rows, session)
  {
    var last := Ledger.LastActive(rows, session);
    assert last == i || i < last;
  }

  lemma PayAlone(w: World, me: nat, user: Id, session: Id, cs: seq<Choice>)
    requires |cs| >= 5 && Ledger.Lawful(w.payments)
    ensures var (v, pc) := Serve(w, me, OpPay(user, session), cs); Pays(w, v, pc, user, session, cs[0], cs[3].accepts)
  {
    hide Alone, Serve, After, Landing, Ledger.Lawful, NothingOngoing, PaysRow;
    var op := OpPay(user, session);
    var u := GateAlone(w, me, op, session, cs);
    if Live(w, user, session, cs[0]) {
      ActiveAlone(w, u, me, op, cs[0], cs[2..]);
    }
  }

  /** From the lookup of the session's ongoing row on. */
  lemma ActiveAlone(w: World, u: World, me: nat, op: Op, g: Choice, cs: seq<Choice>)
    requires op.OpPay? && |cs| >= 3 && OnlyReads(w, u) && Live(w, op.user, op.session, g) && Ledger.Lawful(w.payments)
    ensures var (v, pc) := Alone(u, me, op, Gated(ReadBack(w, op.session, g), w.now), cs);
            Pays(w, v, pc, op.user, op.session, g, cs[1].accepts)
  {
    hide Alone, After, Landing, Ledger.LastActive, Ledger.Lawful, NothingOngoing, Ledger.IsOngoing;
    OngoingFound(w.payments, op.session);
    forall i | 0 <= i < |w.payments| && Ledger.IsOngoing(w.payments, op.session, w.payments[i])
        ensures Ledger.LastActive(w.payments, op.session) == i && !NothingOngoing(w.payments, op.session) {
      OngoingAt(w.payments, op.session, i);
    }
    var p := Gated(ReadBack(w, op.session, g), w.now);
    hide ReadBack, GateObstacle;
    AloneStep(u, me, op, p, cs);
    ActiveLands(u, me, op, p, cs[0], Answered);
    var u1, p1 := After(u, me, op, p, cs[0], Answered), Landing(u, me, op, p, cs[0], Answered);
    if p1.Charging? {
      ChargeAlone(w, u1, me, op, g, cs[1..]);
    } else {
      AloneEnds(u1, me, op, p1.out, cs[1..]);
    }
  }

  /** From the charge on. */
  lemma ChargeAlone(w: World, u: World, me: nat, op: Op, g: Choice, cs: seq<Choice>)
    requires op.OpPay? && |cs| >= 2 && OnlyReads(w, u) && Live(w, op.user, op.session, g) && Ledger.Lawful(w.payments)
    requires Ledger.GetActive(w.payments, op.session).Ok?
    requires Ledger.IsOpen(Ledger.GetActive(w.payments, op.session).value.status)
    ensures var (v, pc) := Alone(u, me, op, Charging(Ledger.GetActive(w.payments, op.session).value), cs);
            Pays(w, v, pc, op.user, op.session, g, cs[0].accepts)
  {
    hide Alone, After, Landing, Ledger.LastActive, Ledger.FindIntent, NothingOngoing, Ledger.IsOngoing;
    OngoingFound(w.payments, op.session);
    forall i | 0 <= i < |w.payments| && Ledger.IsOngoing(w.payments, op.session, w.payments[i])
        ensures Ledger.LastActive(w.payments, op.session) == i {
      OngoingAt(w.payments, op.session, i);
    }
    var row := Ledger.GetActive(w.payments, op.session).value;
    Ledger.FoundAt(w.payments, Ledger.LastActive(w.payments, op.session));
    AloneStep(u, me, op, Charging(row), cs);
    ChargeLands(u, me, op, row, cs[0], Answered);
    var u1, p1 := After(u, me, op, Charging(row), cs[0], Answered), Landing(u, me, op, Charging(row), cs[0], Answered);
    AloneStep(u1, me, op, p1, cs[1..]);
    if p1.Charged? {
      CaptureLands(u1, me, op, p1, row.intent, cs[1], Answered);
    } else {
      FailLands(u1, me, op, p1, row.intent, cs[1], Answered);
    }
    var u2, p2 := After(u1, me, op, p1, cs[1], Answered), Landing(u1, me, op, p1, cs[1], Answered);
    AloneEnds(u2, me, op, p2.out, cs[2..]);
  }

  // ----- webhooks -----

  /** What a verified event alone does to the row it names. Applied is answered exactly if the row moved, or if a
      failed event finds the row failed already. */
  ghost predicate Handles(w: World, v: World, pc: Pc, e: Event) {
    && v == w.(minter := v.minter, payments := v.payments, captor := v.captor)
    && var i := Ledger.FindIntent(w.payments, e.intent);
    if i < 0 then v.payments == w.payments && pc == Done(Acked(false, false))
    else
      var row := w.payments[i];
      var pays := e.kind == CapturedKind && e.amount == row.amount;
      if (row.status == Intent || row.status == Authorized) && e.kind != OtherKind then
        && v.payments == w.payments[i := row.(status := if pays then Captured else Failed, updatedAt := w.now)]
        && pc == Done(Acked(pays || e.kind == FailedKind, true))
      else
        v.payments == w.payments && pc == Done(Acked(e.kind == FailedKind && row.status == Failed, true))
  }

  lemma HookAlone(w: World, me: nat, e: Event, cs: seq<Choice>)
    requires |cs| >= 2
    ensures var (v, pc) := Serve(w, me, OpHook(e), cs); Handles(w, v, pc, e)
  {
    hide Alone, After, Landing, Ledger.FindIntent;
    var op := OpHook(e);
    AloneStep(w, me, op, Start, cs);
    EventLands(w, me, op, cs[0], Answered);
    var u, p := After(w, me, op, Start, cs[0], Answered), Landing(w, me, op, Start, cs[0], Answered);
    if p.Matched? {
      MatchedAlone(w, u, me, op, cs[1..]);
    } else {
      AloneEnds(u, me, op, p.out, cs[1..]);
    }
  }

  lemma MatchedAlone(w: World, u: World, me: nat, op: Op, cs: seq<Choice>)
    requires op.OpHook? && |cs| >= 1 && OnlyReads(w, u) && Ledger.Has(w.payments, op.event.intent)
    ensures var (v, pc) := Alone(u, me, op, Matched(w.payments[Ledger.FindIntent(w.payments, op.event.intent)]), cs);
            Handles(w, v, pc, op.event)
  {
    hide Alone, After, Landing, Ledger.FindIntent;
    var row := w.payments[Ledger.FindIntent(w.payments, op.event.intent)];
    AloneStep(u, me, op, Matched(row), cs);
    if op.event.kind == CapturedKind && op.event.amount == row.amount {
      CaptureLands(u, me, op, Matched(row), row.intent, cs[0], Answered);
    } else if op.event.kind == OtherKind {
      OtherLands(u, me, op, row, cs[0]);
    } else {
      FailLands(u, me, op, Matched(row), row.intent, cs[0], Answered);
    }
    var u1, p1 := After(u, me, op, Matched(row), cs[0], Answered), Landing(u, me, op, Matched(row), cs[0], Answered);
    AloneEnds(u1, me, op, p1.out, cs[1..]);
  }

  // ----- a purchase from hold to booking -----

  lemma FloorIsAhead(now: int, ttl: int)
    requires ttl >= SECOND
    ensures now < (now + ttl) / SECOND * SECOND
  {
  }

  /** The step from a granted hold to an intent of the screening's price. */
  lemma HeldThenIntended(w: World, me: nat, hold: Hold, cs: seq<Choice>)
    requires |cs| >= 6 && cs[4].accepts && NewIntent(w.payments, cs[4].a) && Ledger.Lawful(w.payments)
    requires hold.session in w.holds.keys.sessions && w.holds.keys.sessions[hold.session] == hold
    requires w.now + SECOND <= hold.expiresAt
    requires hold.screening in w.screenings && w.screenings[hold.screening].price > 0
    requires forall k :: 0 <= k < |w.payments| ==> w.payments[k].session != hold.session
    ensures var (v, pc) := Serve(w, me, OpIntent(hold.user, hold.session), cs);
            var row := IntentRow(w, hold.session, cs[4], cs[5].a);
            && v == w.(minter := v.minter, payments := w.payments + [row])
            && pc.Done? && pc.out.IntentReady? && pc.out.payment == row
  {
    hide Serve, IntentRow, NewIntent, Ledger.Lawful;
    FloorIsAhead(w.now, hold.expiresAt - w.now);
    assert Chargeable(w, hold.user, hold.session, cs[0], cs[4]);
    IntentAlone(w, me, hold.user, hold.session, cs);
  }

  /** The step from a fresh intent to a captured row. */
  lemma IntendedThenPaid(w: World, me: nat, hold: Hold, cs: seq<Choice>)
    requires |cs| >= 5 && cs[3].accepts && Ledger.Lawful(w.payments)
    requires hold.session in w.holds.keys.sessions && w.holds.keys.sessions[hold.session] == hold
    requires w.now + SECOND <= hold.expiresAt
    requires |w.payments| > 0
    requires var last := w.payments[|w.payments| - 1]; last.session == hold.session && last.status == Intent
    ensures var (v, pc) := Serve(w, me, OpPay(hold.user, hold.session), cs);
            var row := w.payments[|w.payments| - 1].(status := Captured, updatedAt := w.now);
            && v == w.(minter := v.minter, payments := w.payments[|w.payments| - 1 := row], moved := v.moved,
               captor := v.captor)
            && pc == Done(PaymentMade(row, true)) && Ledger.HasCaptured(v.payments, hold.session)
  {
    hide Serve, Ledger.Lawful;
    FloorIsAhead(w.now, hold.expiresAt - w.now);
    var last := |w.payments| - 1;
    assert Ledger.IsOngoing(w.payments, hold.session, w.payments[last]);
    PayAlone(w, me, hold.user, hold.session, cs);
    var v := Serve(w, me, OpPay(hold.user, hold.session), cs).0;
    assert v.payments[last].session == hold.session && v.payments[last].status == Captured;
  }
}
