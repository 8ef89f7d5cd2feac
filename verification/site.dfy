/** One deployment: the stores as objects, the clock, the screenings, and the run of the protocol they have been
    through. Every port call of a use case is a method here; other requests act before each of them. */
module Sites {
  import opened Domain
  import opened Protocol
  import opened ProtocolFacts
  import opened ProtocolRuns
  import opened ProtocolTheorems
  import opened Landings
  import Holds
  import Ledger
  import Sales
  import BookingRepos
  import PaymentRepos
  import RedisHoldStores
  import SeatKeys

  /** Some step of the run is a call of request me, over this network. */
  ghost predicate Called(run: seq<State>, me: nat, net: Net) {
    exists i, c :: 0 <= i < |run| - 1 && Enabled(run[i], Act(me, c, net)) && run[i + 1] == Take(run[i], Act(me, c, net))
  }

  /** Some call of request me was not answered. */
  ghost predicate Troubled(run: seq<State>, me: nat) { Called(run, me, Dropped) || Called(run, me, ReplyLost) }

  lemma CallAdded(run: seq<State>, me: nat, c: Choice, net: Net)
    requires run != [] && Enabled(Last(run), Act(me, c, net))
    ensures Called(run + [Take(Last(run), Act(me, c, net))], me, net)
  {
    hide Enabled, Take;
    var longer := run + [Take(Last(run), Act(me, c, net))];
    assert longer[|run| - 1] == Last(run) && longer[|run| - 1 + 1] == Take(Last(run), Act(me, c, net));
  }

  lemma CalledStays(run: seq<State>, longer: seq<State>, me: nat, net: Net)
    requires run <= longer && Called(run, me, net)
    ensures Called(longer, me, net)
  {
    hide Enabled, Take;
    var i, c :| 0 <= i < |run| - 1 && Enabled(run[i], Act(me, c, net)) && run[i + 1] == Take(run[i], Act(me, c, net));
    assert longer[i] == run[i] && longer[i + 1] == run[i + 1];
  }

  class Site {
    const holds: RedisHoldStores.HoldStore
    const bookings: BookingRepos.BookingRepo
    const payments: PaymentRepos.PaymentRepo
    const ttl: int
    var screenings: map<string, Screening>
    var clock: int
    var nextId: nat
    ghost var run: seq<State>

    /** The objects hold what the last state of a run of the protocol says. */
    ghost predicate Valid()
      reads this, holds, bookings, payments
    {
      run != [] && Run(run) && Fits(Last(run).w) && Below(Last(run).w.minter, nextId)
    }

    ghost predicate Fits(w: World)
      reads this, holds, bookings, payments
    {
      && holds.Mirrors(w.holds.keys) && holds.maxHolds == w.max
      && bookings.table == w.sales && payments.rows == w.payments
      && screenings == w.screenings && clock == w.now && ttl == w.ttl
    }

    constructor (maxHolds: int, ttl: int, screenings: map<string, Screening>, clock: int)
      ensures Valid() && fresh(holds) && fresh(bookings) && fresh(payments)
      ensures |run| == 1 && Last(run).reqs == map[]
    {
      holds := new RedisHoldStores.HoldStore(maxHolds);
      bookings := new BookingRepos.BookingRepo(Sales.Table([], []));
      payments := new PaymentRepos.PaymentRepo([]);
      this.ttl := ttl;
      this.screenings := screenings;
      this.clock := clock;
      nextId := 0;
      var prices := set x | x in screenings :: (x, screenings[x].price);
      run := [State(World(clock, maxHolds, ttl, screenings, Holds.Empty(), Sales.Table([], []), [], map[],
                          prices, {}, map[], map[], map[]), map[])];
    }

    // ----- the surroundings of a call -----

    /** A new request arrives. */
    ghost method Receive(op: Op) returns (me: nat)
      requires Valid()
      modifies this`run
      ensures Valid() && old(run) <= run && me !in old(Last(run).reqs) && At(run, me, op, Start)
    {
      me := UnusedRequest(Last(run).reqs.Keys);
      RunGrows(run, Arrive(me, op));
      run := run + [Take(Last(run), Arrive(me, op))];
    }

    /** Whether a port call is answered, fails, or takes effect with its reply lost. */
    method Network() returns (net: Net) {
      net := *;
    }

    /** Whatever happens while request me waits: any steps of other requests, of the clock, of vanishing keys.
        Callers know the contract only; doing nothing is one way to meet it. */
    method Interfere(ghost me: nat, ghost op: Op, ghost pc: Pc)
      requires Valid() && At(run, me, op, pc)
      modifies this, holds, bookings, payments
      ensures Valid() && old(run) <= run && At(run, me, op, pc)
    {
    }

    /** The turn of request me: others have acted, two identifiers are minted that name nothing yet. */
    method Await(ghost me: nat, ghost op: Op, ghost pc: Pc) returns (c: Choice)
      requires Valid() && At(run, me, op, pc)
      modifies this, holds, bookings, payments
      ensures Valid() && old(run) <= run && At(run, me, op, pc)
      ensures c.a == Id(nextId) && c.b == Id(nextId + 1) && c.redis
    {
      hide Run, At;
      Interfere(me, op, pc);
      var accepts: bool, reported: Sales.Index := *, *;
      c := Choice(Id(nextId), Id(nextId + 1), true, accepts, reported);
    }

    /** The step of request me goes into the record; the objects have been brought to where it leads. */
    method Settle(ghost me: nat, ghost op: Op, ghost pc: Pc, ghost c: Choice, ghost net: Net)
      requires run != [] && Run(run) && At(run, me, op, pc) && !pc.Done? && (net.Answered? || CallsPort(pc))
      requires c.a == Id(nextId) && c.b == Id(nextId + 1) && Below(Last(run).w.minter, nextId)
      requires Fits(After(Last(run).w, me, op, pc, c, net))
      modifies this`run, this`nextId
      ensures Valid() && old(run) <= run && Called(run, me, net)
      ensures At(run, me, op, Landing(old(Last(run).w), me, op, pc, c, net))
    {
      hide Run, Exec, OnError, CallsPort, Take, Enabled, Landing, After, Below, Called;
      ActLands(run, me, op, pc, c, net, nextId);
      CallAdded(run, me, c, net);
      run := run + [Take(Last(run), Act(me, c, net))];
      nextId := nextId + 2;
    }

    // ----- the hold store -----

    method GetHold(ghost me: nat, ghost op: Op, session: Id, net: Net) returns (r: Result<Hold>)
      requires Valid() && At(run, me, op, Start) && ReadsHold(op, session)
      modifies this, holds, bookings, payments
      ensures Valid() && old(run) <= run && Called(run, me, net)
      ensures r == Err(Infra) ==> !net.Answered? && Troubled(run, me)
      ensures At(run, me, op, match r case Ok(hold) => Read(hold) case Err(e) => Refuse(e))
    {
      hide Run, Exec, Called, At, Last, Landing, After;
      var c := Await(me, op, Start);
      ghost var w := Last(run).w;
      if net.Answered? {
        r := holds.Get(session, w.holds.keys);
      } else {
        r := Err(Infra);
      }
      RecordsAreFiled(run, session);
      GetLands(w, me, op, session, c, net);
      Settle(me, op, Start, c, net);
    }

    method ClaimHold(ghost me: nat, ghost op: Op, hold: Hold, net: Net) returns (r: Result<()>)
      requires Valid() && At(run, me, op, Claiming(hold)) && op.OpHold?
      requires ProperSeat(hold.seat)
      modifies this, holds, bookings, payments
      ensures Valid() && old(run) <= run && Called(run, me, net)
      ensures r == Err(Infra) ==> !net.Answered? && Troubled(run, me)
      ensures At(run, me, op, ClaimAnswered(hold, r))
    {
      hide Run, Exec, Called, At, Last, Mint, Landing, After, Holds.Claim, ClaimAnswered, RedisHoldStores.IsCeiling,
           ProperSeat, StoreClaim;
      var c := Await(me, op, Claiming(hold));
      ghost var w := Last(run).w;
      r := Err(Infra);
      if !net.Dropped? {
        var answer, ttl := holds.Hold(hold, clock, clock, RedisHoldStores.Seconds(hold.expiresAt - clock),
            w.holds.keys);
        if net.Answered? {
          r := answer;
        }
      }
      ClaimAnswers(w, hold, c);
      ClaimLands(w, me, op, hold, c, net);
      Settle(me, op, Claiming(hold), c, net);
    }

    method ReleaseHold(ghost me: nat, ghost op: Op, ghost pc: Pc, session: Id, user: Id, net: Net)
      returns (r: Result<()>)
      requires Valid() && At(run, me, op, pc) && GivesUp(op, pc) && op.session == session && op.user == user
      modifies this, holds, bookings, payments
      ensures Valid() && old(run) <= run && Called(run, me, net)
      ensures r == Err(Infra) ==> !net.Answered? && Troubled(run, me)
      ensures At(run, me, op, ReleaseAnswered(pc, r))
    {
      hide Run, Exec, Called, At, Last, Mint, Landing, After, Holds.Release, Holds.Dropped, ReleaseAnswered;
      var c := Await(me, op, pc);
      ghost var w := Last(run).w;
      r := Err(Infra);
      if !net.Dropped? {
        var answer := holds.Release(session, user, w.holds.keys);
        if net.Answered? {
          r := answer;
        }
      }
      ReleaseAnswers(w, session, user);
      ReleaseLands(w, me, op, pc, c, net);
      Settle(me, op, pc, c, net);
    }

    method HeldSeatsOf(ghost me: nat, ghost op: Op, ghost booked: set<Seat>, screening: string, net: Net)
      returns (r: Result<seq<Seat>>)
      requires Valid() && At(run, me, op, Sold(booked)) && op == OpMap(screening)
      modifies this, holds, bookings, payments
      ensures Valid() && old(run) <= run && Called(run, me, net)
      ensures r == Err(Infra) ==> !net.Answered? && Troubled(run, me)
      ensures At(run, me, op, if r.Ok? then Done(MapShown(booked, Elements(r.value))) else Refuse(r.error))
    {
      hide Run, Exec, Called, At, Last, Mint, Landing, After;
      var c := Await(me, op, Sold(booked));
      ghost var w := Last(run).w;
      r := Err(Infra);
      if net.Answered? {
        var scanned := holds.Scan(screening);
        var held := HeldAtOnce(screening, scanned, w.holds.keys);
        r := Ok(held);
        HeldElements(w.holds.keys, screening, held);
      }
      HeldLands(w, me, op, booked, c, net);
      Settle(me, op, Sold(booked), c, net);
    }

    /** The walk in one batch: no key comes or goes meanwhile. */
    method HeldAtOnce(screening: string, scanned: seq<string>, ghost keys: Holds.Keys) returns (held: seq<Seat>)
      requires holds.Mirrors(keys)
      requires forall k :: k in scanned ==> k in holds.seatKeys
      requires forall k :: k in holds.seatKeys && SeatKeys.SEAT_PREFIX + screening + ":" <= k ==> k in scanned
      ensures forall seat :: seat in held <==> SeatRef(screening, seat) in keys.seats
    {
      hide RedisHoldStores.SeatsMirror;
      assert forall k :: RedisHoldStores.Stays([holds.seatKeys], k) ==>
          [holds.seatKeys][0] == holds.seatKeys && k in holds.seatKeys;
      forall k | k in scanned ensures RedisHoldStores.Returned([scanned], k) {
        assert [scanned][0] == scanned;
      }
      held := holds.HeldSeats(screening, [scanned], [holds.seatKeys], [keys.seats]);
      assert [keys.seats][0] == keys.seats;
    }

    // ----- the catalogue, the clock and new identifiers -----

    method GetScreening(ghost me: nat, ghost op: Op, ghost pc: Pc, id: string, net: Net) returns (r: Result<Screening>)
      requires Valid() && At(run, me, op, pc) && ReadsScreening(op, pc, id)
      modifies this, holds, bookings, payments
      ensures Valid() && old(run) <= run && Called(run, me, net)
      ensures r == Err(Infra) ==> !net.Answered? && Troubled(run, me)
      ensures At(run, me, op, ScreeningAnswered(op, pc, r))
      ensures r.Ok? ==> id in screenings && screenings[id] == r.value
    {
      hide Run, Exec, Called, At, Last, Mint, Landing, After;
      var c := Await(me, op, pc);
      ghost var w := Last(run).w;
      r := if net.Answered? then FindScreening(screenings, id) else Err(Infra);
      ScreeningLands(w, me, op, pc, c, net, id);
      Settle(me, op, pc, c, net);
    }

    /** The clock, and identifiers for a session and its token. */
    method NewHold(ghost me: nat, ghost op: Op) returns (session: Id, token: Id, now: int)
      requires Valid() && At(run, me, op, Unsold) && op.OpHold?
      modifies this, holds, bookings, payments
      ensures Valid() && old(run) <= run && Called(run, me, Answered)
      ensures var hold := HoldOf(op, session, token, now + ttl);
              At(run, me, op, if hold.Validates(now) then Claiming(hold) else Refuse(InvalidHold))
    {
      hide Run, Exec, Called, At, Last, Mint, Landing, After, HoldOf, RedisHoldStores.HoldStore.Mirrors;
      var c := Await(me, op, Unsold);
      ghost var w := Last(run).w;
      session, token, now := c.a, c.b, clock;
      MintLands(w, me, op, c);
      Settle(me, op, Unsold, c, Answered);
    }

    method ReadClock(ghost me: nat, ghost op: Op, ghost hold: Hold) returns (now: int)
      requires Valid() && At(run, me, op, Read(hold)) && (op.OpConfirm? || op.OpIntent? || op.OpPay?)
      modifies this, holds, bookings, payments
      ensures Valid() && old(run) <= run && Called(run, me, Answered)
      ensures At(run, me, op, Checked(now, op.user, hold))
    {
      hide Run, Exec, Called, At, Last, Mint, Landing, After;
      var c := Await(me, op, Read(hold));
      ghost var w := Last(run).w;
      now := clock;
      ClockLands(w, me, op, hold, c);
      Settle(me, op, Read(hold), c, Answered);
    }

    // ----- bookings -----

    method SeatConfirmed(ghost me: nat, ghost op: Op, ref: SeatRef, net: Net) returns (r: Result<bool>)
      requires Valid() && At(run, me, op, InGrid) && op.OpHold? && ref == SeatRef(op.screening, op.seat)
      modifies this, holds, bookings, payments
      ensures Valid() && old(run) <= run && Called(run, me, net)
      ensures r == Err(Infra) ==> !net.Answered? && Troubled(run, me)
      ensures At(run, me, op, SeatAnswered(r))
    {
      hide Run, Exec, Called, At, Last, Mint, Landing, After;
      var c := Await(me, op, InGrid);
      ghost var w := Last(run).w;
      r := Err(Infra);
      if net.Answered? {
        var confirmed := bookings.SeatConfirmed(ref);
        r := Ok(confirmed);
      }
      SeatLands(w, me, op, c, net);
      Settle(me, op, InGrid, c, net);
    }

    method ConfirmedSeats(ghost me: nat, ghost op: Op, screening: string, net: Net) returns (r: Result<seq<Seat>>)
      requires Valid() && At(run, me, op, OnGrid) && op == OpMap(screening)
      modifies this, holds, bookings, payments
      ensures Valid() && old(run) <= run && Called(run, me, net)
      ensures r == Err(Infra) ==> !net.Answered? && Troubled(run, me)
      ensures At(run, me, op, if r.Ok? then Sold(Elements(r.value)) else Refuse(r.error))
    {
      hide Run, Exec, Called, At, Last, Mint, Landing, After;
      var c := Await(me, op, OnGrid);
      ghost var w := Last(run).w;
      r := Err(Infra);
      if net.Answered? {
        var seats := bookings.ConfirmedSeats(screening);
        r := Ok(seats);
        assert Elements(seats) == Sales.ConfirmedSeats(w.sales.rows, screening);
      }
      MapLands(w, me, op, c, net);
      Settle(me, op, OnGrid, c, net);
    }

    method Confirm(ghost me: nat, ghost op: Op, ghost hold: Hold, ghost at: int, b: Booking, net: Net)
      returns (r: Result<Booking>)
      requires Valid() && At(run, me, op, Paid(hold, at)) && op.OpConfirm? && b == Order(hold)
      modifies this, holds, bookings, payments
      ensures Valid() && old(run) <= run && Called(run, me, net)
      ensures r == Err(Infra) ==> !net.Answered? && Troubled(run, me)
      ensures At(run, me, op, CommitAnswered(r))
    {
      hide Run, Exec, Called, At, Last, Mint, Landing, After, Sales.Commit, Sales.EventOf, CommitAnswered, Order;
      var c := Await(me, op, Paid(hold, at));
      ghost var w := Last(run).w;
      var ending := if net.Dropped? then BookingRepos.CommitFails else BookingRepos.Commits;
      var answer := bookings.Confirm(b, c.a, c.b, clock, c.reported, ending);
      r := if net.Answered? then answer else Err(Infra);
      CommitAnswers(w.sales, b, c.a, c.b, w.now, c.reported);
      CommitLands(w, me, op, hold, at, c, net);
      Settle(me, op, Paid(hold, at), c, net);
    }

    method GetBySession(ghost me: nat, ghost op: Op, ghost conflict: Error, session: Id, net: Net)
      returns (r: Result<Booking>)
      requires Valid() && At(run, me, op, Conflicted(conflict)) && op.OpConfirm? && op.session == session
      modifies this, holds, bookings, payments
      ensures Valid() && old(run) <= run && Called(run, me, net)
      ensures r == Err(Infra) ==> !net.Answered? && Troubled(run, me)
      ensures At(run, me, op, RecoveryAnswered(op.user, conflict, r))
    {
      hide Run, Exec, Called, At, Last, Mint, Landing, After;
      var c := Await(me, op, Conflicted(conflict));
      ghost var w := Last(run).w;
      r := Err(Infra);
      if net.Answered? {
        LastIsLawful(run);
        r := bookings.GetBySession(session);
      }
      RecoveryLands(w, me, op, conflict, c, net);
      Settle(me, op, Conflicted(conflict), c, net);
    }

    // ----- payments -----

    method HasCapturedPayment(ghost me: nat, ghost op: Op, ghost hold: Hold, ghost at: int, session: Id, net: Net)
      returns (r: Result<bool>)
      requires Valid() && At(run, me, op, Gated(hold, at)) && op.OpConfirm? && op.session == session
      modifies this, holds, bookings, payments
      ensures Valid() && old(run) <= run && Called(run, me, net)
      ensures r == Err(Infra) ==> !net.Answered? && Troubled(run, me)
      ensures At(run, me, op, GateAnswered(hold, at, r))
    {
      hide Run, Exec, Called, At, Last, Mint, Landing, After;
      var c := Await(me, op, Gated(hold, at));
      ghost var w := Last(run).w;
      r := Err(Infra);
      if net.Answered? {
        var captured := payments.HasCapturedPayment(session);
        r := Ok(captured);
      }
      GateLands(w, me, op, hold, at, c, net);
      Settle(me, op, Gated(hold, at), c, net);
    }

    method GetActive(ghost me: nat, ghost op: Op, ghost pc: Pc, session: Id, net: Net) returns (r: Result<Payment>)
      requires Valid() && At(run, me, op, pc) && ReadsActive(op, pc) && op.session == session
      modifies this, holds, bookings, payments
      ensures Valid() && old(run) <= run && Called(run, me, net)
      ensures r == Err(Infra) ==> !net.Answered? && Troubled(run, me)
      ensures At(run, me, op, ActiveAnswered(op, pc, r))
    {
      hide Run, Exec, Called, At, Last, Mint, Landing, After;
      var c := Await(me, op, pc);
      ghost var w := Last(run).w;
      r := Err(Infra);
      if net.Answered? {
        LastIsLawful(run);
        r := payments.GetActiveBySession(session);
      }
      ActiveLands(w, me, op, pc, c, net);
      Settle(me, op, pc, c, net);
    }

    /** The gateway mints an intent. */
    method CreateIntent(ghost me: nat, ghost op: Op, ghost hold: Hold, price: int, net: Net) returns (r: Result<Id>)
      requires Valid() && At(run, me, op, Priced(hold, price)) && op.OpIntent?
      modifies this, holds, bookings, payments
      ensures Valid() && old(run) <= run && Called(run, me, net)
      ensures At(run, me, op, MintedAnswered(hold, price, r))
    {
      hide Run, Exec, Called, At, Last, Mint, Landing, After;
      var c := Await(me, op, Priced(hold, price));
      ghost var w := Last(run).w;
      r := if net.Answered? then GatewayIntent(price, c.accepts, c.a) else Err(Infra);
      GatewayLands(w, me, op, hold, price, c, net);
      Settle(me, op, Priced(hold, price), c, net);
    }

    method InsertIntent(ghost me: nat, ghost op: Op, ghost hold: Hold, p: Payment, net: Net)
      returns (r: Result<Payment>)
      requires Valid() && At(run, me, op, IntentMinted(hold, p.amount, p.intent)) && op.OpIntent?
      requires p == NewRow(op.session, p.intent, p.amount)
      modifies this, holds, bookings, payments
      ensures Valid() && old(run) <= run && Called(run, me, net)
      ensures r == Err(Infra) ==> !net.Answered? && Troubled(run, me)
      ensures At(run, me, op, InsertAnswered(hold, r))
    {
      hide Run, Exec, Called, At, Last, Mint, Landing, After, Ledger.Insert, Ledger.FirstClash, InsertAnswered;
      var c := Await(me, op, IntentMinted(hold, p.amount, p.intent));
      ghost var w := Last(run).w;
      IntentIsNew(run, me, op, hold, p.amount, p.intent);
      r := Err(Infra);
      if !net.Dropped? {
        var answer := payments.InsertIntent(p, c.a, clock, c.reported.SessionIndex?);
        if net.Answered? {
          r := answer;
        }
      }
      InsertLands(w, me, op, hold, p.amount, p.intent, c, net);
      Settle(me, op, IntentMinted(hold, p.amount, p.intent), c, net);
    }

    /** The gateway moves the money, or declines. */
    method CaptureIntent(ghost me: nat, ghost op: Op, row: Payment, net: Net) returns (r: Result<()>)
      requires Valid() && At(run, me, op, Charging(row)) && op.OpPay?
      modifies this, holds, bookings, payments
      ensures Valid() && old(run) <= run && Called(run, me, net)
      ensures At(run, me, op, if r.Ok? then Charged(row.intent) else Declined(row.intent))
    {
      hide Run, Exec, Called, At, Last, Mint, Landing, After;
      var c := Await(me, op, Charging(row));
      ghost var w := Last(run).w;
      r := if net.Answered? && c.accepts then Ok(()) else Err(Infra);
      ChargeLands(w, me, op, row, c, net);
      Settle(me, op, Charging(row), c, net);
    }

    /** The SELECT after an UPDATE that matched nothing: others act first, yet the row found is the one of before. */
    method SelectAgain(ghost me: nat, ghost op: Op, ghost pc: Pc, intent: Id) returns (r: Result<Payment>)
      requires Valid() && At(run, me, op, pc)
      requires Ledger.Has(payments.rows, intent) && !PaymentRepos.Matches(payments.rows, intent)
      modifies this, holds, bookings, payments
      ensures Valid() && old(run) <= run && At(run, me, op, pc)
      ensures r == Ledger.GetByIntent(old(payments.rows), intent)
      ensures forall net :: old(Called(run, me, net)) ==> Called(run, me, net)
    {
      hide Run, Called, At, Ledger.Has, Ledger.FindIntent, PaymentRepos.Matches, RedisHoldStores.HoldStore.Mirrors;
      ghost var before := run;
      Interfere(me, op, pc);
      forall net | Called(before, me, net) ensures Called(run, me, net) {
        CalledStays(before, run, me, net);
      }
      MissedRowStands(before, run, intent);
      LastIsLawful(run);
      hide Last;
      r := payments.GetRowByIntent(intent);
    }

    /** The repository's two statements: the guarded UPDATE is the step, and if it matches nothing, others act before
        the SELECT that classifies. */
    method Capture(ghost me: nat, ghost op: Op, ghost pc: Pc, intent: Id, net: Net) returns (r: Result<(Payment, bool)>)
      requires Valid() && At(run, me, op, pc) && Captures(op, pc, intent)
      modifies this, holds, bookings, payments
      ensures Valid() && old(run) <= run && Called(run, me, net)
      ensures r.Err? ==> r.error == InvalidTransition || (r.error == Infra && !net.Answered? && Troubled(run, me))
      ensures At(run, me, op, CaptureAnswered(op, r))
    {
      hide Run, Exec, Called, At, Last, Mint, Landing, After, Ledger.Capture, Ledger.MarkFailed, Ledger.FindIntent,
           CaptureAnswered,
           PaymentRepos.Matches, PaymentRepos.UpdateOpen,
           RedisHoldStores.HoldStore.Mirrors;
      var c := Await(me, op, pc);
      ghost var w := Last(run).w;
      TargetHasRow(run, me, op, pc, intent);
      CaptureLands(w, me, op, pc, intent, c, net);
      if net.Dropped? {
        Settle(me, op, pc, c, net);
        return Err(Infra);
      }
      PaymentRepos.UpdateIsCapture(w.payments, intent, w.now);
      var hit := payments.RunUpdate(intent, Captured, clock);
      Settle(me, op, pc, c, net);
      if hit.Some? {
        r := Ok((hit.value, true));
      } else {
        var current := SelectAgain(me, op, Landing(w, me, op, pc, c, net), intent);
        r := PaymentRepos.CaptureSelected(current);
      }
      if !net.Answered? {
        r := Err(Infra);
      }
    }

    /** The repository's two statements: the guarded UPDATE is the step, and if it matches nothing, others act before
        the SELECT that classifies. */
    method MarkFailed(ghost me: nat, ghost op: Op, ghost pc: Pc, intent: Id, net: Net) returns (r: Result<Payment>)
      requires Valid() && At(run, me, op, pc) && Fails(op, pc, intent)
      modifies this, holds, bookings, payments
      ensures Valid() && old(run) <= run && Called(run, me, net)
      ensures r.Err? ==> r.error == InvalidTransition || (r.error == Infra && !net.Answered? && Troubled(run, me))
      ensures At(run, me, op, FailAnswered(op, r))
    {
      hide Run, Exec, Called, At, Last, Mint, Landing, After, Ledger.Capture, Ledger.MarkFailed, Ledger.FindIntent,
           FailAnswered,
           PaymentRepos.Matches, PaymentRepos.UpdateOpen,
           RedisHoldStores.HoldStore.Mirrors;
      var c := Await(me, op, pc);
      ghost var w := Last(run).w;
      TargetHasRow(run, me, op, pc, intent);
      FailLands(w, me, op, pc, intent, c, net);
      if net.Dropped? {
        Settle(me, op, pc, c, net);
        return Err(Infra);
      }
      PaymentRepos.UpdateIsFailure(w.payments, intent, w.now);
      var hit := payments.RunUpdate(intent, Failed, clock);
      Settle(me, op, pc, c, net);
      if hit.Some? {
        r := Ok(hit.value);
      } else {
        var current := SelectAgain(me, op, Landing(w, me, op, pc, c, net), intent);
        r := PaymentRepos.FailureSelected(current);
      }
      if !net.Answered? {
        r := Err(Infra);
      }
    }

    method GetByIntent(ghost me: nat, ghost op: Op, intent: Id, net: Net) returns (r: Result<Payment>)
      requires Valid() && At(run, me, op, Start) && op.OpHook? && op.event.intent == intent
      modifies this, holds, bookings, payments
      ensures Valid() && old(run) <= run && Called(run, me, net)
      ensures r.Err? ==> r.error == PaymentNotFound || (r.error == Infra && !net.Answered? && Troubled(run, me))
      ensures At(run, me, op, EventAnswered(r))
    {
      hide Run, Exec, Called, At, Last, Mint, Landing, After, Ledger.FindIntent, EventAnswered;
      var c := Await(me, op, Start);
      ghost var w := Last(run).w;
      r := Err(Infra);
      if net.Answered? {
        LastIsLawful(run);
        r := payments.GetRowByIntent(intent);
      }
      EventLands(w, me, op, c, net);
      Settle(me, op, Start, c, net);
    }

    /** An event of a kind nobody handles needs no call; the request just ends. */
    method IgnoreEvent(ghost me: nat, ghost op: Op, ghost row: Payment)
      requires Valid() && At(run, me, op, Matched(row)) && op.OpHook? && op.event.kind == OtherKind
      modifies this, holds, bookings, payments
      ensures Valid() && old(run) <= run && Called(run, me, Answered)
      ensures At(run, me, op, Done(Acked(false, true)))
    {
      hide Run, Exec, Called, At, Last, Mint, Landing, After;
      var c := Await(me, op, Matched(row));
      ghost var w := Last(run).w;
      OtherLands(w, me, op, row, c);
      Settle(me, op, Matched(row), c, Answered);
    }
  }

  function Elements(seats: seq<Seat>): set<Seat> { set seat | seat in seats }

  lemma HeldElements(keys: Holds.Keys, screening: string, held: seq<Seat>)
    requires forall seat :: seat in held <==> SeatRef(screening, seat) in keys.seats
    ensures Elements(held) == HeldSeats(keys, screening)
  {
    forall seat | seat in held ensures seat in HeldSeats(keys, screening) {
      var r := SeatRef(screening, seat);
      assert r in keys.seats && r.screening == screening && r.seat == seat;
    }
  }

  lemma LastIsLawful(run: seq<State>)
    requires run != [] && Run(run)
    ensures Ledger.Lawful(Last(run).w.payments) && Sales.Unique(Last(run).w.sales.rows)
  {
    RunInv(run, |run| - 1);
    assert WorldOk(Last(run).w) && SalesOk(Last(run).w);
  }

  /** The intent about to be captured or failed has a row. */
  lemma TargetHasRow(run: seq<State>, me: nat, op: Op, pc: Pc, intent: Id)
    requires run != [] && Run(run) && At(run, me, op, pc) && (Captures(op, pc, intent) || Fails(op, pc, intent))
    ensures Ledger.Lawful(Last(run).w.payments) && Ledger.Has(Last(run).w.payments, intent)
  {
    LastIsLawful(run);
    hide Run;
    WritesNameKnownRows(run, |run| - 1, me);
  }

  /** The intent about to be inserted has none. */
  lemma IntentIsNew(run: seq<State>, me: nat, op: Op, hold: Hold, price: int, intent: Id)
    requires run != [] && Run(run) && At(run, me, op, IntentMinted(hold, price, intent)) && op.OpIntent?
    ensures !Ledger.Has(Last(run).w.payments, intent)
  {
    RunInv(run, |run| - 1);
    assert LocalOk(Last(run).w, me, Last(run).reqs[me].op, Last(run).reqs[me].pc);
  }

  /** A row that has settled is found as it was, however long the SELECT takes. */
  lemma MissedRowStands(before: seq<State>, run: seq<State>, intent: Id)
    requires before != [] && before <= run && Run(run)
    requires Ledger.Has(Last(before).w.payments, intent) && !PaymentRepos.Matches(Last(before).w.payments, intent)
    ensures Ledger.GetByIntent(Last(run).w.payments, intent) == Ledger.GetByIntent(Last(before).w.payments, intent)
  {
    LastIsLawful(run);
    assert run[|before| - 1] == Last(before);
    hide Run, PaymentRepos.Matches, Ledger.FindIntent, Ledger.Has;
    PaymentsEvolve(run, |before| - 1, |run| - 1);
    PaymentRepos.MissedRowStays(Last(before).w.payments, Last(run).w.payments, intent);
  }

  /** A screening that was shown is still there, its grid unchanged; what was shown as its price is one it has had. */
  lemma GridStands(before: seq<State>, run: seq<State>, id: string, shown: Screening)
    requires before != [] && before <= run && Run(run)
    requires id in Last(before).w.screenings && Last(before).w.screenings[id] == shown
    ensures var w := Last(run).w;
            && id in w.screenings && w.screenings[id].rows == shown.rows
            && w.screenings[id].seatsPerRow == shown.seatsPerRow && (id, shown.price) in w.prices
  {
    assert run[|before| - 1] == Last(before);
    hide Run;
    RunLater(run, |before| - 1, |run| - 1);
    assert PricesOk(Last(before).w);
  }

  /** The hold store's own refusals are none of the infrastructure's. */
  lemma ClaimAnswers(w: World, hold: Hold, c: Choice)
    ensures StoreClaim(w, hold, c).0 != Err(Infra)
    ensures c.redis && hold.Validates(w.now) ==> StoreClaim(w, hold, c) == Holds.Claim(w.holds.keys, w.max, hold)
    ensures c.redis && !hold.Validates(w.now) ==> StoreClaim(w, hold, c) == (Err(InvalidHold), w.holds.keys)
  {
  }

  lemma ReleaseAnswers(w: World, session: Id, user: Id)
    ensures Holds.Release(w.holds.keys, session, user).0 != Err(Infra)
  {
  }

  lemma CommitAnswers(t: Sales.Table, b: Booking, id: Id, event: Id, now: int, reported: Sales.Index)
    ensures Sales.Commit(t, b, id, event, now, reported).0 != Err(Infra)
  {
  }
}
