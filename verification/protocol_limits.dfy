/** What the protocol does not promise, each with the exact condition under which it holds. */
module ProtocolLimits {
  import opened Domain
  import opened Protocol
  import opened ProtocolFacts
  import opened ProtocolRuns
  import opened Landings
  import Geometry
  import Holds
  import Ledger
  import Sales

  // ----- a commit does not look at the clock -----

  /** The expiry check and the commit are separate steps: whatever time passes between them, the commit succeeds
      exactly if neither the session nor the seat is sold, and writes the booking it would have written at once,
      stamped later. */
  lemma CommitIgnoresTheClock(s: State, r: nat, op: Op, hold: Hold, at: int, to: int, c: Choice)
    requires op.OpConfirm? && r in s.reqs && s.reqs[r] == Request(op, Paid(hold, at)) && s.w.now <= to
    requires Enabled(s, Act(r, c, Answered)) && Enabled(Take(s, Tick(to)), Act(r, c, Answered))
    ensures var t, u := Take(s, Act(r, c, Answered)), Take(Take(s, Tick(to)), Act(r, c, Answered));
            var free := Sales.GetBySession(s.w.sales.rows, hold.session).Err? &&
                        !Sales.SeatConfirmed(s.w.sales.rows, hold.Ref());
            && (t.reqs[r].pc.Cleaning? <==> free) && (u.reqs[r].pc.Cleaning? <==> free)
            && (free ==> u.reqs[r].pc.booking == t.reqs[r].pc.booking.(confirmedAt := to) &&
                         u.w.sales.rows == s.w.sales.rows + [u.reqs[r].pc.booking])
  {
    hide Sales.FindSession, Sales.SeatConfirmed, Sales.EventOf, Holds.Apply, Exec;
    var w := Take(s, Tick(to)).w;
    CommitLands(s.w, r, op, hold, at, c, Answered);
    CommitLands(w, r, op, hold, at, c, Answered);
  }

  // ----- what the gateway says is not what the row says -----

  /** The row a paying client is about to settle exists, and is open, captured or failed. */
  lemma TargetKnown(run: seq<State>, i: nat, r: nat, intent: Id)
    requires Run(run) && i < |run| && r in run[i].reqs && run[i].reqs[r].op.OpPay?
    requires run[i].reqs[r].pc == Charged(intent) || run[i].reqs[r].pc == Declined(intent)
    ensures Ledger.Has(run[i].w.payments, intent)
    ensures run[i].w.payments[Ledger.FindIntent(run[i].w.payments, intent)].status in {Intent, Captured, Failed}
  {
    hide Init, Take, HoldsOk, SalesOk, PricesOk;
    RunInv(run, i);
    var w := run[i].w;
    assert LocalOk(w, r, run[i].reqs[r].op, run[i].reqs[r].pc);
    assert PaymentOk(w, w.payments[Ledger.FindIntent(w.payments, intent)]);
  }

  /** After a successful charge the client is told "paid" exactly if nothing has failed the row meanwhile; otherwise
      the money has moved on a row that stays failed. */
  lemma ChargedIsPaidUnlessFailed(run: seq<State>, i: nat, r: nat, intent: Id, c: Choice)
    requires Run(run) && i < |run| && r in run[i].reqs && run[i].reqs[r].op.OpPay?
    requires run[i].reqs[r].pc == Charged(intent)
    ensures var w := run[i].w;
            && Ledger.Has(w.payments, intent)
            && var row := w.payments[Ledger.FindIntent(w.payments, intent)];
            var next := Landing(w, r, run[i].reqs[r].op, Charged(intent), c, Answered);
            && (row.status != Failed <==> next.Done? && next.out.PaymentMade?)
            && (row.status == Failed <==> next == Refuse(InvalidTransition))
            && (row.status == Failed ==>
               After(w, r, run[i].reqs[r].op, Charged(intent), c, Answered).payments == w.payments)
  {
    hide Run, Ledger.FindIntent, Landing, After;
    TargetKnown(run, i, r, intent);
    CaptureLands(run[i].w, r, run[i].reqs[r].op, Charged(intent), intent, c, Answered);
  }

  /** After a decline the client is told "declined" in any case; the row is failed exactly if nothing has captured it
      meanwhile. */
  lemma DeclinedIsFailedUnlessCaptured(run: seq<State>, i: nat, r: nat, intent: Id, c: Choice)
    requires Run(run) && i < |run| && r in run[i].reqs && run[i].reqs[r].op.OpPay?
    requires run[i].reqs[r].pc == Declined(intent)
    ensures var w := run[i].w;
            && Ledger.Has(w.payments, intent)
            && var k := Ledger.FindIntent(w.payments, intent);
            var v := After(w, r, run[i].reqs[r].op, Declined(intent), c, Answered);
            && Landing(w, r, run[i].reqs[r].op, Declined(intent), c, Answered) == Refuse(PaymentDeclined)
            && |v.payments| == |w.payments|
            && (v.payments[k].status == Failed <==> w.payments[k].status != Captured)
  {
    hide Run, Ledger.FindIntent, Landing, After;
    TargetKnown(run, i, r, intent);
    FailLands(run[i].w, r, run[i].reqs[r].op, Declined(intent), intent, c, Answered);
  }

  // ----- a seat map is two reads -----

  lemma StepShown(s: State, step: Step, r: nat, booked: set<Seat>, held: set<Seat>)
    requires Enabled(s, step) && r in Take(s, step).reqs && Take(s, step).reqs[r].op.OpMap?
    requires Take(s, step).reqs[r].pc == Done(MapShown(booked, held))
    ensures r in s.reqs && s.reqs[r].op == Take(s, step).reqs[r].op
    ensures s.reqs[r].pc == Done(MapShown(booked, held)) ||
            (s.reqs[r].pc == Sold(booked) && held == HeldSeats(s.w.holds.keys, s.reqs[r].op.screening))
  {
    hide HoldExec, ConfirmExec, ReleaseExec, IntentExec, PayExec, HookExec, HeldSeats, Sales.ConfirmedSeats;
  }

  lemma StepBooked(s: State, step: Step, r: nat, booked: set<Seat>)
    requires Enabled(s, step) && r in Take(s, step).reqs && Take(s, step).reqs[r].op.OpMap?
    requires Take(s, step).reqs[r].pc == Sold(booked)
    ensures r in s.reqs && s.reqs[r].op == Take(s, step).reqs[r].op
    ensures s.reqs[r].pc == Sold(booked) ||
            (s.reqs[r].pc == OnGrid && booked == Sales.ConfirmedSeats(s.w.sales.rows, s.reqs[r].op.screening))
  {
    hide HoldExec, ConfirmExec, ReleaseExec, IntentExec, PayExec, HookExec, HeldSeats, Sales.ConfirmedSeats;
  }

  lemma {:induction false} BookedWasRead(run: seq<State>, j: nat, r: nat, booked: set<Seat>) returns (i: nat)
    requires Run(run) && j < |run| && r in run[j].reqs && run[j].reqs[r].op.OpMap? && run[j].reqs[r].pc == Sold(booked)
    ensures i < j && booked == Sales.ConfirmedSeats(run[i].w.sales.rows, run[j].reqs[r].op.screening)
    decreases j
  {
    hide Take, Enabled, Inv, Later, Persists;
    assert j > 0 by {
      assert Init(run[0]);
    }
    hide Init;
    i := j - 1;
    var step := RunStep(run, i);
    StepBooked(run[i], step, r, booked);
    if run[i].reqs[r].pc == Sold(booked) {
      i := BookedWasRead(run, i, r, booked);
    }
  }

  lemma {:induction false} MapWasRead(run: seq<State>, j: nat, r: nat, booked: set<Seat>, held: set<Seat>)
    returns (i: nat, k: nat)
    requires Run(run) && j < |run| && r in run[j].reqs && run[j].reqs[r].op.OpMap?
    requires run[j].reqs[r].pc == Done(MapShown(booked, held))
    ensures i < k < j && booked == Sales.ConfirmedSeats(run[i].w.sales.rows, run[j].reqs[r].op.screening)
    ensures held == HeldSeats(run[k].w.holds.keys, run[j].reqs[r].op.screening)
    decreases j
  {
    hide Take, Enabled, Inv, Later, Persists;
    assert j > 0 by {
      assert Init(run[0]);
    }
    hide Init;
    k := j - 1;
    var step := RunStep(run, k);
    StepShown(run[k], step, r, booked, held);
    if run[k].reqs[r].pc == Sold(booked) {
      i := BookedWasRead(run, k, r, booked);
    } else {
      i, k := MapWasRead(run, k, r, booked, held);
    }
  }

  /** A seat's status in a finished map is decided at two moments, bookings first: booked if it was sold at the first,
      held if it was unsold then but held at the second, and available exactly if it was neither. */
  lemma MapIsTwoReads(run: seq<State>, j: nat, r: nat, screening: string, booked: set<Seat>, held: set<Seat>)
    returns (i: nat, k: nat)
    requires Run(run) && j < |run| && r in run[j].reqs
    requires run[j].reqs[r] == Request(OpMap(screening), Done(MapShown(booked, held)))
    ensures i < k < j
    ensures forall seat ::
              var sold := exists b :: b in run[i].w.sales.rows && b.screening == screening && b.seat == seat &&
                                      b.status == Confirmed;
              var taken := SeatRef(screening, seat) in run[k].w.holds.keys.seats;
              var status := Geometry.StatusOf(booked, held, seat);
              && (status == Booked <==> sold)
              && (status == Held <==> !sold && taken)
              && (status == Available <==> !sold && !taken)
  {
    hide Run;
    i, k := MapWasRead(run, j, r, booked, held);
    forall seat
      ensures seat in booked <==> exists b :: b in run[i].w.sales.rows && b.screening == screening && b.seat == seat &&
                                              b.status == Confirmed
      ensures seat in held <==> SeatRef(screening, seat) in run[k].w.holds.keys.seats
    {
      ConfirmedSeatsAre(run[i].w.sales.rows, screening, seat);
      Sales.ConfirmedMeans(run[i].w.sales.rows, SeatRef(screening, seat));
      HeldSeatsAre(run[k].w.holds.keys, screening, seat);
    }
  }

  lemma ConfirmedSeatsAre(rows: seq<Booking>, screening: string, seat: Seat)
    ensures seat in Sales.ConfirmedSeats(rows, screening) <==> Sales.SeatConfirmed(rows, SeatRef(screening, seat))
  {
    if k :| 0 <= k < |rows| && rows[k].Ref() == SeatRef(screening, seat) && rows[k].status == Confirmed {
      assert rows[k].seat in Sales.ConfirmedSeats(rows, screening);
    }
  }

  lemma HeldSeatsAre(keys: Holds.Keys, screening: string, seat: Seat)
    ensures seat in HeldSeats(keys, screening) <==> SeatRef(screening, seat) in keys.seats
  {
    if SeatRef(screening, seat) in keys.seats {
      var r := SeatRef(screening, seat);
      assert r.seat in HeldSeats(keys, screening);
    }
  }

  /** The gap is real: while a map request stands between its reads, a held seat can be sold and its hold cleaned up,
      and the map then shows the seat as available although it was held until it was sold. */
  lemma SoldBetweenReadsShowsAvailable(s: State, q: nat, r: nat, screening: string, booked: set<Seat>,
                                       user: Id, hold: Hold, read: Hold, at: int, c: Choice, d: Choice, e: Choice)
    requires q != r && q in s.reqs && s.reqs[q] == Request(OpMap(screening), Sold(booked)) && hold.seat !in booked
    requires r in s.reqs && s.reqs[r] == Request(OpConfirm(user, hold.session), Paid(read, at))
    requires read == hold.(expiresAt := read.expiresAt) && hold.screening == screening
    requires hold.session in s.w.holds.keys.sessions && s.w.holds.keys.sessions[hold.session] == hold
    requires hold.user == user
    requires hold.Ref() in s.w.holds.keys.seats && s.w.holds.keys.seats[hold.Ref()] == hold.token
    requires Sales.GetBySession(s.w.sales.rows, hold.session).Err? && !Sales.SeatConfirmed(s.w.sales.rows, hold.Ref())
    requires Enabled(s, Act(r, c, Answered))
    requires Enabled(Take(s, Act(r, c, Answered)), Act(r, d, Answered))
    requires Enabled(Take(Take(s, Act(r, c, Answered)), Act(r, d, Answered)), Act(q, e, Answered))
    ensures var s1 := Take(s, Act(r, c, Answered));
            var s2 := Take(s1, Act(r, d, Answered));
            var s3 := Take(s2, Act(q, e, Answered));
            && hold.Ref() in s1.w.holds.keys.seats
            && Sales.SeatConfirmed(s1.w.sales.rows, hold.Ref()) && Sales.SeatConfirmed(s3.w.sales.rows, hold.Ref())
            && s3.reqs[q].pc.Done? && s3.reqs[q].pc.out.MapShown?
            && Geometry.StatusOf(s3.reqs[q].pc.out.booked, s3.reqs[q].pc.out.held, hold.seat) == Available
  {
    hide Exec, Sales.FindSession, Sales.EventOf;
    assert Order(read).session == hold.session && Order(read).Ref() == hold.Ref();
    var s1 := Take(s, Act(r, c, Answered));
    CommitLands(s.w, r, s.reqs[r].op, read, at, c, Answered);
    assert s1.w.sales.rows[|s.w.sales.rows|].Ref() == hold.Ref();
    var s2 := Take(s1, Act(r, d, Answered));
    ReleaseLands(s1.w, r, s.reqs[r].op, s1.reqs[r].pc, d, Answered);
    HeldLands(s2.w, q, s.reqs[q].op, booked, e, Answered);
    HeldSeatsAre(s2.w.holds.keys, screening, hold.seat);
  }
}
