/** The booking use cases as the service runs them, port call by port call. Each answers what its request in the
    protocol answers, on the objects of the site and whatever other requests do in between. */
module BookingServices {
  import opened Domain
  import opened Protocol
  import opened Landings
  import opened Sites
  import Geometry
  import RedisHoldStores

  class Service {
    const site: Site

    constructor (site: Site)
      ensures this.site == site
    {
      this.site := site;
    }

    method Hold(user: Id, screening: string, seat: Seat) returns (out: Outcome, ghost me: nat)
      requires site.Valid() && ProperSeat(seat)
      modifies site, site.holds, site.bookings, site.payments
      ensures site.Valid() && old(site.run) <= site.run && me !in old(Last(site.run).reqs)
      ensures At(site.run, me, OpHold(user, screening, seat), Done(out))
      ensures out == Refused(Infra) ==> Troubled(site.run, me)
    {
      hide Run, Called, Troubled, At, Last;
      ghost var op := OpHold(user, screening, seat);
      me := site.Receive(op);
      var net := site.Network();
      var found := site.GetScreening(me, op, Start, screening, net);
      if found.Err? {
        return Refused(found.error), me;
      }
      var inside := Geometry.CheckSeat(found.value, seat);
      if !inside {
        return Refused(SeatOutOfRange), me;
      }
      net := site.Network();
      var confirmed := site.SeatConfirmed(me, op, SeatRef(screening, seat), net);
      if confirmed.Err? {
        return Refused(confirmed.error), me;
      }
      if confirmed.value {
        return Refused(SeatAlreadyBooked), me;
      }
      out := Claim(user, screening, seat, me);
    }

    /** The validated claim: only here is the hold store reached. */
    method Claim(user: Id, screening: string, seat: Seat, ghost me: nat) returns (out: Outcome)
      requires site.Valid() && ProperSeat(seat)
      requires At(site.run, me, OpHold(user, screening, seat), Unsold)
      modifies site, site.holds, site.bookings, site.payments
      ensures site.Valid() && old(site.run) <= site.run
      ensures At(site.run, me, OpHold(user, screening, seat), Done(out))
      ensures out == Refused(Infra) ==> Troubled(site.run, me)
    {
      hide Run, Called, Troubled, At, Last;
      ghost var op := OpHold(user, screening, seat);
      var session, token, now := site.NewHold(me, op);
      var hold := Domain.Hold(session, screening, seat, user, token, now + site.ttl);
      if !hold.Validates(now) {
        return Refused(InvalidHold);
      }
      var net := site.Network();
      var claimed := site.ClaimHold(me, op, hold, net);
      if claimed.Err? {
        return Refused(claimed.error);
      }
      out := HoldGranted(hold);
    }

    method Confirm(user: Id, session: Id) returns (out: Outcome, ghost me: nat)
      requires site.Valid()
      modifies site, site.holds, site.bookings, site.payments
      ensures site.Valid() && old(site.run) <= site.run && me !in old(Last(site.run).reqs)
      ensures At(site.run, me, OpConfirm(user, session), Done(out))
      ensures out == Refused(Infra) ==> Troubled(site.run, me)
    {
      hide Run, Called, Troubled, At, Last;
      ghost var op := OpConfirm(user, session);
      me := site.Receive(op);
      var net := site.Network();
      var got := site.GetHold(me, op, session, net);
      if got.Err? {
        return Refused(got.error), me;
      }
      var hold := got.value;
      var now := site.ReadClock(me, op, hold);
      if hold.user != user {
        return Refused(NotHoldOwner), me;
      }
      if !hold.CanBeConfirmed(now) {
        return Refused(HoldExpired), me;
      }
      out := Sell(user, session, hold, now, me);
    }

    /** The payment gate, then the durable write, then cleanup or recovery. */
    method Sell(user: Id, session: Id, hold: Hold, ghost at: int, ghost me: nat) returns (out: Outcome)
      requires site.Valid() && At(site.run, me, OpConfirm(user, session), Gated(hold, at))
      modifies site, site.holds, site.bookings, site.payments
      ensures site.Valid() && old(site.run) <= site.run
      ensures At(site.run, me, OpConfirm(user, session), Done(out))
      ensures out == Refused(Infra) ==> Troubled(site.run, me)
    {
      hide Run, Called, Troubled, At, Last;
      ghost var op := OpConfirm(user, session);
      var net := site.Network();
      var captured := site.HasCapturedPayment(me, op, hold, at, session, net);
      if captured.Err? {
        return Refused(captured.error);
      }
      if !captured.value {
        return Refused(PaymentNotCaptured);
      }
      var b := Booking(NoId, hold.session, hold.screening, hold.seat, hold.user, Confirmed, 0);
      net := site.Network();
      var created := site.Confirm(me, op, hold, at, b, net);
      if created.Ok? {
        CleanupHold(user, session, me, created.value);
        return Bought(created.value, true);
      }
      if created.error == SeatAlreadyBooked || created.error == SessionAlreadyConfirmed {
        out := RecoverConflict(user, session, created.error, me);
        return;
      }
      out := Refused(created.error);
    }

    /** Tells "I already confirmed this" from "someone else won the seat". */
    method RecoverConflict(user: Id, session: Id, conflict: Error, ghost me: nat) returns (out: Outcome)
      requires site.Valid() && At(site.run, me, OpConfirm(user, session), Conflicted(conflict))
      requires conflict == SeatAlreadyBooked || conflict == SessionAlreadyConfirmed
      modifies site, site.holds, site.bookings, site.payments
      ensures site.Valid() && old(site.run) <= site.run
      ensures At(site.run, me, OpConfirm(user, session), Done(out))
      ensures out == Refused(Infra) ==> Troubled(site.run, me)
    {
      hide Run, Called, Troubled, At, Last;
      var net := site.Network();
      var existing := site.GetBySession(me, OpConfirm(user, session), conflict, session, net);
      if existing.Err? {
        return if existing.error == BookingNotFound then Refused(conflict) else Refused(existing.error);
      }
      var row := existing.value;
      if row.user != user {
        return Refused(OwnershipViolated);
      }
      if row.status == Confirmed {
        return Bought(row, false);
      }
      out := Refused(conflict);
    }

    /** Best effort: the sale stands whether or not the hold can be released. */
    method CleanupHold(user: Id, session: Id, ghost me: nat, ghost b: Booking)
      requires site.Valid() && At(site.run, me, OpConfirm(user, session), Cleaning(b))
      modifies site, site.holds, site.bookings, site.payments
      ensures site.Valid() && old(site.run) <= site.run
      ensures At(site.run, me, OpConfirm(user, session), Done(Bought(b, true)))
    {
      hide Run, Called, Troubled, At, Last;
      var net := site.Network();
      var released := site.ReleaseHold(me, OpConfirm(user, session), Cleaning(b), session, user, net);
    }

    method Release(user: Id, session: Id) returns (out: Outcome, ghost me: nat)
      requires site.Valid()
      modifies site, site.holds, site.bookings, site.payments
      ensures site.Valid() && old(site.run) <= site.run && me !in old(Last(site.run).reqs)
      ensures At(site.run, me, OpRelease(user, session), Done(out))
      ensures out == Refused(Infra) ==> Troubled(site.run, me)
    {
      hide Run, Called, Troubled, At, Last;
      ghost var op := OpRelease(user, session);
      me := site.Receive(op);
      var net := site.Network();
      var released := site.ReleaseHold(me, op, Start, session, user, net);
      out := if released.Ok? then HoldReleased else Refused(released.error);
    }

    /** The map: one status per seat of the screening's grid, booked over held over available, from what the two reads
        answered. A grid of negative width, on which the source panics, has no cells here. */
    method SeatMap(screening: string)
      returns (out: Outcome, grid: Screening, cells: seq<(Seat, SeatStatus)>, ghost me: nat)
      requires site.Valid()
      modifies site, site.holds, site.bookings, site.payments
      ensures site.Valid() && old(site.run) <= site.run && me !in old(Last(site.run).reqs)
      ensures At(site.run, me, OpMap(screening), Done(out))
      ensures out == Refused(Infra) ==> Troubled(site.run, me)
      ensures out.MapShown? ==>
                && screening in site.screenings
                && grid.rows == site.screenings[screening].rows
                && grid.seatsPerRow == site.screenings[screening].seatsPerRow
                && (screening, grid.price) in Last(site.run).w.prices
      ensures out.MapShown? && site.screenings[screening].seatsPerRow >= 0 ==>
                Geometry.Rendered(site.screenings[screening], cells, out.booked, out.held)
    {
      hide Run, Called, Troubled, At, Last, Geometry.Rendered, RedisHoldStores.HoldStore.Mirrors;
      ghost var op := OpMap(screening);
      grid, cells := Screening("", [], 0, 0), [];
      me := site.Receive(op);
      var net := site.Network();
      var found := site.GetScreening(me, op, Start, screening, net);
      if found.Err? {
        out := Refused(found.error);
        return;
      }
      grid := found.value;
      ghost var shown := site.run;
      net := site.Network();
      var booked := site.ConfirmedSeats(me, op, screening, net);
      if booked.Err? {
        out := Refused(booked.error);
        return;
      }
      net := site.Network();
      var held := site.HeldSeatsOf(me, op, Elements(booked.value), screening, net);
      if held.Err? {
        out := Refused(held.error);
        return;
      }
      out := MapShown(Elements(booked.value), Elements(held.value));
      GridStands(shown, site.run, screening, grid);
      if grid.seatsPerRow >= 0 {
        cells := Render(grid, booked.value, held.value);
        Geometry.RenderedOverSameGrid(grid, site.screenings[screening], cells, out.booked, out.held);
      }
    }

    method Render(grid: Screening, booked: seq<Seat>, held: seq<Seat>) returns (cells: seq<(Seat, SeatStatus)>)
      requires grid.seatsPerRow >= 0
      ensures Geometry.Rendered(grid, cells, Elements(booked), Elements(held))
    {
      hide Geometry.Position;
      cells := Geometry.SeatMap(grid, booked, held);
    }
  }
}
