/** From every reachable state in which a seat is free, the run can be continued so that the user buys it. */
module Purchases {
  import opened Domain
  import opened Protocol
  import opened ProtocolFacts
  import opened ProtocolRuns
  import opened Landings
  import opened ProtocolProgress
  import Geometry
  import Holds
  import Ledger
  import Sales

  /** k choices with identifiers numbered from n; the store is Redis and the gateway accepts. */
  function Choices(n: nat, k: nat): (cs: seq<Choice>)
    ensures |cs| == k
    ensures forall i :: 0 <= i < k ==> cs[i] == Choice(Id(n + 2 * i), Id(n + 2 * i + 1), true, true, Sales.SeatIndex)
    decreases k
  {
    if k == 0 then []
    else [Choice(Id(n), Id(n + 1), true, true, Sales.SeatIndex)] + Choices(n + 2, k - 1)
  }

  /** Finitely many identifiers are numbered below some number. */
  lemma {:induction false} SomeBound(ids: set<Id>) returns (n: nat)
    ensures forall m: nat :: Id(m) in ids ==> m < n
  {
    n := 0;
    if ids != {} {
      var id :| id in ids;
      n := SomeBound(ids - {id});
      if id.Id? && id.n >= n {
        n := id.n + 1;
      }
      assert forall x :: x in ids ==> x == id || x in ids - {id};
    }
  }

  /** A request that runs alone is a continuation of the run. */
  lemma {:induction false} AloneRuns(run: seq<State>, me: nat, op: Op, pc: Pc, n: nat, k: nat)
    returns (longer: seq<State>)
    requires run != [] && Run(run) && At(run, me, op, pc) && Below(Last(run).w.minter, n)
    ensures longer != [] && run <= longer && Run(longer)
    ensures var (w, end) := Alone(Last(run).w, me, op, pc, Choices(n, k));
            Last(longer).w == w && At(longer, me, op, end)
    ensures Below(Last(longer).w.minter, n + 2 * k) && OthersWait(run, longer, me)
    decreases k
  {
    hide Run, Take, Enabled, Landing, After, Exec, Below, At;
    var cs := Choices(n, k);
    if cs == [] || pc.Done? {
      longer := run;
      BelowMore(Last(run).w.minter, n, n + 2 * k);
    } else {
      var c, w := cs[0], Last(run).w;
      hide Choices, Alone;
      ActLands(run, me, op, pc, c, Answered, n);
      AloneStep(w, me, op, pc, cs);
      ChoicesTail(n, k);
      var next := Landing(w, me, op, pc, c, Answered);
      longer := AloneRuns(run + [Take(Last(run), Act(me, c, Answered))], me, op, next, n + 2, k - 1);
    }
  }

  lemma BelowMore(minter: map<Id, nat>, n: nat, m: nat)
    requires Below(minter, n) && n <= m
    ensures Below(minter, m)
  {
  }

  lemma ChoicesTail(n: nat, k: nat)
    requires k > 0
    ensures Choices(n, k)[1..] == Choices(n + 2, k - 1)
  {
  }

  /** A new request arrives and is served alone for k steps, as a continuation of the run. */
  lemma ServeRuns(run: seq<State>, op: Op, n: nat, k: nat) returns (longer: seq<State>, me: nat)
    requires run != [] && Run(run) && Below(Last(run).w.minter, n)
    ensures longer != [] && run <= longer && Run(longer) && Below(Last(longer).w.minter, n + 2 * k)
    ensures me !in Last(run).reqs && AllWait(run, longer)
    ensures var (w, end) := Serve(Arrived(Last(run).w, op), me, op, Choices(n, k));
            Last(longer).w == w && At(longer, me, op, end)
  {
    hide Run, Alone, Choices;
    me := UnusedRequest(Last(run).reqs.Keys);
    RunGrows(run, Arrive(me, op));
    longer := AloneRuns(run + [Take(Last(run), Arrive(me, op))], me, op, Start, n, k);
  }

  /** An identifier above the bound names nothing in a lawful world. */
  lemma NamesNothing(w: World, n: nat, x: Id, u: Id)
    requires WorldOk(w) && Below(w.minter, n) && x.Id? && x.n >= n
    ensures x !in w.holds.granted && x !in w.holds.keys.Slots(u)
    ensures forall k :: 0 <= k < |w.payments| ==> w.payments[k].session != x && w.payments[k].intent != x
    ensures forall k :: 0 <= k < |w.sales.rows| ==> w.sales.rows[k].session != x
  {
    assert x !in w.minter;
    forall k | 0 <= k < |w.payments| ensures w.payments[k].session != x && w.payments[k].intent != x {
      assert PaymentOk(w, w.payments[k]);
    }
    forall k | 0 <= k < |w.sales.rows| ensures w.sales.rows[k].session != x {
      assert SaleOk(w, w.sales.rows[k]);
    }
  }

  /** The seat can be sold to the user in this world. */
  predicate Buyable(w: World, user: Id, ref: SeatRef) {
    && ref.screening in w.screenings && Geometry.HasSeat(w.screenings[ref.screening], ref.seat)
    && w.screenings[ref.screening].price > 0
    && !Sales.SeatConfirmed(w.sales.rows, ref) && ref !in w.holds.keys.seats
    && |w.holds.keys.Slots(user)| < w.max && w.ttl >= SECOND
    && user != NoId && ref.screening != "" && ref.seat.row != ""
  }

  lemma BuyableIsGrantable(w: World, user: Id, ref: SeatRef, session: Id, token: Id)
    requires Buyable(w, user, ref) && session != NoId && token != NoId
    ensures Grantable(w, Hold(session, ref.screening, ref.seat, user, token, w.now + w.ttl))
  {
  }

  /** The world after the purchase: the booking and its paid row are new, the hold has come and gone. */
  ghost predicate Completed(w: World, v: World, user: Id, ref: SeatRef, b: Booking, p: Payment) {
    && v.sales.rows == w.sales.rows + [b] && |v.sales.outbox| == |w.sales.outbox| + 1
    && Sales.Repeats(v.sales.outbox[|w.sales.outbox|], b)
    && b.Ref() == ref && b.user == user && b.status == Confirmed
    && v.payments == w.payments + [p]
    && p.session == b.session && p.status == Captured
    && ref.screening in w.screenings && p.amount == w.screenings[ref.screening].price
    && ref !in v.holds.keys.seats && b.session !in v.holds.keys.sessions
    && (forall u :: v.holds.keys.Slots(u) == w.holds.keys.Slots(u))
  }

  lemma HoldComesAndGoes(keys: Holds.Keys, hold: Hold, after: Holds.Keys)
    requires hold.session !in keys.Slots(hold.user) && hold.Ref() !in keys.seats
    requires Holds.GivesBack(Holds.Granted(keys, hold), after, hold)
    ensures hold.Ref() !in after.seats && hold.session !in after.sessions
    ensures forall u :: after.Slots(u) == keys.Slots(u)
  {
    forall u ensures after.Slots(u) == keys.Slots(u) {
      if u == hold.user {
        assert keys.Slots(u) + {hold.session} - {hold.session} == keys.Slots(u);
      }
    }
  }

  /** With captured money and an unsold seat, the confirm of a granted hold sells. */
  lemma PaidThenSold(w: World, me: nat, hold: Hold, cs: seq<Choice>)
    requires |cs| >= 5
    requires hold.session in w.holds.keys.sessions && w.holds.keys.sessions[hold.session] == hold
    requires w.now + SECOND <= hold.expiresAt
    requires Ledger.HasCaptured(w.payments, hold.session) && !Sales.SeatConfirmed(w.sales.rows, hold.Ref())
    requires Sales.Unique(w.sales.rows)
    requires forall k :: 0 <= k < |w.sales.rows| ==> w.sales.rows[k].session != hold.session
    ensures var (v, pc) := Serve(w, me, OpConfirm(hold.user, hold.session), cs);
            && v.payments == w.payments
            && Sells(w, v, SoldRow(w, hold.session, cs[3]), cs[3].b, hold)
            && pc == Done(Bought(SoldRow(w, hold.session, cs[3]), true))
  {
    hide Serve, Sells, Ledger.HasCaptured, Sales.SeatConfirmed, Sales.Unique;
    FloorIsAhead(w.now, hold.expiresAt - w.now);
    Ledger.CapturedMeans(w.payments, hold.session);
    Sales.ConfirmedMeans(w.sales.rows, hold.Ref());
    assert Sellable(w, hold.user, hold.session, cs[0]);
    ConfirmAlone(w, me, hold.user, hold.session, cs);
  }

  // ----- the four requests of a purchase, one after the other -----

  /** The run goes on from here; identifiers from n on are still unused. */
  ghost predicate Onward(run: seq<State>, longer: seq<State>, n: nat) {
    run <= longer && AllWait(run, longer) && Run(longer) && Below(Last(longer).w.minter, n)
  }

  lemma OnwardTwice(a: seq<State>, b: seq<State>, c: seq<State>, m: nat, n: nat)
    requires Onward(a, b, m) && Onward(b, c, n)
    ensures Onward(a, c, n)
  {
    hide Run, Below, Last;
  }

  lemma LastOk(run: seq<State>)
    requires run != [] && Run(run)
    ensures WorldOk(Last(run).w) && Ledger.Lawful(Last(run).w.payments) && Sales.Unique(Last(run).w.sales.rows)
  {
    RunInv(run, |run| - 1);
  }

  lemma HoldPhase(run: seq<State>, user: Id, ref: SeatRef, n: nat) returns (longer: seq<State>, hold: Hold)
    requires run != [] && Run(run) && Below(Last(run).w.minter, n) && Buyable(Last(run).w, user, ref)
    ensures Onward(run, longer, n + 8)
    ensures var w, v := Last(run).w, Last(longer).w;
            && hold == Hold(Id(n + 4), ref.screening, ref.seat, user, Id(n + 5), w.now + w.ttl)
            && v == w.(minter := v.minter, holds := v.holds) && v.holds.keys == Holds.Granted(w.holds.keys, hold)
  {
    hide Run, Serve, Below, At, AllWait, Grantable, Holds.Granted;
    var w := Last(run).w;
    var op := OpHold(user, ref.screening, ref.seat);
    hold := Hold(Id(n + 4), ref.screening, ref.seat, user, Id(n + 5), w.now + w.ttl);
    var me: nat;
    longer, me := ServeRuns(run, op, n, 4);
    var cs := Choices(n, 4);
    assert hold == Asked(w, op, cs[2]);
    hide Buyable;
    BuyableIsGrantable(w, user, ref, hold.session, hold.token);
    HoldAlone(w, me, op, cs);
  }

  /** The hold stands, with at least a second left, its session otherwise unknown. */
  ghost predicate Standing(w: World, hold: Hold) {
    && hold.session in w.holds.keys.sessions && w.holds.keys.sessions[hold.session] == hold
    && w.now + SECOND <= hold.expiresAt
    && !Sales.SeatConfirmed(w.sales.rows, hold.Ref())
    && (forall k :: 0 <= k < |w.sales.rows| ==> w.sales.rows[k].session != hold.session)
  }

  lemma IntentPhase(run: seq<State>, hold: Hold, n: nat) returns (longer: seq<State>, row: Payment)
    requires run != [] && Run(run) && Below(Last(run).w.minter, n) && Standing(Last(run).w, hold)
    requires var w := Last(run).w; hold.screening in w.screenings && w.screenings[hold.screening].price > 0
    requires forall k :: 0 <= k < |Last(run).w.payments| ==> Last(run).w.payments[k].session != hold.session
    ensures Onward(run, longer, n + 12)
    ensures var w, v := Last(run).w, Last(longer).w;
            && v == w.(minter := v.minter, payments := w.payments + [row])
            && row.session == hold.session && row.status == Intent && row.amount == w.screenings[hold.screening].price
  {
    hide Run, Serve, At, AllWait, WorldOk;
    var w := Last(run).w;
    var op := OpIntent(hold.user, hold.session);
    LastOk(run);
    NamesNothing(w, n, Id(n + 8), NoId);
    hide Below;
    var me: nat;
    longer, me := ServeRuns(run, op, n, 6);
    var cs := Choices(n, 6);
    row := IntentRow(w, hold.session, cs[4], cs[5].a);
    HeldThenIntended(w, me, hold, cs);
  }

  lemma PayPhase(run: seq<State>, hold: Hold, n: nat) returns (longer: seq<State>)
    requires run != [] && Run(run) && Below(Last(run).w.minter, n) && Standing(Last(run).w, hold)
    requires |Last(run).w.payments| > 0
    requires var last := Last(run).w.payments[|Last(run).w.payments| - 1];
             last.session == hold.session && last.status == Intent
    ensures Onward(run, longer, n + 10)
    ensures var w, v := Last(run).w, Last(longer).w;
            var row := w.payments[|w.payments| - 1].(status := Captured, updatedAt := w.now);
            && v == w.(minter := v.minter, payments := w.payments[|w.payments| - 1 := row], moved := v.moved,
               captor := v.captor)
            && Ledger.HasCaptured(v.payments, hold.session)
  {
    hide Run, Serve, Below, At, AllWait, WorldOk, Ledger.Lawful, Ledger.HasCaptured;
    LastOk(run);
    var me: nat;
    longer, me := ServeRuns(run, OpPay(hold.user, hold.session), n, 5);
    IntendedThenPaid(Last(run).w, me, hold, Choices(n, 5));
  }

  lemma ConfirmPhase(run: seq<State>, hold: Hold, n: nat) returns (longer: seq<State>, b: Booking)
    requires run != [] && Run(run) && Below(Last(run).w.minter, n) && Standing(Last(run).w, hold)
    requires Ledger.HasCaptured(Last(run).w.payments, hold.session)
    ensures Onward(run, longer, n + 10)
    ensures var w, v := Last(run).w, Last(longer).w;
            && v.payments == w.payments && Sells(w, v, b, Id(n + 7), hold)
            && b.session == hold.session && b.Ref() == hold.Ref() && b.user == hold.user && b.status == Confirmed
  {
    hide Run, Serve, Below, At, AllWait, Ledger.HasCaptured, Sales.SeatConfirmed, Sells;
    var me: nat;
    LastOk(run);
    longer, me := ServeRuns(run, OpConfirm(hold.user, hold.session), n, 5);
    b := SoldRow(Last(run).w, hold.session, Choices(n, 5)[3]);
    PaidThenSold(Last(run).w, me, hold, Choices(n, 5));
  }

  lemma BoundIsBelow(minter: map<Id, nat>, n: nat)
    requires forall m: nat :: Id(m) in minter.Keys ==> m < n
    ensures Below(minter, n)
  {
  }

  /** From every reachable state in which the seat is free, the price positive and the user below the limit, the
      run can go on so that the user ends up with the seat: hold, intent, payment and confirm succeed, the sale
      and its captured row for the screening's price are the only new rows, and every slot is back. */
  lemma PurchaseCompletes(run: seq<State>, user: Id, ref: SeatRef) returns (longer: seq<State>, b: Booking, p: Payment)
    requires run != [] && Run(run) && Buyable(Last(run).w, user, ref)
    ensures run <= longer && longer != [] && Run(longer)
    ensures Completed(Last(run).w, Last(longer).w, user, ref, b, p)
  {
    hide Run, Below, AllWait, WorldOk, Sales.SeatConfirmed, Ledger.HasCaptured;
    var w := Last(run).w;
    var n := SomeBound(w.minter.Keys);
    BoundIsBelow(w.minter, n);
    LastOk(run);
    NamesNothing(w, n, Id(n + 4), user);
    var r1, hold := HoldPhase(run, user, ref, n);
    var r2, row := IntentPhase(r1, hold, n + 8);
    var r3 := PayPhase(r2, hold, n + 20);
    longer, b := ConfirmPhase(r3, hold, n + 30);
    OnwardTwice(run, r1, r2, n + 8, n + 20);
    OnwardTwice(run, r2, r3, n + 20, n + 30);
    OnwardTwice(run, r3, longer, n + 30, n + 40);
    p := row.(status := Captured, updatedAt := w.now);
    HoldComesAndGoes(w.holds.keys, hold, Last(longer).w.holds.keys);
  }
}
