/** The limits of the protocol are real: from every reachable state in which a seat is free, a run leads into each of
    them. */
module Witnesses {
  import opened Domain
  import opened Protocol
  import opened ProtocolFacts
  import opened ProtocolRuns
  import opened ProtocolTheorems
  import opened Landings
  import opened ProtocolProgress
  import opened Purchases
  import Geometry
  import Holds
  import Ledger
  import ProtocolLimits
  import Sales

  /** Such states exist: the first state of a run with one open screening is one. */
  lemma SomeRunIsBuyable(user: Id) returns (run: seq<State>, ref: SeatRef)
    requires user != NoId
    ensures run != [] && Run(run) && Buyable(Last(run).w, user, ref)
  {
    var screening := Screening("s", ["A"], 1, 1);
    ref := SeatRef("s", Seat("A", 1));
    var w := World(0, 1, SECOND, map["s" := screening], Holds.Empty(), Sales.Table([], []), [], map[],
                   {("s", 1)}, {}, map[], map[], map[]);
    run := [State(w, map[])];
    assert w.holds.keys.Slots(user) == {};
  }

  // ----- getting there -----

  function Pick(n: nat, accepts: bool): Choice { Choice(Id(n), Id(n + 1), true, accepts, Sales.SeatIndex) }

  /** The run after one more answered call of request me. */
  function Then(run: seq<State>, me: nat, c: Choice): seq<State>
    requires run != [] && Enabled(Last(run), Act(me, c, Answered))
  {
    run + [Take(Last(run), Act(me, c, Answered))]
  }

  /** Only a hold has been added to what matters for the next one. */
  ghost predicate Claimed(w: World, v: World, hold: Hold) {
    && v.screenings == w.screenings && v.max == w.max && v.ttl == w.ttl && v.now == w.now && v.sales == w.sales
    && v.holds.keys == Holds.Granted(w.holds.keys, hold)
    && hold.session !in w.holds.keys.Slots(hold.user) && hold.Ref() !in w.holds.keys.seats
  }

  /** A seat held and an intent recorded: the hold stands, its key carries its token, its row is the last and open. */
  ghost predicate Intended(w: World, user: Id, ref: SeatRef, hold: Hold, row: Payment) {
    && Standing(w, hold) && hold.user == user && hold.Ref() == ref
    && ref in w.holds.keys.seats && w.holds.keys.seats[ref] == hold.token
    && w.payments != [] && row == w.payments[|w.payments| - 1] && row.session == hold.session && row.status == Intent
  }

  lemma ToIntended(run: seq<State>, user: Id, ref: SeatRef, n: nat)
    returns (longer: seq<State>, hold: Hold, row: Payment)
    requires run != [] && Run(run) && Below(Last(run).w.minter, n) && Buyable(Last(run).w, user, ref)
    ensures Onward(run, longer, n + 20) && Intended(Last(longer).w, user, ref, hold, row)
    ensures Claimed(Last(run).w, Last(longer).w, hold)
  {
    hide Run, Below, AllWait, WorldOk, Sales.SeatConfirmed;
    LastOk(run);
    NamesNothing(Last(run).w, n, Id(n + 4), user);
    var middle: seq<State>;
    middle, hold := HoldPhase(run, user, ref, n);
    longer, row := IntentPhase(middle, hold, n + 8);
    OnwardTwice(run, middle, longer, n + 8, n + 20);
  }

  /** The money has moved and the row says so. */
  ghost predicate PaidUp(w: World, user: Id, ref: SeatRef, hold: Hold) {
    && Standing(w, hold) && hold.user == user && hold.Ref() == ref
    && ref in w.holds.keys.seats && w.holds.keys.seats[ref] == hold.token
    && Ledger.HasCaptured(w.payments, hold.session)
  }

  lemma ToPaidUp(run: seq<State>, user: Id, ref: SeatRef, n: nat) returns (longer: seq<State>, hold: Hold)
    requires run != [] && Run(run) && Below(Last(run).w.minter, n) && Buyable(Last(run).w, user, ref)
    ensures Onward(run, longer, n + 30) && PaidUp(Last(longer).w, user, ref, hold)
    ensures Claimed(Last(run).w, Last(longer).w, hold)
  {
    hide Run, Below, AllWait, Sales.SeatConfirmed, Ledger.HasCaptured, Buyable;
    var row: Payment;
    var middle: seq<State>;
    middle, hold, row := ToIntended(run, user, ref, n);
    longer := PayPhase(middle, hold, n + 20);
    OnwardTwice(run, middle, longer, n + 20, n + 30);
  }

  /** A request of the hold's owner arrives and passes the hold gate. */
  lemma ToGate(run: seq<State>, op: Op, hold: Hold, n: nat) returns (longer: seq<State>, me: nat)
    requires run != [] && Run(run) && Below(Last(run).w.minter, n) && Standing(Last(run).w, hold)
    requires ReadsHold(op, hold.session) && op.user == hold.user
    ensures Onward(run, longer, n + 4) && me !in Last(run).reqs
    ensures OnlyReads(Last(run).w, Last(longer).w)
    ensures At(longer, me, op, Gated(Holds.WholeSecond(hold), Last(run).w.now))
  {
    hide Run, Below, At, AllWait, Serve, Sales.SeatConfirmed;
    var w := Last(run).w;
    longer, me := ServeRuns(run, op, n, 2);
    var cs := Choices(n, 2);
    FloorIsAhead(w.now, hold.expiresAt - w.now);
    var u := GateAlone(w, me, op, hold.session, cs);
    assert cs[2..] == [];
    hide Exec, Landing, After;
  }

  /** A confirm of a paid hold stands before its commit. */
  lemma ToPaid(run: seq<State>, user: Id, ref: SeatRef, hold: Hold, n: nat) returns (longer: seq<State>, me: nat)
    requires run != [] && Run(run) && Below(Last(run).w.minter, n) && PaidUp(Last(run).w, user, ref, hold)
    ensures Onward(run, longer, n + 6) && me !in Last(run).reqs
    ensures OnlyReads(Last(run).w, Last(longer).w)
    ensures At(longer, me, OpConfirm(user, hold.session), Paid(Holds.WholeSecond(hold), Last(run).w.now))
  {
    hide Run, Below, At, Sales.SeatConfirmed, Ledger.HasCaptured, Landing, After, Take, Enabled;
    var op := OpConfirm(user, hold.session);
    var w, h := Last(run).w, Holds.WholeSecond(hold);
    var gated: seq<State>;
    gated, me := ToGate(run, op, hold, n);
    ActLands(gated, me, op, Gated(h, w.now), Pick(n + 4, true), Answered, n + 4);
    GateLands(Last(gated).w, me, op, h, w.now, Pick(n + 4, true), Answered);
    longer := Then(gated, me, Pick(n + 4, true));
    StaysOnward(run, gated, longer, me, n + 4, n + 6);
  }

  /** Steps of a new request leave the others waiting. */
  lemma StaysOnward(run: seq<State>, middle: seq<State>, longer: seq<State>, me: nat, m: nat, n: nat)
    requires Onward(run, middle, m) && me !in Last(run).reqs && middle <= longer && OthersWait(middle, longer, me)
    requires Run(longer) && Below(Last(longer).w.minter, n)
    ensures Onward(run, longer, n)
  {
    hide Run, Below;
  }

  /** Time passes. */
  lemma ToLater(run: seq<State>, to: int, n: nat) returns (longer: seq<State>)
    requires run != [] && Run(run) && Below(Last(run).w.minter, n) && Last(run).w.now <= to
    ensures Onward(run, longer, n) && Last(longer).w == Last(run).w.(now := to) && Last(longer).reqs == Last(run).reqs
  {
    hide Run, Below;
    RunGrows(run, Tick(to));
    longer := run + [Take(Last(run), Tick(to))];
  }

  /** One more answered call of a request that stands at pc. */
  lemma ToNext(run: seq<State>, me: nat, op: Op, pc: Pc, c: Choice, n: nat) returns (longer: seq<State>)
    requires run != [] && Run(run) && Below(Last(run).w.minter, n) && At(run, me, op, pc) && !pc.Done?
    requires c.a == Id(n) && c.b == Id(n + 1)
    ensures run <= longer && longer != [] && Run(longer) && Below(Last(longer).w.minter, n + 2)
    ensures At(longer, me, op, Landing(Last(run).w, me, op, pc, c, Answered)) && OthersWait(run, longer, me)
    ensures Last(longer).w == After(Last(run).w, me, op, pc, c, Answered)
  {
    hide Run, Below, At, Landing, After, Take, Enabled;
    ActLands(run, me, op, pc, c, Answered, n);
    longer := Then(run, me, c);
  }

  /** A waiting request still stands where it stood. */
  lemma StillAt(run: seq<State>, longer: seq<State>, me: nat, op: Op, pc: Pc)
    requires At(run, me, op, pc) && AllWait(run, longer)
    ensures At(longer, me, op, pc)
  {
  }

  lemma Granted(run: seq<State>, hold: Hold)
    requires run != [] && Run(run)
    requires hold.session in Last(run).w.holds.keys.sessions && Last(run).w.holds.keys.sessions[hold.session] == hold
    ensures hold.session in Last(run).w.holds.granted && Last(run).w.holds.granted[hold.session] == hold
  {
    LastOk(run);
  }

  lemma StartingBound(run: seq<State>) returns (n: nat)
    requires run != []
    ensures Below(Last(run).w.minter, n)
  {
    n := SomeBound(Last(run).w.minter.Keys);
    BoundIsBelow(Last(run).w.minter, n);
  }

  // ----- a late sale -----

  /** A booking can be committed after the granted hold has expired: the check came before. */
  lemma LateSaleHappens(run: seq<State>, user: Id, ref: SeatRef) returns (longer: seq<State>, b: Booking)
    requires run != [] && Run(run) && Buyable(Last(run).w, user, ref)
    ensures longer != [] && run <= longer && Run(longer) && IsSold(Last(longer).w, b) && b.Ref() == ref
    ensures b.session in Last(longer).w.holds.granted &&
      Last(longer).w.holds.granted[b.session].expiresAt <= b.confirmedAt
  {
    hide Run, Below, At, Buyable, AllWait, OthersWait, Landing, After, Sales.SeatConfirmed, Ledger.HasCaptured, Claimed;
    var n := StartingBound(run);
    var r1, hold := ToPaidUp(run, user, ref, n);
    var r2, me := ToPaid(r1, user, ref, hold, n + 30);
    var r3 := ToLater(r2, hold.expiresAt, n + 36);
    StillAt(r2, r3, me, OpConfirm(user, hold.session), Paid(Holds.WholeSecond(hold), Last(r1).w.now));
    longer, b := ToLateSale(r3, me, user, ref, hold, Last(r1).w.now, n + 36);
  }

  /** The commit of a confirm whose hold has expired since its check. */
  lemma ToLateSale(run: seq<State>, me: nat, user: Id, ref: SeatRef, hold: Hold, at: int, n: nat)
    returns (longer: seq<State>, b: Booking)
    requires run != [] && Run(run) && Below(Last(run).w.minter, n)
    requires At(run, me, OpConfirm(user, hold.session), Paid(Holds.WholeSecond(hold), at))
    requires var w := Last(run).w;
             && hold.session in w.holds.keys.sessions && w.holds.keys.sessions[hold.session] == hold
             && hold.Ref() == ref && w.now == hold.expiresAt
             && !Sales.SeatConfirmed(w.sales.rows, ref) && Sales.GetBySession(w.sales.rows, hold.session).Err?
    ensures longer != [] && run <= longer && Run(longer) && IsSold(Last(longer).w, b) && b.Ref() == ref
    ensures b.session in Last(longer).w.holds.granted
    ensures Last(longer).w.holds.granted[b.session].expiresAt <= b.confirmedAt
  {
    hide Run, Below, At, OthersWait, Landing, After, Sales.SeatConfirmed;
    var op, read, w := OpConfirm(user, hold.session), Holds.WholeSecond(hold), Last(run).w;
    Granted(run, hold);
    CommitLands(w, me, op, read, at, Pick(n, true), Answered);
    longer := ToNext(run, me, op, Paid(read, at), Pick(n, true), n);
    b := Order(read).(id := Id(n), confirmedAt := w.now);
    assert Last(longer).w.sales.rows[|w.sales.rows|] == b;
  }

  // ----- the gateway and the row disagree -----

  lemma LastIsActive(rows: seq<Payment>, session: Id)
    requires rows != [] && Ledger.ActiveFor(rows[|rows| - 1], session)
    ensures Ledger.GetActive(rows, session) == Ok(rows[|rows| - 1])
  {
  }

  /** A client's payment of the intended row stands before the charge. */
  lemma ToCharging(run: seq<State>, user: Id, ref: SeatRef, hold: Hold, row: Payment, n: nat)
    returns (longer: seq<State>, me: nat)
    requires run != [] && Run(run) && Below(Last(run).w.minter, n) && Intended(Last(run).w, user, ref, hold, row)
    ensures Onward(run, longer, n + 6) && OnlyReads(Last(run).w, Last(longer).w)
    ensures At(longer, me, OpPay(user, hold.session), Charging(row))
  {
    hide Run, Below, At, Landing, After, AllWait, OthersWait, Sales.SeatConfirmed;
    var op, gate := OpPay(user, hold.session), Gated(Holds.WholeSecond(hold), Last(run).w.now);
    var gated: seq<State>;
    gated, me := ToGate(run, op, hold, n);
    LastIsActive(Last(run).w.payments, hold.session);
    ActiveLands(Last(gated).w, me, op, gate, Pick(n + 4, true), Answered);
    longer := ToNext(gated, me, op, gate, Pick(n + 4, true), n + 4);
    StaysOnward(run, gated, longer, me, n + 4, n + 6);
  }

  /** The gateway answers the charge. */
  lemma ToAnswered(run: seq<State>, me: nat, op: Op, row: Payment, accepts: bool, n: nat) returns (longer: seq<State>)
    requires run != [] && Run(run) && Below(Last(run).w.minter, n) && op.OpPay? && At(run, me, op, Charging(row))
    ensures run <= longer && longer != [] && Run(longer) && Below(Last(longer).w.minter, n + 2)
    ensures At(longer, me, op, if accepts then Charged(row.intent) else Declined(row.intent))
    ensures Last(longer).w.payments == Last(run).w.payments
  {
    hide Run, Below, At, Landing, After, OthersWait;
    ChargeLands(Last(run).w, me, op, row, Pick(n, accepts), Answered);
    longer := ToNext(run, me, op, Charging(row), Pick(n, accepts), n);
  }

  /** A verified event arrives and is handled. */
  lemma ToHandled(run: seq<State>, event: Event, n: nat) returns (longer: seq<State>, me: nat, out: Outcome)
    requires run != [] && Run(run) && Below(Last(run).w.minter, n)
    ensures Onward(run, longer, n + 4) && me !in Last(run).reqs && At(longer, me, OpHook(event), Done(out))
    ensures Handles(Arrived(Last(run).w, OpHook(event)), Last(longer).w, Done(out), event)
  {
    hide Run, Below, AllWait, Serve, Alone;
    var op := OpHook(event);
    longer, me := ServeRuns(run, op, n, 2);
    HookAlone(Arrived(Last(run).w, op), me, event, Choices(n, 2));
    hide Handles;
    var pc := Serve(Arrived(Last(run).w, op), me, op, Choices(n, 2)).1;
    HandledIsDone(Arrived(Last(run).w, op), Last(longer).w, pc, event);
    out := pc.out;
  }

  lemma HandledIsDone(w: World, v: World, pc: Pc, event: Event)
    requires Handles(w, v, pc, event)
    ensures pc.Done?
  {
  }

  /** What an event leaves of the only open row of its intent. */
  lemma HandledRow(w: World, v: World, out: Outcome, event: Event, k: nat)
    requires Handles(Arrived(w, OpHook(event)), v, Done(out), event) && Ledger.Lawful(w.payments)
    requires k < |w.payments| && w.payments[k].intent == event.intent && Ledger.IsOpen(w.payments[k].status)
    requires event.kind != OtherKind
    ensures var pays := event.kind == CapturedKind && event.amount == w.payments[k].amount;
            && v.payments == w.payments[k := w.payments[k].(status := if pays then Captured
               else Failed, updatedAt := w.now)]
            && out == Acked(pays || event.kind == FailedKind, true)
            && Ledger.Has(v.payments, event.intent) && Ledger.FindIntent(v.payments, event.intent) == k
  {
    Ledger.FoundAt(w.payments, k);
    SameIntentsSameFind(w.payments, v.payments, event.intent);
  }

  lemma SameIntentsSameFind(a: seq<Payment>, b: seq<Payment>, intent: Id)
    requires |a| == |b| && forall i :: 0 <= i < |a| ==> a[i].intent == b[i].intent
    ensures Ledger.FindIntent(a, intent) == Ledger.FindIntent(b, intent)
  {
    var i, j := Ledger.FindIntent(a, intent), Ledger.FindIntent(b, intent);
    assert i < j || j < i || i == j;
  }

  /** A payment whose gateway has answered, and whose row an event has settled meanwhile. */
  ghost predicate Raced(run: seq<State>, me: nat, user: Id, pc: Pc, row: Payment) {
    && run != [] && Run(run) && At(run, me, OpPay(user, row.session), pc)
    && Last(run).w.payments != [] && row == Last(run).w.payments[|Last(run).w.payments| - 1]
    && Ledger.Has(Last(run).w.payments, row.intent)
    && Ledger.FindIntent(Last(run).w.payments, row.intent) == |Last(run).w.payments| - 1
  }

  function Answer(accepts: bool, intent: Id): Pc { if accepts then Charged(intent) else Declined(intent) }

  /** From before the charge to after the event. */
  lemma RaceOn(run: seq<State>, user: Id, open: Payment, me: nat, accepts: bool, event: Event, n: nat)
    returns (longer: seq<State>, row: Payment)
    requires run != [] && Run(run) && Below(Last(run).w.minter, n) &&
      At(run, me, OpPay(user, open.session), Charging(open))
    requires Last(run).w.payments != [] && open == Last(run).w.payments[|Last(run).w.payments| - 1] &&
      open.status == Intent
    requires event.kind != OtherKind && event.intent == open.intent
    ensures run <= longer && Raced(longer, me, user, Answer(accepts, open.intent), row)
    ensures Below(Last(longer).w.minter, n + 6)
    ensures row.status == if event.kind == CapturedKind && event.amount == open.amount then Captured else Failed
    ensures row.intent == open.intent && row.amount == open.amount && row.session == open.session
  {
    hide Run, Below, At, AllWait, OthersWait, Handles, Ledger.Lawful, Ledger.FindIntent;
    var op, k := OpPay(user, open.session), |Last(run).w.payments| - 1;
    var middle := ToAnswered(run, me, op, open, accepts, n);
    var q: nat, out: Outcome;
    longer, q, out := ToHandled(middle, event, n + 2);
    LastOk(middle);
    HandledRow(Last(middle).w, Last(longer).w, out, event, k);
    StillAt(middle, longer, me, op, Answer(accepts, open.intent));
    row := Last(longer).w.payments[k];
  }

  lemma ToRaced(run: seq<State>, user: Id, ref: SeatRef, accepts: bool, captured: bool)
    returns (longer: seq<State>, me: nat, row: Payment, n: nat)
    requires run != [] && Run(run) && Buyable(Last(run).w, user, ref)
    ensures run <= longer && Raced(longer, me, user, Answer(accepts, row.intent), row) &&
      Below(Last(longer).w.minter, n)
    ensures row.status == if captured then Captured else Failed
  {
    hide Run, Below, At, AllWait, Buyable, Standing, Raced;
    n := StartingBound(run);
    var r1, hold, open := ToIntended(run, user, ref, n);
    var r2: seq<State>;
    r2, me := ToCharging(r1, user, ref, hold, open, n + 20);
    var event := Event(if captured then CapturedKind else FailedKind, open.intent, open.amount);
    longer, row := RaceOn(r2, user, open, me, accepts, event, n + 26);
    n := n + 32;
  }

  /** A charge the gateway has accepted can meet a row that a failed event closed meanwhile: the money has moved, the
      client is refused and the row stays failed. */
  lemma ChargedRowFails(run: seq<State>, user: Id, ref: SeatRef) returns (longer: seq<State>, me: nat, row: Payment)
    requires run != [] && Run(run) && Buyable(Last(run).w, user, ref)
    ensures longer != [] && run <= longer && Run(longer)
    ensures row in Last(longer).w.payments && row.status == Failed && (row.intent, row.amount) in Last(longer).w.moved
    ensures At(longer, me, OpPay(user, row.session), Refuse(InvalidTransition))
  {
    hide Run, Below, At, Landing, After, Buyable, Ledger.FindIntent;
    var raced: seq<State>, n: nat;
    raced, me, row, n := ToRaced(run, user, ref, true, false);
    var op, pc := OpPay(user, row.session), Charged(row.intent);
    ChargeMoved(raced, me, op, row.intent);
    CaptureLands(Last(raced).w, me, op, pc, row.intent, Pick(n, true), Answered);
    longer := ToNext(raced, me, op, pc, Pick(n, true), n);
    ChargeMovedForGood(raced, longer, row.intent, row.amount);
  }

  lemma ChargeMoved(run: seq<State>, me: nat, op: Op, intent: Id)
    requires run != [] && Run(run) && op.OpPay? && At(run, me, op, Charged(intent)) &&
      Ledger.Has(Last(run).w.payments, intent)
    ensures (intent, Last(run).w.payments[Ledger.FindIntent(Last(run).w.payments, intent)].amount) in Last(run).w.moved
  {
    hide Init, Take, HoldsOk, SalesOk, PaymentsOk, PricesOk, Ledger.FindIntent;
    RunInv(run, |run| - 1);
    assert LocalOk(Last(run).w, me, Last(run).reqs[me].op, Last(run).reqs[me].pc);
  }

  lemma ChargeMovedForGood(run: seq<State>, longer: seq<State>, intent: Id, amount: int)
    requires run != [] && run <= longer && Run(longer) && (intent, amount) in Last(run).w.moved
    ensures longer != [] && (intent, amount) in Last(longer).w.moved
  {
    hide Init, Take, Inv, Persists;
    assert run[|run| - 1] == longer[|run| - 1];
    RunLater(longer, |run| - 1, |longer| - 1);
  }

  /** A declined charge can meet a row that a captured event closed meanwhile: the client is told "declined", and has
      paid. */
  lemma DeclinedRowIsCaptured(run: seq<State>, user: Id, ref: SeatRef)
    returns (longer: seq<State>, me: nat, row: Payment)
    requires run != [] && Run(run) && Buyable(Last(run).w, user, ref)
    ensures longer != [] && run <= longer && Run(longer)
    ensures row in Last(longer).w.payments && row.status == Captured
    ensures At(longer, me, OpPay(user, row.session), Refuse(PaymentDeclined))
  {
    hide Run, Below, At, Landing, After, Buyable, Ledger.FindIntent;
    var raced: seq<State>, n: nat;
    raced, me, row, n := ToRaced(run, user, ref, false, true);
    var op, pc := OpPay(user, row.session), Declined(row.intent);
    FailLands(Last(raced).w, me, op, pc, row.intent, Pick(n, true), Answered);
    longer := ToNext(raced, me, op, pc, Pick(n, true), n);
  }

  // ----- a replayed failure claims to be applied -----

  /** A failed event closes the open row. */
  lemma ToFailed(run: seq<State>, open: Payment, n: nat) returns (longer: seq<State>, me: nat)
    requires run != [] && Run(run) && Below(Last(run).w.minter, n)
    requires open in Last(run).w.payments && open.status == Intent
    ensures Onward(run, longer, n + 4)
    ensures At(longer, me, OpHook(Event(FailedKind, open.intent, 0)), Done(Acked(true, true)))
    ensures var rows := Last(longer).w.payments;
            Ledger.Has(rows, open.intent) && rows[Ledger.FindIntent(rows, open.intent)].status == Failed
  {
    hide Run, Below, At, AllWait, Ledger.Lawful, Handles, Ledger.FindIntent;
    var event := Event(FailedKind, open.intent, 0);
    var out: Outcome;
    longer, me, out := ToHandled(run, event, n);
    LastOk(run);
    var k :| 0 <= k < |Last(run).w.payments| && Last(run).w.payments[k] == open;
    HandledRow(Last(run).w, Last(longer).w, out, event, k);
  }

  /** A failed event delivered twice: both deliveries answer that they were applied, and the second changes no row. */
  lemma FailedReplayIsReported(run: seq<State>, user: Id, ref: SeatRef)
    returns (middle: seq<State>, longer: seq<State>, event: Event, first: nat, second: nat)
    requires run != [] && Run(run) && Buyable(Last(run).w, user, ref)
    ensures middle != [] && longer != [] && run <= middle <= longer && Run(longer) && event.kind == FailedKind
    ensures At(middle, first, OpHook(event), Done(Acked(true, true))) && second !in Last(middle).reqs
    ensures At(longer, second, OpHook(event), Done(Acked(true, true)))
    ensures Last(longer).w.payments == Last(middle).w.payments
  {
    hide Run, Below, At, AllWait, Buyable, Standing, Handles, Ledger.Has;
    var n := StartingBound(run);
    var r1, hold, open := ToIntended(run, user, ref, n);
    event := Event(FailedKind, open.intent, 0);
    var out: Outcome;
    middle, first := ToFailed(r1, open, n + 20);
    longer, second, out := ToHandled(middle, event, n + 24);
    ReplayHandled(Last(middle).w, Last(longer).w, out, event);
  }

  lemma ReplayHandled(w: World, v: World, out: Outcome, event: Event)
    requires Handles(Arrived(w, OpHook(event)), v, Done(out), event) && event.kind == FailedKind
    requires Ledger.Has(w.payments, event.intent) &&
      w.payments[Ledger.FindIntent(w.payments, event.intent)].status == Failed
    ensures v.payments == w.payments && out == Acked(true, true)
  {
  }

  // ----- a seat map misses a sale -----

  /** A map request has read the bookings, not this seat among them, while a confirm of its hold stands before
      its commit. */
  ghost predicate InGap(s: State, q: nat, r: nat, ref: SeatRef, booked: set<Seat>, user: Id, hold: Hold, at: int) {
    && q != r && q in s.reqs && s.reqs[q] == Request(OpMap(ref.screening), Sold(booked)) && ref.seat !in booked
    && r in s.reqs && s.reqs[r] == Request(OpConfirm(user, hold.session), Paid(Holds.WholeSecond(hold), at))
    && PaidUp(s.w, user, ref, hold)
  }

  lemma ToMapRead(run: seq<State>, user: Id, ref: SeatRef, hold: Hold, n: nat)
    returns (longer: seq<State>, q: nat, booked: set<Seat>)
    requires run != [] && Run(run) && Below(Last(run).w.minter, n) && PaidUp(Last(run).w, user, ref, hold)
    ensures Onward(run, longer, n + 4) && OnlyReads(Last(run).w, Last(longer).w)
    ensures At(longer, q, OpMap(ref.screening), Sold(booked)) && ref.seat !in booked
  {
    hide Run, Below, AllWait, Ledger.HasCaptured, At, Landing, After, OthersWait, Sales.ConfirmedSeats;
    var op, w := OpMap(ref.screening), Last(run).w;
    InCatalogue(run, hold);
    var first: seq<State>;
    first, q := ServeRuns(run, op, n, 0);
    assert Choices(n, 0) == [];
    ScreeningLands(w, q, op, Start, Pick(n, true), Answered, ref.screening);
    var second := ToNext(first, q, op, Start, Pick(n, true), n);
    MapLands(Last(second).w, q, op, Pick(n + 2, true), Answered);
    longer := ToNext(second, q, op, OnGrid, Pick(n + 2, true), n + 2);
    booked := Sales.ConfirmedSeats(w.sales.rows, ref.screening);
    ProtocolLimits.ConfirmedSeatsAre(w.sales.rows, ref.screening, ref.seat);
    AllWaitTwice(run, first, second, q);
    AllWaitTwice(run, second, longer, q);
  }

  lemma AllWaitTwice(run: seq<State>, middle: seq<State>, longer: seq<State>, me: nat)
    requires AllWait(run, middle) && OthersWait(middle, longer, me) && me !in Last(run).reqs
    ensures AllWait(run, longer)
  {
  }

  lemma InCatalogue(run: seq<State>, hold: Hold)
    requires run != [] && Run(run)
    requires hold.session in Last(run).w.holds.keys.sessions && Last(run).w.holds.keys.sessions[hold.session] == hold
    ensures hold.screening in Last(run).w.screenings
  {
    LastOk(run);
    Granted(run, hold);
    assert HoldsOk(Last(run).w);
  }

  lemma ToGap(run: seq<State>, user: Id, ref: SeatRef)
    returns (longer: seq<State>, q: nat, r: nat, booked: set<Seat>, hold: Hold, at: int, n: nat)
    requires run != [] && Run(run) && Buyable(Last(run).w, user, ref)
    ensures run <= longer && longer != [] && Run(longer) && Below(Last(longer).w.minter, n)
    ensures InGap(Last(longer), q, r, ref, booked, user, hold, at)
  {
    hide Run, Below, AllWait, Ledger.HasCaptured;
    n := StartingBound(run);
    var r1: seq<State>;
    r1, hold := ToPaidUp(run, user, ref, n);
    var r2: seq<State>;
    r2, q, booked := ToMapRead(r1, user, ref, hold, n + 30);
    at := Last(r2).w.now;
    longer, r := ToPaid(r2, user, ref, hold, n + 34);
    StillAt(r2, longer, q, OpMap(ref.screening), Sold(booked));
    n := n + 40;
  }

  /** The confirm commits: the seat is sold, the hold still stands in the store. */
  lemma ToSold(run: seq<State>, me: nat, user: Id, ref: SeatRef, hold: Hold, at: int, n: nat)
    returns (longer: seq<State>, b: Booking)
    requires run != [] && Run(run) && Below(Last(run).w.minter, n) && PaidUp(Last(run).w, user, ref, hold)
    requires At(run, me, OpConfirm(user, hold.session), Paid(Holds.WholeSecond(hold), at))
    ensures run <= longer && longer != [] && Run(longer) && Below(Last(longer).w.minter, n + 2) &&
      OthersWait(run, longer, me)
    ensures At(longer, me, OpConfirm(user, hold.session), Cleaning(b))
    ensures Last(longer).w.holds == Last(run).w.holds && Sales.SeatConfirmed(Last(longer).w.sales.rows, ref)
  {
    hide Run, Below, At, Landing, After, OthersWait, Ledger.HasCaptured;
    var op, read, w := OpConfirm(user, hold.session), Holds.WholeSecond(hold), Last(run).w;
    CommitLands(w, me, op, read, at, Pick(n, true), Answered);
    longer := ToNext(run, me, op, Paid(read, at), Pick(n, true), n);
    b := Order(read).(id := Id(n), confirmedAt := w.now);
    assert Sales.GetBySession(w.sales.rows, read.session).Err?;
    assert Last(longer).w.sales.rows[|w.sales.rows|] == b && b.Ref() == ref;
  }

  /** Its cleanup takes the seat key away. */
  lemma ToCleaned(run: seq<State>, me: nat, user: Id, ref: SeatRef, hold: Hold, b: Booking, n: nat)
    returns (longer: seq<State>)
    requires run != [] && Run(run) && Below(Last(run).w.minter, n) &&
      At(run, me, OpConfirm(user, hold.session), Cleaning(b))
    requires var keys := Last(run).w.holds.keys;
             && hold.session in keys.sessions && keys.sessions[hold.session] == hold && hold.user == user
             && hold.Ref() == ref && (ref in keys.seats ==> keys.seats[ref] == hold.token)
    ensures run <= longer && longer != [] && Run(longer) && Below(Last(longer).w.minter, n + 2) &&
      OthersWait(run, longer, me)
    ensures Last(longer).w.sales == Last(run).w.sales && ref !in Last(longer).w.holds.keys.seats
  {
    hide Run, Below, At, Landing, After, OthersWait;
    var op := OpConfirm(user, hold.session);
    ReleaseLands(Last(run).w, me, op, Cleaning(b), Pick(n, true), Answered);
    longer := ToNext(run, me, op, Cleaning(b), Pick(n, true), n);
  }

  lemma StillWaits(run: seq<State>, longer: seq<State>, me: nat, q: nat, op: Op, pc: Pc)
    requires At(run, q, op, pc) && OthersWait(run, longer, me) && q != me
    ensures At(longer, q, op, pc)
  {
  }

  /** The map can show a seat as available that was held when the map read the bookings and is sold when it is shown. */
  lemma MapMissesSale(run: seq<State>, user: Id, ref: SeatRef)
    returns (middle: seq<State>, longer: seq<State>, q: nat, booked: set<Seat>, held: set<Seat>)
    requires run != [] && Run(run) && Buyable(Last(run).w, user, ref)
    ensures middle != [] && longer != [] && run <= middle <= longer && Run(longer)
    ensures At(middle, q, OpMap(ref.screening), Sold(booked)) && ref in Last(middle).w.holds.keys.seats
    ensures At(longer, q, OpMap(ref.screening), Done(MapShown(booked, held)))
    ensures Geometry.StatusOf(booked, held, ref.seat) == Available &&
      Sales.SeatConfirmed(Last(longer).w.sales.rows, ref)
  {
    hide Run, Below, AllWait, OthersWait, Landing, After, Ledger.HasCaptured, Sales.SeatConfirmed, Buyable, HeldSeats;
    var r: nat, hold: Hold, at: int, n: nat;
    middle, q, r, booked, hold, at, n := ToGap(run, user, ref);
    var show := OpMap(ref.screening);
    hide At;
    var sold, b := ToSold(middle, r, user, ref, hold, at, n);
    var cleaned := ToCleaned(sold, r, user, ref, hold, b, n + 2);
    StillWaits(middle, sold, r, q, show, Sold(booked));
    StillWaits(sold, cleaned, r, q, show, Sold(booked));
    HeldLands(Last(cleaned).w, q, show, booked, Pick(n + 4, true), Answered);
    longer := ToNext(cleaned, q, show, Sold(booked), Pick(n + 4, true), n + 4);
    held := HeldSeats(Last(cleaned).w.holds.keys, ref.screening);
    ProtocolLimits.HeldSeatsAre(Last(cleaned).w.holds.keys, ref.screening, ref.seat);
  }

  // ----- a sale under another hold -----

  /** The owner gives the hold up. */
  lemma ToReleased(run: seq<State>, hold: Hold, n: nat) returns (longer: seq<State>)
    requires run != [] && Run(run) && Below(Last(run).w.minter, n)
    requires hold.session in Last(run).w.holds.keys.sessions && Last(run).w.holds.keys.sessions[hold.session] == hold
    ensures Onward(run, longer, n + 2)
    ensures var w, v := Last(run).w, Last(longer).w;
            v == w.(minter := v.minter, holds := v.holds) && Holds.GivesBack(w.holds.keys, v.holds.keys, hold)
  {
    hide Run, Below, At, AllWait, OthersWait, Landing, After, Holds.Release, Holds.GivesBack;
    Holds.ReleaseDecides(Last(run).w.holds.keys, hold.session, hold.user);
    RecordsAreFiled(run, hold.session);
    var op := OpRelease(hold.user, hold.session);
    var first: seq<State>, me: nat;
    first, me := ServeRuns(run, op, n, 0);
    assert Choices(n, 0) == [];
    ReleaseLands(Last(first).w, me, op, Start, Pick(n, true), Answered);
    longer := ToNext(first, me, op, Start, Pick(n, true), n);
    AllWaitTwice(run, first, longer, me);
  }

  /** Once the hold is given up the seat is free again. */
  lemma BuyableAgain(w: World, v: World, u: World, user: Id, ref: SeatRef, hold: Hold)
    requires Buyable(w, user, ref) && Claimed(w, v, hold) && hold.user == user && hold.Ref() == ref
    requires OnlyReads(v.(holds := u.holds), u) && Holds.GivesBack(v.holds.keys, u.holds.keys, hold)
    ensures Buyable(u, user, ref)
  {
    HoldComesAndGoes(w.holds.keys, hold, u.holds.keys);
  }

  /** A confirm stands before its commit; its hold has been given up and another session holds the seat. */
  ghost predicate Retaken(run: seq<State>, me: nat, user: Id, ref: SeatRef, read: Hold, at: int, other: Hold) {
    && run != [] && Run(run) && At(run, me, OpConfirm(user, read.session), Paid(read, at))
    && read.Ref() == ref && !Sales.SeatConfirmed(Last(run).w.sales.rows, ref)
    && Sales.GetBySession(Last(run).w.sales.rows, read.session).Err?
    && HeldBy(Last(run).w, ref, other) && other.session != read.session
  }

  /** A live hold of the seat, in all its keys. */
  ghost predicate HeldBy(w: World, ref: SeatRef, other: Hold) {
    var keys := w.holds.keys;
    && other.Ref() == ref && other.session in keys.sessions && keys.sessions[other.session] == other
    && ref in keys.seats && keys.seats[ref] == other.token && w.now < other.expiresAt
  }

  lemma Retake(run: seq<State>, user: Id, ref: SeatRef, n: nat) returns (longer: seq<State>, other: Hold)
    requires run != [] && Run(run) && Below(Last(run).w.minter, n) && Buyable(Last(run).w, user, ref)
    ensures Onward(run, longer, n + 8) && HeldBy(Last(longer).w, ref, other) && other.session == Id(n + 4)
    ensures Last(longer).w.sales == Last(run).w.sales
  {
    hide Run, Below, AllWait, Sales.SeatConfirmed;
    longer, other := HoldPhase(run, user, ref, n);
  }

  lemma ToRetaken(run: seq<State>, user: Id, ref: SeatRef)
    returns (longer: seq<State>, me: nat, read: Hold, at: int, other: Hold, n: nat)
    requires run != [] && Run(run) && Buyable(Last(run).w, user, ref)
    ensures run <= longer && Retaken(longer, me, user, ref, read, at, other) && Below(Last(longer).w.minter, n)
  {
    hide Run, Below, At, AllWait, OthersWait, Sales.SeatConfirmed, Ledger.HasCaptured, Holds.GivesBack, Buyable,
         HeldBy, Holds.Granted;
    n := StartingBound(run);
    var r1, hold := ToPaidUp(run, user, ref, n);
    var r2: seq<State>;
    r2, me := ToPaid(r1, user, ref, hold, n + 30);
    read, at := Holds.WholeSecond(hold), Last(r1).w.now;
    var r3 := ToReleased(r2, hold, n + 36);
    BuyableAgain(Last(run).w, Last(r1).w, Last(r3).w, user, ref, hold);
    longer, other := Retake(r3, user, ref, n + 38);
    StillAt(r2, r3, me, OpConfirm(user, hold.session), Paid(read, at));
    StillAt(r3, longer, me, OpConfirm(user, hold.session), Paid(read, at));
    OtherSession(r2, hold, n + 36, other);
    n := n + 46;
  }

  /** A confirm that has read its hold can sell the seat after the hold was given up and another session holds it. */
  lemma SaleUnderAnotherHold(run: seq<State>, user: Id, ref: SeatRef)
    returns (longer: seq<State>, b: Booking, other: Hold)
    requires run != [] && Run(run) && Buyable(Last(run).w, user, ref)
    ensures longer != [] && run <= longer && Run(longer) && IsSold(Last(longer).w, b) && b.Ref() == ref
    ensures HeldBy(Last(longer).w, ref, other) && other.session != b.session
  {
    hide Run, Below, At, OthersWait, Landing, After, Sales.SeatConfirmed, Buyable;
    var middle: seq<State>, me: nat, read: Hold, at: int, n: nat;
    middle, me, read, at, other, n := ToRetaken(run, user, ref);
    var op, w := OpConfirm(user, read.session), Last(middle).w;
    CommitLands(w, me, op, read, at, Pick(n, true), Answered);
    longer := ToNext(middle, me, op, Paid(read, at), Pick(n, true), n);
    b := Order(read).(id := Id(n), confirmedAt := w.now);
    assert Last(longer).w.sales.rows[|w.sales.rows|] == b;
  }

  lemma OtherSession(run: seq<State>, hold: Hold, n: nat, other: Hold)
    requires run != [] && Run(run) && Below(Last(run).w.minter, n) && other.session.Id? && other.session.n >= n
    requires hold.session in Last(run).w.holds.keys.sessions && Last(run).w.holds.keys.sessions[hold.session] == hold
    ensures other.session != hold.session
  {
    LastOk(run);
    Granted(run, hold);
    NamesNothing(Last(run).w, n, other.session, hold.user);
  }
}
