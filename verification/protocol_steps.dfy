/** Every step of the protocol keeps the invariant. */
module ProtocolSteps {
  import opened Domain
  import opened Protocol
  import opened ProtocolFacts
  import Geometry
  import Holds
  import Ledger
  import Sales

  /** A step of request `me` from a lawful world leads to a later lawful world. */
  ghost predicate Sound(w: World, v: World, me: nat) { WorldOk(v) && Later(w, v) && NewBy(w, v, me) }

  /** A minted identifier that names nothing yet. */
  ghost predicate Unused(w: World, me: nat, id: Id) {
    && id != NoId && id in w.minter && w.minter[id] == me
    && (forall x :: x in w.holds.granted ==> x != id && w.holds.granted[x].token != id)
    && (forall k :: 0 <= k < |w.payments| ==> w.payments[k].intent != id)
    && (forall k :: 0 <= k < |w.sales.rows| ==> w.sales.rows[k].id != id)
    && (forall k :: 0 <= k < |w.sales.outbox| ==> w.sales.outbox[k].id != id)
  }

  ghost predicate Fresh(w: World, me: nat, c: Choice) { c.a != c.b && Unused(w, me, c.a) && Unused(w, me, c.b) }

  // ----- parts of a world that a change leaves alone stay lawful -----

  lemma HoldsStay(w: World, v: World)
    requires HoldsOk(w) && Later(w, v) && v.holds == w.holds
    ensures HoldsOk(v)
  {
  }

  lemma SalesStay(w: World, v: World)
    requires SalesOk(w) && Later(w, v) && v.sales == w.sales && v.creator == w.creator && v.checked == w.checked
    ensures SalesOk(v)
  {
    forall k | 0 <= k < |v.sales.rows| ensures SaleOk(v, v.sales.rows[k]) {
      SaleStays(w, v, w.sales.rows[k]);
    }
  }

  lemma SaleStays(w: World, v: World, b: Booking)
    requires SaleOk(w, b) && Later(w, v)
    ensures SaleOk(v, b)
  {
    CapturedForGood(w, v, b.session);
  }

  lemma PaymentsStay(w: World, v: World)
    requires PaymentsOk(w) && Later(w, v) && v.payments == w.payments && v.captor == w.captor
    ensures PaymentsOk(v)
  {
    forall k | 0 <= k < |v.payments| ensures PaymentOk(v, v.payments[k]) {
      assert PaymentOk(w, w.payments[k]);
    }
  }

  lemma EvolvesSame(rows: seq<Payment>)
    ensures Ledger.Evolves(rows, rows)
  {
  }

  // ----- the changes of the world, one by one -----

  lemma MintSound(w: World, me: nat, c: Choice)
    requires WorldOk(w) && c.a != NoId && c.b != NoId && c.a != c.b && c.a !in w.minter && c.b !in w.minter
    ensures Sound(w, Mint(w, me, c), me) && Fresh(Mint(w, me, c), me, c)
    ensures forall r: nat :: NewBy(w, Mint(w, me, c), r)
  {
    hide HoldsOk, SalesOk, PaymentsOk, Ledger.Evolves, Unused;
    var v := Mint(w, me, c);
    EvolvesSame(w.payments);
    HoldsStay(w, v);
    SalesStay(w, v);
    PaymentsStay(w, v);
    MintUnused(w, me, c, c.a);
    MintUnused(w, me, c, c.b);
  }

  /** Whatever a world names was minted before. */
  lemma MintUnused(w: World, me: nat, c: Choice, id: Id)
    requires WorldOk(w) && id != NoId && id !in w.minter && (id == c.a || id == c.b)
    ensures Unused(Mint(w, me, c), me, id)
  {
    hide Sales.Lawful, Ledger.Lawful, PricesOk, Ledger.FindIntent;
    forall k | 0 <= k < |w.payments| ensures w.payments[k].intent in w.minter {
      assert PaymentOk(w, w.payments[k]);
    }
    forall k | 0 <= k < |w.sales.rows| ensures w.sales.rows[k].id in w.minter {
      assert SaleOk(w, w.sales.rows[k]);
    }
  }

  /** A change of the hold store alone that only adds one hold the request minted. */
  lemma NewHoldsSound(w: World, v: World, me: nat)
    requires WorldOk(w) && v == w.(holds := v.holds) && HoldsOk(v)
    requires Extends(w.holds.granted, v.holds.granted) && NewBy(w, v, me)
    ensures Sound(w, v, me)
  {
    hide HoldsOk;
    EvolvesSame(w.payments);
    SalesStay(w, v);
    PaymentsStay(w, v);
  }

  lemma ClaimSound(w: World, me: nat, hold: Hold)
    requires WorldOk(w) && Unspent(w, me, hold)
    requires hold.screening in w.screenings && Geometry.HasSeat(w.screenings[hold.screening], hold.seat)
    ensures Sound(w, w.(holds := Holds.Apply(w.holds, w.max, Holds.ClaimOp(hold))), me)
  {
    hide SalesOk, PaymentsOk, Holds.Inv, Holds.Apply, Holds.Answer;
    Holds.ClaimInv(w.holds, w.max, hold);
    Holds.GrantedBy(w.holds, w.max, Holds.ClaimOp(hold));
    NewHoldsSound(w, w.(holds := Holds.Apply(w.holds, w.max, Holds.ClaimOp(hold))), me);
  }

  lemma HoldKeysSound(w: World, me: nat, op: Holds.Op)
    requires WorldOk(w) && !op.ClaimOp?
    ensures Sound(w, w.(holds := Holds.Apply(w.holds, w.max, op)), me)
  {
    hide SalesOk, PaymentsOk, Holds.Inv, Holds.Apply, Holds.Answer;
    Holds.ApplyInv(w.holds, w.max, op);
    Holds.GrantedBy(w.holds, w.max, op);
    NewHoldsSound(w, w.(holds := Holds.Apply(w.holds, w.max, op)), me);
  }

  /** The world after the sale of a hold: both rows written, the record extended. */
  function SoldWorld(w: World, me: nat, hold: Hold, at: int, row: Booking, event: Id): World {
    w.(sales := Sales.Table(w.sales.rows + [row], w.sales.outbox + [Sales.EventOf(row, event)]),
       checked := w.checked[hold.session := at], creator := w.creator[hold.session := me])
  }

  lemma SoldWorldLater(w: World, me: nat, hold: Hold, at: int, row: Booking, event: Id)
    requires hold.session !in w.checked && hold.session !in w.creator
    ensures Later(w, SoldWorld(w, me, hold, at, row, event)) && NewBy(w, SoldWorld(w, me, hold, at, row, event), me)
  {
    EvolvesSame(w.payments);
  }

  /** What a sale may rest on. */
  ghost predicate MaySell(w: World, hold: Hold, at: int) {
    && Known(w, hold, hold.session) && at < hold.expiresAt && at <= w.now
    && Ledger.HasCaptured(w.payments, hold.session)
  }

  lemma NewSaleOk(w: World, me: nat, hold: Hold, at: int, row: Booking, event: Id)
    requires MaySell(w, hold, at) && row == Order(hold).(id := row.id, confirmedAt := row.confirmedAt)
    requires row.id in w.minter
    ensures SaleOk(SoldWorld(w, me, hold, at, row, event), row)
  {
  }

  lemma EverySaleOk(w: World, me: nat, hold: Hold, at: int, row: Booking, event: Id)
    requires (forall k :: 0 <= k < |w.sales.rows| ==> SaleOk(w, w.sales.rows[k])) && MaySell(w, hold, at)
    requires hold.session !in w.creator && hold.session !in w.checked
    requires row == Order(hold).(id := row.id, confirmedAt := row.confirmedAt) && row.id in w.minter
    ensures var v := SoldWorld(w, me, hold, at, row, event);
            forall k :: 0 <= k < |v.sales.rows| ==> SaleOk(v, v.sales.rows[k])
  {
    var v := SoldWorld(w, me, hold, at, row, event);
    SoldWorldLater(w, me, hold, at, row, event);
    NewSaleOk(w, me, hold, at, row, event);
    hide Later, MaySell, SaleOk;
    forall k | 0 <= k < |w.sales.rows| ensures SaleOk(v, w.sales.rows[k]) {
      SaleStays(w, v, w.sales.rows[k]);
    }
  }

  lemma SoldWorldSales(w: World, me: nat, hold: Hold, at: int, row: Booking, event: Id)
    requires SalesOk(w) && MaySell(w, hold, at) && hold.session !in w.creator
    requires row == Order(hold).(id := row.id, confirmedAt := row.confirmedAt) && row.id in w.minter
    requires event in w.minter
    requires Sales.Lawful(SoldWorld(w, me, hold, at, row, event).sales)
    ensures SalesOk(SoldWorld(w, me, hold, at, row, event))
  {
    hide Sales.Lawful, MaySell, SaleOk;
    CreatorsFound(w, me, hold, at, row, event);
    EverySaleOk(w, me, hold, at, row, event);
  }

  /** Whoever passed the expiry check and saw captured money sells the seat of its own hold. */
  lemma SoldWorldOk(w: World, me: nat, hold: Hold, at: int, row: Booking, event: Id)
    requires WorldOk(w) && MaySell(w, hold, at) && hold.session !in w.creator
    requires row == Order(hold).(id := row.id, confirmedAt := row.confirmedAt) && row.id in w.minter
    requires event in w.minter
    requires Sales.Lawful(SoldWorld(w, me, hold, at, row, event).sales)
    ensures Sound(w, SoldWorld(w, me, hold, at, row, event), me)
  {
    var v := SoldWorld(w, me, hold, at, row, event);
    assert hold.session !in w.checked;
    SoldWorldSales(w, me, hold, at, row, event);
    SoldWorldLater(w, me, hold, at, row, event);
    hide Sales.Lawful, Later, SalesOk, MaySell;
    HoldsStay(w, v);
    PaymentsStay(w, v);
  }

  lemma CreatorsFound(w: World, me: nat, hold: Hold, at: int, row: Booking, event: Id)
    requires SalesOk(w) && row.session == hold.session
    ensures var v := SoldWorld(w, me, hold, at, row, event);
            forall x :: x in v.creator ==> Sales.FindSession(v.sales.rows, x) >= 0
  {
    var v := SoldWorld(w, me, hold, at, row, event);
    forall x | x in v.creator ensures Sales.FindSession(v.sales.rows, x) >= 0 {
      assert v.sales.rows[|w.sales.rows|].session == hold.session;
      if x != hold.session {
        var k := Sales.FindSession(w.sales.rows, x);
        assert v.sales.rows[k].session == x;
      }
    }
  }

  lemma CommitSound(w: World, me: nat, hold: Hold, at: int, c: Choice)
    requires WorldOk(w) && Fresh(w, me, c)
    requires MaySell(w, hold, at)
    ensures Sound(w, CommitExec(w, me, hold, at, c).0, me)
  {
    var (answer, table) := Sales.Commit(w.sales, Order(hold), c.a, c.b, w.now, c.reported);
    Sales.CommitLawful(w.sales, Order(hold), c.a, c.b, w.now, c.reported);
    if answer.Ok? {
      assert hold.session !in w.creator;
      hide WorldOk, Sales.Lawful, MaySell;
      assert CommitExec(w, me, hold, at, c).0 == SoldWorld(w, me, hold, at, answer.value, c.b);
      SoldWorldOk(w, me, hold, at, answer.value, c.b);
    } else {
      Unchanged(w, me);
    }
  }

  lemma Unchanged(w: World, me: nat)
    requires WorldOk(w)
    ensures Sound(w, w, me)
  {
    hide WorldOk;
    EvolvesSame(w.payments);
  }

  // ----- payments -----

  lemma NewRowsSound(w: World, v: World, me: nat)
    requires WorldOk(w) && v == w.(payments := v.payments, captor := v.captor)
    requires PaymentsOk(v) && Ledger.Evolves(w.payments, v.payments) && Extends(w.captor, v.captor) && NewBy(w, v, me)
    ensures Sound(w, v, me)
  {
    hide PaymentsOk, Ledger.Evolves;
    HoldsStay(w, v);
    SalesStay(w, v);
  }

  lemma InsertPaymentsOk(w: World, session: Id, intent: Id, price: int, id: Id)
    requires PaymentsOk(w) && intent in w.minter
    requires session in w.holds.granted && (w.holds.granted[session].screening, price) in w.prices
    ensures PaymentsOk(w.(payments := Ledger.Insert(w.payments, NewRow(session, intent, price), id, w.now).1))
  {
    var row := NewRow(session, intent, price);
    var v := w.(payments := Ledger.Insert(w.payments, row, id, w.now).1);
    Ledger.InsertLawful(w.payments, row, id, w.now);
    forall k | 0 <= k < |v.payments| ensures PaymentOk(v, v.payments[k]) {
      if k < |w.payments| {
        assert PaymentOk(w, w.payments[k]);
      }
    }
    forall i ensures Ledger.IsCaptured(v.payments, i) <==> Ledger.IsCaptured(w.payments, i) {
      Ledger.InsertCapturesNothing(w.payments, row, id, w.now, i);
      Ledger.CapturedStays(w.payments, v.payments, i);
    }
  }

  lemma InsertSound(w: World, me: nat, session: Id, intent: Id, price: int, id: Id)
    requires WorldOk(w) && UnspentIntent(w, me, intent)
    requires session in w.holds.granted && (w.holds.granted[session].screening, price) in w.prices
    ensures Sound(w, w.(payments := Ledger.Insert(w.payments, NewRow(session, intent, price), id, w.now).1), me)
  {
    InsertPaymentsOk(w, session, intent, price, id);
    Ledger.InsertLawful(w.payments, NewRow(session, intent, price), id, w.now);
    hide HoldsOk, SalesOk, Ledger.Lawful, Ledger.Evolves, Ledger.IsCaptured;
    NewRowsSound(w, w.(payments := Ledger.Insert(w.payments, NewRow(session, intent, price), id, w.now).1), me);
  }

  lemma CapturePaymentsOk(w: World, me: nat, intent: Id)
    requires PaymentsOk(w) && Ledger.Has(w.payments, intent)
    requires (intent, w.payments[Ledger.FindIntent(w.payments, intent)].amount) in w.moved
    ensures PaymentsOk(CaptureExec(w, me, intent).1)
  {
    var v := CaptureExec(w, me, intent).1;
    Ledger.CaptureLawful(w.payments, intent, w.now);
    forall k | 0 <= k < |v.payments| ensures PaymentOk(v, v.payments[k]) {
      assert PaymentOk(w, w.payments[k]);
    }
    forall i ensures i in v.captor <==> Ledger.IsCaptured(v.payments, i) {
      Ledger.MoveOfCapture(w.payments, intent, w.now, i);
      Ledger.CapturedStays(w.payments, v.payments, i);
    }
  }

  lemma CaptureRecorded(w: World, me: nat, intent: Id)
    requires PaymentsOk(w)
    ensures var (answer, v) := CaptureExec(w, me, intent);
            && Extends(w.captor, v.captor)
            && Ledger.Evolves(w.payments, v.payments) && |v.payments| == |w.payments|
            && (answer.Ok? && answer.value.1 ==> intent in v.captor && v.captor[intent] == me)
  {
    Ledger.CaptureLawful(w.payments, intent, w.now);
    assert ReportsMove(w, intent) ==> !Ledger.IsCaptured(w.payments, intent);
  }

  predicate ReportsMove(w: World, intent: Id) {
    var answer := Ledger.Capture(w.payments, intent, w.now).0; answer.Ok? && answer.value.1
  }

  /** A capture backed by money that moved, in full, is sound; it names its captor exactly if it is the one
      that moved the row. */
  lemma CaptureSound(w: World, me: nat, intent: Id)
    requires WorldOk(w) && Ledger.Has(w.payments, intent)
    requires (intent, w.payments[Ledger.FindIntent(w.payments, intent)].amount) in w.moved
    ensures var (answer, v) := CaptureExec(w, me, intent);
            && Sound(w, v, me)
            && (answer.Ok? && answer.value.1 ==> intent in v.captor && v.captor[intent] == me)
  {
    hide HoldsOk, SalesOk, PaymentsOk, PricesOk, Ledger.Evolves, Ledger.Capture, Extends;
    CapturePaymentsOk(w, me, intent);
    CaptureRecorded(w, me, intent);
    NewRowsSound(w, CaptureExec(w, me, intent).1, me);
  }

  lemma FailPaymentsOk(w: World, intent: Id)
    requires PaymentsOk(w)
    ensures PaymentsOk(w.(payments := Ledger.MarkFailed(w.payments, intent, w.now).1))
  {
    var v := w.(payments := Ledger.MarkFailed(w.payments, intent, w.now).1);
    Ledger.MarkFailedLawful(w.payments, intent, w.now);
    forall k | 0 <= k < |v.payments| ensures PaymentOk(v, v.payments[k]) {
      assert PaymentOk(w, w.payments[k]);
    }
    forall i ensures i in v.captor <==> Ledger.IsCaptured(v.payments, i) {
      Ledger.FailureCapturesNothing(w.payments, intent, w.now, i);
      Ledger.CapturedStays(w.payments, v.payments, i);
    }
  }

  lemma FailSound(w: World, me: nat, intent: Id)
    requires WorldOk(w)
    ensures Sound(w, w.(payments := Ledger.MarkFailed(w.payments, intent, w.now).1), me)
  {
    FailPaymentsOk(w, intent);
    Ledger.MarkFailedLawful(w.payments, intent, w.now);
    hide HoldsOk, SalesOk, Ledger.Lawful, Ledger.Evolves;
    NewRowsSound(w, w.(payments := Ledger.MarkFailed(w.payments, intent, w.now).1), me);
  }

  // ----- the record, the clock and the prices -----

  lemma MovedSound(w: World, me: nat, intent: Id, amount: int)
    requires WorldOk(w)
    ensures Sound(w, w.(moved := w.moved + {(intent, amount)}), me)
  {
    hide HoldsOk, SalesOk, PaymentsOk, Ledger.Evolves;
    var v := w.(moved := w.moved + {(intent, amount)});
    EvolvesSame(w.payments);
    HoldsStay(w, v);
    SalesStay(w, v);
    PaymentsStay(w, v);
  }

  lemma TickSound(w: World, me: nat, to: int)
    requires WorldOk(w) && w.now <= to
    ensures Sound(w, w.(now := to), me)
  {
    hide HoldsOk, SalesOk, PaymentsOk, Ledger.Evolves;
    var v := w.(now := to);
    EvolvesSame(w.payments);
    HoldsStay(w, v);
    SalesStay(w, v);
    PaymentsStay(w, v);
  }

  lemma PriceSound(w: World, me: nat, screening: string, price: int)
    requires WorldOk(w) && screening in w.screenings
    ensures Sound(w, w.(screenings := w.screenings[screening := w.screenings[screening].(price := price)],
                        prices := w.prices + {(screening, price)}), me)
  {
    hide HoldsOk, SalesOk, PaymentsOk, Ledger.Evolves;
    var v := w.(screenings := w.screenings[screening := w.screenings[screening].(price := price)],
                prices := w.prices + {(screening, price)});
    EvolvesSame(w.payments);
    HoldsStay(w, v);
    SalesStay(w, v);
    PaymentsStay(w, v);
  }

  // ----- the requests -----

  lemma HoldReads(w: World, me: nat, op: Op, pc: Pc, c: Choice)
    requires Fresh(w, me, c) && op.OpHold? && HoldLocal(w, me, op, pc) && !pc.Claiming?
    ensures var (v, next) := HoldExec(w, op, pc, c); v == w && HoldLocal(w, me, op, next)
  {
  }

  lemma ClaimLocal(w: World, me: nat, op: Op, hold: Hold, c: Choice)
    requires op.OpHold? && HoldLocal(w, me, op, Claiming(hold))
    ensures var (v, next) := HoldExec(w, op, Claiming(hold), c); HoldLocal(v, me, op, next)
  {
    hide Holds.Claim, Unspent, Geometry.HasSeat;
  }

  lemma HoldStep(w: World, me: nat, op: Op, pc: Pc, c: Choice)
    requires WorldOk(w) && Fresh(w, me, c) && op.OpHold? && HoldLocal(w, me, op, pc)
    ensures var (v, next) := HoldExec(w, op, pc, c); Sound(w, v, me) && HoldLocal(v, me, op, next)
  {
    hide WorldOk, Later, NewBy, Fresh;
    if pc.Claiming? {
      Unchanged(w, me);
      ClaimSound(w, me, pc.hold);
      ClaimLocal(w, me, op, pc.hold, c);
    } else {
      hide HoldLocal, HoldExec;
      HoldReads(w, me, op, pc, c);
      Unchanged(w, me);
    }
  }

  lemma ReadKnown(w: World, session: Id, c: Choice)
    requires HoldsOk(w)
    ensures var pc := ReadHold(w, session, c);
            match pc
            case Read(hold) => Known(w, hold, session)
            case _ => pc == Refuse(HoldNotFound)
  {
  }

  lemma ConfirmStep(w: World, me: nat, op: Op, pc: Pc, c: Choice)
    requires WorldOk(w) && Fresh(w, me, c) && op.OpConfirm? && ConfirmLocal(w, me, op, pc)
    ensures var (v, next) := ConfirmExec(w, me, op, pc, c); Sound(w, v, me) && ConfirmLocal(v, me, op, next)
  {
    hide HoldsOk, SalesOk, PaymentsOk, PricesOk, Later, NewBy, Fresh, CommitExec, ReadHold, SeatLost;
    match pc {
      case Start =>
        Unchanged(w, me);
        ReadKnown(w, op.session, c);
      case Paid(hold, at) =>
        CommitSound(w, me, hold, at, c);
        CommitLocal(w, me, op, hold, at, c);
      case Cleaning(b) =>
        HoldKeysSound(w, me, Holds.ReleaseOp(op.session, op.user));
      case Conflicted(e) =>
        Unchanged(w, me);
        RecoverLocal(w, me, op, e);
      case _ =>
        Unchanged(w, me);
    }
  }

  lemma CommitLocal(w: World, me: nat, op: Op, hold: Hold, at: int, c: Choice)
    requires op.OpConfirm? && Passed(w, hold, op.user, op.session, at)
    ensures var (v, next) := CommitExec(w, me, hold, at, c); ConfirmLocal(v, me, op, next)
  {
    Sales.InsertArbitrates(w.sales.rows, Order(hold), c.a, w.now, c.reported);
    var (v, next) := CommitExec(w, me, hold, at, c);
    if next.Cleaning? {
      assert v.sales.rows[|w.sales.rows|] == next.booking;
    }
  }

  /** Recovery finds the session's own sale, which is the caller's, or proves that another session owns the
      seat; the branches for foreign and for cancelled rows are never taken. */
  lemma RecoverLocal(w: World, me: nat, op: Op, e: Error)
    requires WorldOk(w) && op.OpConfirm? && ConfirmLocal(w, me, op, Conflicted(e))
    ensures ConfirmLocal(w, me, op,
      ConfirmExec(w, me, op, Conflicted(e), Choice(NoId, NoId, false, false, Sales.SeatIndex)).1)
  {
    var found := Sales.GetBySession(w.sales.rows, op.session);
    if found.Ok? {
      assert SaleOk(w, found.value);
    } else {
      var k :| 0 <= k < |w.sales.rows| && w.sales.rows[k].Ref() == w.holds.granted[op.session].Ref() &&
               w.sales.rows[k].status == Confirmed;
      assert w.sales.rows[k].session != op.session;
    }
  }

  lemma IntentReads(w: World, me: nat, op: Op, pc: Pc, c: Choice)
    requires HoldsOk(w) && PaymentsOk(w) && PricesOk(w) && Fresh(w, me, c)
    requires op.OpIntent? && IntentLocal(w, me, op, pc) && !pc.IntentMinted?
    ensures var (v, next) := IntentExec(w, op, pc, c); v == w && IntentLocal(w, me, op, next)
  {
    hide HoldsOk, PaymentsOk, Ledger.GetActive, Ledger.FindIntent, RowKnown, ReadHold, Known;
    if pc.Start? {
      ReadKnown(w, op.session, c);
    } else if pc.Gated? || pc.LostInsert? {
      ActiveKnown(w, op.session);
    }
  }

  lemma IntentStep(w: World, me: nat, op: Op, pc: Pc, c: Choice)
    requires WorldOk(w) && Fresh(w, me, c) && op.OpIntent? && IntentLocal(w, me, op, pc)
    ensures var (v, next) := IntentExec(w, op, pc, c); Sound(w, v, me) && IntentLocal(v, me, op, next)
  {
    hide HoldsOk, SalesOk, PaymentsOk, PricesOk, Sound, Fresh, Ledger.Insert;
    if pc.IntentMinted? {
      InsertSound(w, me, op.session, pc.intent, pc.price, c.a);
      InsertLocal(w, me, op, pc.hold, pc.price, pc.intent, c);
    } else {
      hide IntentLocal, IntentExec;
      IntentReads(w, me, op, pc, c);
      Unchanged(w, me);
    }
  }

  lemma ActiveKnown(w: World, session: Id)
    requires PaymentsOk(w)
    ensures var found := Ledger.GetActive(w.payments, session);
            match found
            case Ok(row) =>
              RowKnown(w, row) && row.session == session && w.payments[Ledger.FindIntent(w.payments, row.intent)] == row
            case Err(e) => e == PaymentNotFound
  {
    var i := Ledger.LastActive(w.payments, session);
    if i >= 0 {
      Ledger.FoundAt(w.payments, i);
    }
  }

  lemma InsertLocal(w: World, me: nat, op: Op, hold: Hold, price: int, intent: Id, c: Choice)
    requires WorldOk(w) && op.OpIntent? && IntentLocal(w, me, op, IntentMinted(hold, price, intent))
    ensures var (v, next) := IntentExec(w, op, IntentMinted(hold, price, intent), c);
            Sound(w, v, me) ==> IntentLocal(v, me, op, next)
  {
    hide HoldsOk, SalesOk, PricesOk, Known, Later, NewBy, Ledger.FindIntent, Ledger.FirstClash;
    var (v, next) := IntentExec(w, op, IntentMinted(hold, price, intent), c);
    if Sound(w, v, me) && next.Done? && next.out.IntentReady? {
      assert v.payments[|w.payments|] == next.out.payment;
      Ledger.FoundAt(v.payments, |w.payments|);
    }
  }

  lemma PayReads(w: World, me: nat, op: Op, pc: Pc, c: Choice)
    requires HoldsOk(w) && PaymentsOk(w) && op.OpPay? && PayLocal(w, me, op, pc)
    requires !pc.Charging? && !pc.Charged? && !pc.Declined?
    ensures var (v, next) := PayExec(w, me, op, pc, c); v == w && PayLocal(w, me, op, next)
  {
    hide HoldsOk, PaymentsOk, Ledger.GetActive, RowKnown, ReadHold, Known, CaptureExec;
    if pc.Start? {
      ReadKnown(w, op.session, c);
    } else if pc.Gated? {
      ActiveKnown(w, op.session);
    }
  }

  lemma ChargeStep(w: World, me: nat, op: Op, row: Payment, c: Choice)
    requires WorldOk(w) && op.OpPay? && PayLocal(w, me, op, Charging(row))
    ensures var (v, next) := PayExec(w, me, op, Charging(row), c); Sound(w, v, me) && PayLocal(v, me, op, next)
  {
    hide WorldOk, Sound, CaptureExec;
    Unchanged(w, me);
    MovedSound(w, me, row.intent, row.amount);
  }

  lemma RecordStep(w: World, me: nat, op: Op, pc: Pc, c: Choice)
    requires WorldOk(w) && op.OpPay? && PayLocal(w, me, op, pc) && (pc.Charged? || pc.Declined?)
    ensures var (v, next) := PayExec(w, me, op, pc, c); Sound(w, v, me) && PayLocal(v, me, op, next)
  {
    hide HoldsOk, SalesOk, PaymentsOk, PricesOk, Sound, CaptureExec, Ledger.MarkFailed;
    if pc.Charged? {
      CaptureSound(w, me, pc.intent);
      CapturedLocal(w, me, pc.intent);
    } else {
      FailSound(w, me, pc.intent);
    }
  }

  lemma PayStep(w: World, me: nat, op: Op, pc: Pc, c: Choice)
    requires WorldOk(w) && op.OpPay? && PayLocal(w, me, op, pc)
    ensures var (v, next) := PayExec(w, me, op, pc, c); Sound(w, v, me) && PayLocal(v, me, op, next)
  {
    hide HoldsOk, SalesOk, PaymentsOk, PricesOk, Sound, PayExec, PayLocal;
    if pc.Charging? {
      ChargeStep(w, me, op, pc.row, c);
    } else if pc.Charged? || pc.Declined? {
      RecordStep(w, me, op, pc, c);
    } else {
      PayReads(w, me, op, pc, c);
      Unchanged(w, me);
    }
  }

  /** A capture of a known intent answers the captured row as the table now holds it, or an invalid
      transition on a row that has settled otherwise. */
  lemma CapturedLocal(w: World, me: nat, intent: Id)
    requires PaymentsOk(w) && Ledger.Has(w.payments, intent)
    ensures var (answer, v) := CaptureExec(w, me, intent);
            var k := Ledger.FindIntent(w.payments, intent);
            && Ledger.Has(v.payments, intent) && Ledger.FindIntent(v.payments, intent) == k
            && !Ledger.IsOpen(v.payments[k].status)
            && match answer
               case Ok(value) =>
                 value.0 == v.payments[k] && value.0.status == Captured && value.0.session == w.payments[k].session
               case Err(e) => e == InvalidTransition
  {
    Ledger.CaptureLawful(w.payments, intent, w.now);
    Ledger.FoundLater(w.payments, CaptureExec(w, me, intent).1.payments, intent);
  }

  lemma FailedLocal(w: World, intent: Id)
    requires PaymentsOk(w) && Ledger.Has(w.payments, intent)
    ensures var (answer, rows) := Ledger.MarkFailed(w.payments, intent, w.now);
            && Ledger.Has(rows, intent) && !Ledger.IsOpen(rows[Ledger.FindIntent(rows, intent)].status)
            && (answer.Err? ==> answer.error == InvalidTransition)
  {
    Ledger.MarkFailedLawful(w.payments, intent, w.now);
    Ledger.FoundLater(w.payments, Ledger.MarkFailed(w.payments, intent, w.now).1, intent);
  }

  lemma MatchedCapture(w: World, me: nat, op: Op, row: Payment, c: Choice)
    requires WorldOk(w) && op.OpHook? && HookLocal(w, me, op, Matched(row))
    requires op.event.kind == CapturedKind && op.event.amount == row.amount
    ensures var (v, next) := HookExec(w, me, op, Matched(row), c);
            Sound(w, v, me) && HookLocal(v, me, op, next) && next.Done? && next.out.Acked?
  {
    hide HoldsOk, SalesOk, PaymentsOk, PricesOk, Sound, CaptureExec, FailExec, Ledger.FindIntent;
    CaptureSound(w, me, row.intent);
    CapturedLocal(w, me, row.intent);
  }

  lemma MatchedFailure(w: World, me: nat, op: Op, row: Payment, c: Choice)
    requires WorldOk(w) && op.OpHook? && HookLocal(w, me, op, Matched(row))
    requires op.event.kind != CapturedKind || op.event.amount != row.amount
    ensures var (v, next) := HookExec(w, me, op, Matched(row), c);
            Sound(w, v, me) && HookLocal(v, me, op, next) && next.Done? && next.out.Acked?
  {
    hide HoldsOk, SalesOk, PaymentsOk, PricesOk, Sound, CaptureExec, Ledger.MarkFailed, Ledger.FindIntent;
    Unchanged(w, me);
    FailSound(w, me, row.intent);
    FailedLocal(w, row.intent);
  }

  /** A verified event on a known row: every branch acknowledges, and leaves the row settled. */
  lemma MatchedStep(w: World, me: nat, op: Op, row: Payment, c: Choice)
    requires WorldOk(w) && op.OpHook? && HookLocal(w, me, op, Matched(row))
    ensures var (v, next) := HookExec(w, me, op, Matched(row), c);
            Sound(w, v, me) && HookLocal(v, me, op, next) && next.Done? && next.out.Acked?
  {
    hide WorldOk, Sound, HookExec, HookLocal;
    if op.event.kind == CapturedKind && op.event.amount == row.amount {
      MatchedCapture(w, me, op, row, c);
    } else {
      MatchedFailure(w, me, op, row, c);
    }
  }

  lemma HookStep(w: World, me: nat, op: Op, pc: Pc, c: Choice)
    requires WorldOk(w) && op.OpHook? && HookLocal(w, me, op, pc)
    ensures var (v, next) := HookExec(w, me, op, pc, c); Sound(w, v, me) && HookLocal(v, me, op, next)
  {
    hide WorldOk, Later, NewBy, FailExec, CaptureExec;
    if pc.Matched? {
      MatchedStep(w, me, op, pc.row, c);
    } else {
      Unchanged(w, me);
    }
  }

  lemma MapStep(w: World, me: nat, op: Op, pc: Pc, c: Choice)
    requires WorldOk(w) && op.OpMap? && MapLocal(w, op, pc)
    ensures var (v, next) := MapExec(w, op, pc, c); Sound(w, v, me) && MapLocal(v, op, next)
  {
    Unchanged(w, me);
    if pc.OnGrid? {
      forall seat | seat in Sales.ConfirmedSeats(w.sales.rows, op.screening)
        ensures Sales.SeatConfirmed(w.sales.rows, SeatRef(op.screening, seat))
      {
        var k :| 0 <= k < |w.sales.rows| && w.sales.rows[k].screening == op.screening &&
                 w.sales.rows[k].status == Confirmed && w.sales.rows[k].seat == seat;
        assert w.sales.rows[k].Ref() == SeatRef(op.screening, seat);
      }
    }
  }

  lemma ReleaseStep(w: World, me: nat, op: Op, pc: Pc, c: Choice)
    requires WorldOk(w) && op.OpRelease? && ReleaseLocal(pc)
    ensures var (v, next) := ReleaseExec(w, op, pc, c); Sound(w, v, me) && ReleaseLocal(next)
  {
    if pc.Start? {
      HoldKeysSound(w, me, Holds.ReleaseOp(op.session, op.user));
    } else {
      Unchanged(w, me);
    }
  }

  lemma ExecSound(w: World, me: nat, op: Op, pc: Pc, c: Choice)
    requires WorldOk(w) && Fresh(w, me, c) && LocalOk(w, me, op, pc)
    ensures var (v, next) := Exec(w, me, op, pc, c); Sound(w, v, me) && LocalOk(v, me, op, next)
  {
    hide WorldOk, Later, NewBy, Fresh, HoldExec, ConfirmExec, ReleaseExec, IntentExec, PayExec, HookExec, MapExec,
         HoldLocal, ConfirmLocal, ReleaseLocal, IntentLocal, PayLocal, HookLocal, MapLocal;
    match op
    case OpHold(_, _, _) => HoldStep(w, me, op, pc, c);
    case OpConfirm(_, _) => ConfirmStep(w, me, op, pc, c);
    case OpRelease(_, _) => ReleaseStep(w, me, op, pc, c);
    case OpIntent(_, _) => IntentStep(w, me, op, pc, c);
    case OpPay(_, _) => PayStep(w, me, op, pc, c);
    case OpHook(_) => HookStep(w, me, op, pc, c);
    case OpMap(_) => MapStep(w, me, op, pc, c);
  }
}
