/** What every reachable world satisfies, what each request may rely on at its program counter, and why another
    request's step cannot take it away. */
module ProtocolFacts {
  import opened Domain
  import opened Protocol
  import Geometry
  import Holds
  import Ledger
  import Sales

  // ----- laws of the shared stores -----

  /** Every hold was granted inside its screening's grid, under minted identifiers. */
  ghost predicate HoldsOk(w: World) {
    && Holds.Inv(w.holds, w.max)
    && forall x :: x in w.holds.granted ==>
         && w.holds.granted[x].screening in w.screenings
         && Geometry.HasSeat(w.screenings[w.holds.granted[x].screening], w.holds.granted[x].seat)
         && x in w.minter && w.holds.granted[x].token in w.minter
  }

  /** A sale repeats the fields of the hold granted to its session, was checked before that hold expired, and
      is paid for. */
  ghost predicate SaleOk(w: World, b: Booking) {
    && b.session in w.holds.granted
    && var g := w.holds.granted[b.session];
    && b.Ref() == g.Ref() && b.user == g.user && b.status == Confirmed
    && Ledger.HasCaptured(w.payments, b.session)
    && b.session in w.checked && w.checked[b.session] < g.expiresAt && w.checked[b.session] <= w.now
    && b.session in w.creator
    && b.id in w.minter
  }

  ghost predicate SalesOk(w: World) {
    && Sales.Lawful(w.sales)
    && (forall k :: 0 <= k < |w.sales.rows| ==> SaleOk(w, w.sales.rows[k]))
    && (forall k :: 0 <= k < |w.sales.outbox| ==> w.sales.outbox[k].id in w.minter)
    && (forall x :: x in w.creator ==> Sales.FindSession(w.sales.rows, x) >= 0 && x in w.checked)
    && (forall x :: x in w.checked ==> x in w.creator)
  }

  /** A payment row belongs to a granted hold, asks a price its screening has had, and is captured only for
      exactly its own amount; no row is ever authorized or refunded. */
  ghost predicate PaymentOk(w: World, p: Payment) {
    && p.session in w.holds.granted
    && (w.holds.granted[p.session].screening, p.amount) in w.prices
    && p.intent in w.minter
    && (p.status == Captured ==> (p.intent, p.amount) in w.moved)
    && (p.status == Intent || p.status == Captured || p.status == Failed)
  }

  ghost predicate PaymentsOk(w: World) {
    && Ledger.Lawful(w.payments)
    && (forall k :: 0 <= k < |w.payments| ==> PaymentOk(w, w.payments[k]))
    && (forall i :: i in w.captor <==> Ledger.IsCaptured(w.payments, i))
  }

  ghost predicate PricesOk(w: World) {
    forall x :: x in w.screenings ==> (x, w.screenings[x].price) in w.prices
  }

  ghost predicate WorldOk(w: World) { HoldsOk(w) && SalesOk(w) && PaymentsOk(w) && PricesOk(w) }

  // ----- facts a request may rely on -----

  /** The hold as read is the one granted to the session, its expiry possibly rounded down. */
  ghost predicate Known(w: World, hold: Hold, session: Id) {
    && hold.session == session && session in w.holds.granted
    && hold.(expiresAt := w.holds.granted[session].expiresAt) == w.holds.granted[session]
    && hold.expiresAt <= w.holds.granted[session].expiresAt
  }

  ghost predicate Passed(w: World, hold: Hold, user: Id, session: Id, at: int) {
    Known(w, hold, session) && hold.user == user && at < hold.expiresAt && at <= w.now
  }

  /** The row's intent is in the table, with the row's identity and amount. */
  ghost predicate RowKnown(w: World, p: Payment) {
    Ledger.Has(w.payments, p.intent) && Ledger.SameIntent(p, w.payments[Ledger.FindIntent(w.payments, p.intent)])
  }

  ghost predicate IsSold(w: World, b: Booking) { b in w.sales.rows }

  /** Somebody else's session owns the seat this session was granted. */
  ghost predicate SeatLost(w: World, session: Id) {
    && session in w.holds.granted
    && exists k :: 0 <= k < |w.sales.rows| && w.sales.rows[k].Ref() == w.holds.granted[session].Ref() &&
                   w.sales.rows[k].status == Confirmed && w.sales.rows[k].session != session
  }

  /** An identifier this request minted and has not used. */
  ghost predicate Unspent(w: World, me: nat, hold: Hold) {
    && hold.session in w.minter && w.minter[hold.session] == me && hold.session !in w.holds.granted
    && hold.token in w.minter && w.minter[hold.token] == me
    && (forall x :: x in w.holds.granted ==> w.holds.granted[x].token != hold.token)
  }

  ghost predicate UnspentIntent(w: World, me: nat, intent: Id) {
    && intent in w.minter && w.minter[intent] == me
    && (forall k :: 0 <= k < |w.payments| ==> w.payments[k].intent != intent)
  }

  /** Handling the event again would change no row. */
  ghost predicate Settled(w: World, e: Event) {
    e.kind != OtherKind ==>
      && Ledger.Has(w.payments, e.intent)
      && !Ledger.IsOpen(w.payments[Ledger.FindIntent(w.payments, e.intent)].status)
  }

  /** A screened seat is sold. */
  ghost predicate AllSold(w: World, screening: string, seats: set<Seat>) {
    forall seat :: seat in seats ==> Sales.SeatConfirmed(w.sales.rows, SeatRef(screening, seat))
  }

  // ----- what holds at each program counter -----

  ghost predicate HoldLocal(w: World, me: nat, op: Op, pc: Pc)
    requires op.OpHold?
  {
    match pc
    case Start => true
    case InGrid | Unsold => op.screening in w.screenings && Geometry.HasSeat(w.screenings[op.screening], op.seat)
    case Claiming(hold) =>
      && op.screening in w.screenings && Geometry.HasSeat(w.screenings[op.screening], op.seat)
      && hold.screening == op.screening && hold.seat == op.seat && hold.user == op.user && Unspent(w, me, hold)
    case Done(HoldGranted(hold)) =>
      && Known(w, hold, hold.session) && hold.screening == op.screening && hold.seat == op.seat && hold.user == op.user
    case Done(Refused(_)) => true
    case _ => false
  }

  ghost predicate ConfirmLocal(w: World, me: nat, op: Op, pc: Pc)
    requires op.OpConfirm?
  {
    match pc
    case Start => true
    case Read(hold) => Known(w, hold, op.session)
    case Gated(hold, at) => Passed(w, hold, op.user, op.session, at)
    case Paid(hold, at) => Passed(w, hold, op.user, op.session, at) && Ledger.HasCaptured(w.payments, op.session)
    case Cleaning(b) => MadeBy(w, me, op, b)
    case Conflicted(e) =>
      && op.session in w.holds.granted && w.holds.granted[op.session].user == op.user
      && ((e == SessionAlreadyConfirmed && Sales.GetBySession(w.sales.rows, op.session).Ok?) ||
          (e == SeatAlreadyBooked && Sales.SeatConfirmed(w.sales.rows, w.holds.granted[op.session].Ref())))
    case Done(Bought(b, created)) =>
      IsSold(w, b) && b.session == op.session && b.user == op.user && (created ==> MadeBy(w, me, op, b))
    case Done(Refused(e)) =>
      && e != OwnershipViolated && e != SessionAlreadyConfirmed && e != BookingNotFound
      && (e == SeatAlreadyBooked ==> SeatLost(w, op.session))
    case _ => false
  }

  ghost predicate MadeBy(w: World, me: nat, op: Op, b: Booking)
    requires op.OpConfirm?
  {
    IsSold(w, b) && b.session == op.session && b.user == op.user && op.session in w.creator &&
        w.creator[op.session] == me
  }

  ghost predicate IntentLocal(w: World, me: nat, op: Op, pc: Pc)
    requires op.OpIntent?
  {
    match pc
    case Start => true
    case Read(hold) => Known(w, hold, op.session)
    case Gated(hold, at) => Passed(w, hold, op.user, op.session, at)
    case NoIntent(hold) => Known(w, hold, op.session)
    case Priced(hold, price) => Known(w, hold, op.session) && (hold.screening, price) in w.prices
    case IntentMinted(hold, price, intent) =>
      Known(w, hold, op.session) && (hold.screening, price) in w.prices && UnspentIntent(w, me, intent)
    case LostInsert(hold) => Known(w, hold, op.session)
    case Done(IntentReady(p, created, _)) => RowKnown(w, p) && p.session == op.session
    case Done(Refused(e)) => e != DuplicateIntent
    case _ => false
  }

  ghost predicate PayLocal(w: World, me: nat, op: Op, pc: Pc)
    requires op.OpPay?
  {
    match pc
    case Start => true
    case Read(hold) => Known(w, hold, op.session)
    case Gated(hold, at) => Passed(w, hold, op.user, op.session, at)
    case Charging(row) => RowKnown(w, row) && row.session == op.session
    case Charged(intent) => Payable(w, op.session, intent)
    case Declined(intent) => Ledger.Has(w.payments, intent)
    case Done(PaymentMade(p, capturedNow)) =>
      && Collected(w, op.session, p)
      && (capturedNow ==> p.intent in w.captor && w.captor[p.intent] == me)
    case Done(Refused(e)) => e != PaymentNotFound
    case _ => false
  }

  /** The session's row whose money the gateway has moved, in full. */
  ghost predicate Payable(w: World, session: Id, intent: Id) {
    && Ledger.Has(w.payments, intent)
    && var p := w.payments[Ledger.FindIntent(w.payments, intent)];
    p.session == session && (intent, p.amount) in w.moved
  }

  ghost predicate Collected(w: World, session: Id, p: Payment) {
    && p.session == session && p.status == Captured && Ledger.Has(w.payments, p.intent)
    && w.payments[Ledger.FindIntent(w.payments, p.intent)] == p
  }

  ghost predicate HookLocal(w: World, me: nat, op: Op, pc: Pc)
    requires op.OpHook?
  {
    var e := op.event;
    match pc
    case Start => EventLogged(w, e)
    case Matched(row) => EventLogged(w, e) && RowKnown(w, row) && row.intent == e.intent
    case Done(Acked(applied, found)) =>
      && (found ==> Settled(w, e))
      && (applied ==> found)
      && (applied && e.kind == CapturedKind ==> e.intent in w.captor && w.captor[e.intent] == me)
    case Done(Refused(e)) => e == Infra
    case _ => false
  }

  ghost predicate EventLogged(w: World, e: Event) {
    e.kind == CapturedKind ==> (e.intent, e.amount) in w.moved
  }

  ghost predicate MapLocal(w: World, op: Op, pc: Pc)
    requires op.OpMap?
  {
    match pc
    case Start => true
    case OnGrid => true
    case Sold(booked) => AllSold(w, op.screening, booked)
    case Done(MapShown(booked, held)) => AllSold(w, op.screening, booked)
    case Done(Refused(_)) => true
    case _ => false
  }

  ghost predicate ReleaseLocal(pc: Pc) {
    match pc
    case Start => true
    case Done(HoldReleased) => true
    case Done(Refused(_)) => true
    case _ => false
  }

  ghost predicate LocalOk(w: World, me: nat, op: Op, pc: Pc) {
    match op
    case OpHold(_, _, _) => HoldLocal(w, me, op, pc)
    case OpConfirm(_, _) => ConfirmLocal(w, me, op, pc)
    case OpRelease(_, _) => ReleaseLocal(pc)
    case OpIntent(_, _) => IntentLocal(w, me, op, pc)
    case OpPay(_, _) => PayLocal(w, me, op, pc)
    case OpHook(_) => HookLocal(w, me, op, pc)
    case OpMap(_) => MapLocal(w, op, pc)
  }

  ghost predicate Inv(s: State) {
    && WorldOk(s.w)
    && forall r :: r in s.reqs ==> LocalOk(s.w, r, s.reqs[r].op, s.reqs[r].pc)
  }

  // ----- how the world may change -----

  ghost predicate Extends<K, V>(a: map<K, V>, b: map<K, V>) {
    forall k :: k in a ==> k in b && b[k] == a[k]
  }

  /** Grids never change, only prices do. */
  ghost predicate SameGrids(a: map<string, Screening>, b: map<string, Screening>) {
    forall x :: x in a ==> x in b && b[x].rows == a[x].rows && b[x].seatsPerRow == a[x].seatsPerRow
  }

  /** v is a later world than w: records only grow, bookings and events are only appended, payments evolve. */
  ghost predicate Later(w: World, v: World) {
    && w.now <= v.now && w.max == v.max && w.ttl == v.ttl
    && SameGrids(w.screenings, v.screenings)
    && Extends(w.holds.granted, v.holds.granted)
    && w.sales.rows <= v.sales.rows && w.sales.outbox <= v.sales.outbox
    && Ledger.Evolves(w.payments, v.payments)
    && Extends(w.minter, v.minter)
    && w.prices <= v.prices && w.moved <= v.moved
    && Extends(w.checked, v.checked) && Extends(w.creator, v.creator) && Extends(w.captor, v.captor)
  }

  /** Whatever is new was minted by request r. */
  ghost predicate NewBy(w: World, v: World, r: nat) {
    && (forall x :: x in v.holds.granted && x !in w.holds.granted ==>
          && x in v.minter && v.minter[x] == r
          && v.holds.granted[x].token in v.minter && v.minter[v.holds.granted[x].token] == r)
    && (forall k :: |w.payments| <= k < |v.payments| ==>
          v.payments[k].intent in v.minter && v.minter[v.payments[k].intent] == r)
  }

  lemma LaterTransitive(a: World, b: World, c: World)
    requires Later(a, b) && Later(b, c)
    ensures Later(a, c)
  {
    Ledger.EvolvesTransitive(a.payments, b.payments, c.payments);
  }

  // ----- facts survive -----

  lemma CapturedForGood(w: World, v: World, session: Id)
    requires Later(w, v) && Ledger.HasCaptured(w.payments, session)
    ensures Ledger.HasCaptured(v.payments, session)
  {
    var k :| 0 <= k < |w.payments| && w.payments[k].session == session && w.payments[k].status == Captured;
    assert Ledger.SameIntent(w.payments[k], v.payments[k]);
    assert v.payments[k].session == session && v.payments[k].status == Captured;
  }

  lemma RowStaysKnown(w: World, v: World, intent: Id)
    requires Later(w, v) && Ledger.Lawful(v.payments) && Ledger.Has(w.payments, intent)
    ensures Ledger.Has(v.payments, intent)
    ensures var k := Ledger.FindIntent(w.payments, intent);
            && Ledger.FindIntent(v.payments, intent) == k
            && Ledger.SameIntent(w.payments[k], v.payments[k])
            && (!Ledger.IsOpen(w.payments[k].status) ==> v.payments[k] == w.payments[k])
  {
    Ledger.FoundLater(w.payments, v.payments, intent);
  }

  lemma SoldForGood(w: World, v: World, b: Booking)
    requires Later(w, v) && IsSold(w, b)
    ensures IsSold(v, b)
  {
    var k :| 0 <= k < |w.sales.rows| && w.sales.rows[k] == b;
    assert v.sales.rows[k] == b;
  }

  lemma SeatSoldForGood(w: World, v: World, ref: SeatRef)
    requires Later(w, v) && Sales.SeatConfirmed(w.sales.rows, ref)
    ensures Sales.SeatConfirmed(v.sales.rows, ref)
  {
    var k :| 0 <= k < |w.sales.rows| && w.sales.rows[k].Ref() == ref && w.sales.rows[k].status == Confirmed;
    assert v.sales.rows[k] == w.sales.rows[k];
  }

  lemma SeatLostForGood(w: World, v: World, session: Id)
    requires Later(w, v) && SeatLost(w, session)
    ensures SeatLost(v, session)
  {
    var k :| 0 <= k < |w.sales.rows| && w.sales.rows[k].Ref() == w.holds.granted[session].Ref() &&
             w.sales.rows[k].status == Confirmed && w.sales.rows[k].session != session;
    assert v.sales.rows[k] == w.sales.rows[k];
  }

  lemma SessionSoldForGood(w: World, v: World, session: Id)
    requires Later(w, v) && Sales.GetBySession(w.sales.rows, session).Ok?
    ensures Sales.GetBySession(v.sales.rows, session).Ok?
  {
    var k := Sales.FindSession(w.sales.rows, session);
    assert v.sales.rows[k] == w.sales.rows[k];
  }

  lemma AllSoldForGood(w: World, v: World, screening: string, seats: set<Seat>)
    requires Later(w, v) && AllSold(w, screening, seats)
    ensures AllSold(v, screening, seats)
  {
    forall seat | seat in seats ensures Sales.SeatConfirmed(v.sales.rows, SeatRef(screening, seat)) {
      SeatSoldForGood(w, v, SeatRef(screening, seat));
    }
  }

  lemma SettledForGood(w: World, v: World, e: Event)
    requires Later(w, v) && Ledger.Lawful(v.payments) && Settled(w, e)
    ensures Settled(v, e)
  {
    if e.kind != OtherKind {
      RowStaysKnown(w, v, e.intent);
    }
  }

  lemma UnspentStays(w: World, v: World, r: nat, me: nat, hold: Hold)
    requires Later(w, v) && NewBy(w, v, r) && r != me && Unspent(w, me, hold)
    ensures Unspent(v, me, hold)
  {
    forall x | x in v.holds.granted ensures x != hold.session && v.holds.granted[x].token != hold.token {
      if x in w.holds.granted {
        assert v.holds.granted[x] == w.holds.granted[x];
      }
    }
  }

  lemma UnspentIntentStays(w: World, v: World, r: nat, me: nat, intent: Id)
    requires Later(w, v) && NewBy(w, v, r) && r != me && UnspentIntent(w, me, intent)
    ensures UnspentIntent(v, me, intent)
  {
    forall k | 0 <= k < |v.payments| ensures v.payments[k].intent != intent {
      if k < |w.payments| {
        assert Ledger.SameIntent(w.payments[k], v.payments[k]);
      }
    }
  }

  // ----- program counters survive other requests' steps -----

  lemma HoldLocalStays(w: World, v: World, r: nat, me: nat, op: Op, pc: Pc)
    requires Later(w, v) && NewBy(w, v, r) && r != me && op.OpHold? && HoldLocal(w, me, op, pc)
    ensures HoldLocal(v, me, op, pc)
  {
    if pc.Claiming? {
      UnspentStays(w, v, r, me, pc.hold);
    }
  }

  lemma ConfirmLocalStays(w: World, v: World, me: nat, op: Op, pc: Pc)
    requires Later(w, v) && op.OpConfirm? && ConfirmLocal(w, me, op, pc)
    ensures ConfirmLocal(v, me, op, pc)
  {
    match pc {
      case Paid(hold, at) =>
        CapturedForGood(w, v, op.session);
      case Cleaning(b) =>
        SoldForGood(w, v, b);
      case Conflicted(e) =>
        if e == SessionAlreadyConfirmed {
          SessionSoldForGood(w, v, op.session);
        } else {
          SeatSoldForGood(w, v, w.holds.granted[op.session].Ref());
        }
      case Done(Bought(b, created)) =>
        SoldForGood(w, v, b);
      case Done(Refused(e)) =>
        if e == SeatAlreadyBooked {
          SeatLostForGood(w, v, op.session);
        }
      case _ =>
    }
  }

  lemma IntentLocalStays(w: World, v: World, r: nat, me: nat, op: Op, pc: Pc)
    requires Later(w, v) && NewBy(w, v, r) && r != me && Ledger.Lawful(v.payments)
    requires op.OpIntent? && IntentLocal(w, me, op, pc)
    ensures IntentLocal(v, me, op, pc)
  {
    match pc {
      case IntentMinted(hold, price, intent) =>
        UnspentIntentStays(w, v, r, me, intent);
      case Done(IntentReady(p, created, payBy)) =>
        RowStaysKnown(w, v, p.intent);
      case _ =>
    }
  }

  lemma PayLocalStays(w: World, v: World, me: nat, op: Op, pc: Pc)
    requires Later(w, v) && Ledger.Lawful(v.payments) && op.OpPay? && PayLocal(w, me, op, pc)
    ensures PayLocal(v, me, op, pc)
  {
    match pc {
      case Charging(row) =>
        RowStaysKnown(w, v, row.intent);
      case Charged(intent) =>
        RowStaysKnown(w, v, intent);
      case Declined(intent) =>
        RowStaysKnown(w, v, intent);
      case Done(PaymentMade(p, capturedNow)) =>
        RowStaysKnown(w, v, p.intent);
      case _ =>
    }
  }

  lemma HookLocalStays(w: World, v: World, me: nat, op: Op, pc: Pc)
    requires Later(w, v) && Ledger.Lawful(v.payments) && op.OpHook? && HookLocal(w, me, op, pc)
    ensures HookLocal(v, me, op, pc)
  {
    match pc {
      case Matched(row) =>
        RowStaysKnown(w, v, row.intent);
      case Done(Acked(applied, found)) =>
        if found {
          SettledForGood(w, v, op.event);
        }
      case _ =>
    }
  }

  lemma MapLocalStays(w: World, v: World, op: Op, pc: Pc)
    requires Later(w, v) && op.OpMap? && MapLocal(w, op, pc)
    ensures MapLocal(v, op, pc)
  {
    match pc {
      case Sold(booked) => AllSoldForGood(w, v, op.screening, booked);
      case Done(MapShown(booked, held)) => AllSoldForGood(w, v, op.screening, booked);
      case _ =>
    }
  }

  lemma LocalStays(w: World, v: World, r: nat, me: nat, op: Op, pc: Pc)
    requires Later(w, v) && NewBy(w, v, r) && r != me && Ledger.Lawful(v.payments) && LocalOk(w, me, op, pc)
    ensures LocalOk(v, me, op, pc)
  {
    match op
    case OpHold(_, _, _) => HoldLocalStays(w, v, r, me, op, pc);
    case OpConfirm(_, _) => ConfirmLocalStays(w, v, me, op, pc);
    case OpRelease(_, _) =>
    case OpIntent(_, _) => IntentLocalStays(w, v, r, me, op, pc);
    case OpPay(_, _) => PayLocalStays(w, v, me, op, pc);
    case OpHook(_) => HookLocalStays(w, v, me, op, pc);
    case OpMap(_) => MapLocalStays(w, v, op, pc);
  }
}
