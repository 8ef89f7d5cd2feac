/** The hold - payment - confirm protocol as a step system. Each request is a program counter with its locals;
    each port call is one atomic step on the shared stores, and steps of all requests interleave freely with
    clock ticks, vanishing keys, price changes, gateway answers and lost replies. */
module Protocol {
  import opened Domain
  import Geometry
  import Holds
  import Ledger
  import Sales

  // ----- shared state -----

  /** The stores, the clock and the configuration, followed by a record of the past that no step reads:
      which request minted an identifier, the prices every screening has had, the (intent, amount) pairs the
      gateway or a verified event reported as moved, the clock reading at which a sold session passed its
      expiry check, the request that created a booking, and the request that captured an intent. */
  datatype World = World(
    now: int, max: int, ttl: int,
    screenings: map<string, Screening>,
    holds: Holds.Store,
    sales: Sales.Table,
    payments: seq<Payment>,
    minter: map<Id, nat>,
    prices: set<(string, int)>,
    moved: set<(Id, int)>,
    checked: map<Id, int>,
    creator: map<Id, nat>,
    captor: map<Id, nat>)

  // ----- requests -----

  datatype Kind = CapturedKind | FailedKind | OtherKind

  /** A webhook event whose signature has been verified; its content is still the provider's word. */
  datatype Event = Event(kind: Kind, intent: Id, amount: int)

  datatype Op =
    | OpHold(user: Id, screening: string, seat: Seat)
    | OpConfirm(user: Id, session: Id)
    | OpRelease(user: Id, session: Id)
    | OpIntent(user: Id, session: Id)
    | OpPay(user: Id, session: Id)
    | OpHook(event: Event)
    | OpMap(screening: string)

  datatype Outcome =
    | HoldGranted(hold: Hold)
    | Bought(booking: Booking, created: bool)
    | HoldReleased
    | IntentReady(payment: Payment, created: bool, payBy: int)
    | PaymentMade(payment: Payment, capturedNow: bool)
    | Acked(applied: bool, found: bool)
    | MapShown(booked: set<Seat>, held: set<Seat>)
    | Refused(error: Error)

  datatype Pc =
    | Start
    | InGrid | Unsold | Claiming(hold: Hold)                             // hold
    | Read(hold: Hold) | Gated(hold: Hold, at: int)                      // the hold gate of confirm, intent and pay
    | Paid(hold: Hold, at: int) | Cleaning(booking: Booking) | Conflicted(error: Error)   // confirm
    | NoIntent(hold: Hold) | Priced(hold: Hold, price: int)              // create intent
    | IntentMinted(hold: Hold, price: int, intent: Id) | LostInsert(hold: Hold)
    | Charging(row: Payment) | Charged(intent: Id) | Declined(intent: Id)   // client payment
    | Matched(row: Payment)                                              // webhook
    | OnGrid | Sold(booked: set<Seat>)                                   // seat map
    | Done(out: Outcome)

  /** What is not determined by the state: two freshly minted identifiers, whether the hold store is the Redis
      one (it reads expiries back in whole seconds and refuses a claim that has expired on the way), whether
      the gateway accepts, which violated index is reported. */
  datatype Choice = Choice(a: Id, b: Id, redis: bool, accepts: bool, reported: Sales.Index)

  function Refuse(e: Error): Pc { Done(Refused(e)) }

  // ----- booking.Service.Hold -----

  function FindScreening(screenings: map<string, Screening>, id: string): Result<Screening> {
    if id in screenings then Ok(screenings[id]) else Err(ScreeningNotFound)
  }

  /** Where each answer of the catalogue takes its request. */
  function ScreeningAnswered(op: Op, pc: Pc, r: Result<Screening>): Pc {
    if r.Err? then Refuse(r.error)
    else if op.OpHold? then (if Geometry.HasSeat(r.value, op.seat) then InGrid else Refuse(SeatOutOfRange))
    else if pc.NoIntent? then Priced(pc.hold, r.value.price)
    else OnGrid
  }

  function SeatAnswered(r: Result<bool>): Pc {
    match r
    case Ok(confirmed) => if confirmed then Refuse(SeatAlreadyBooked) else Unsold
    case Err(e) => Refuse(e)
  }

  /** The hold the request asks for. */
  function HoldOf(op: Op, session: Id, token: Id, expiresAt: int): Hold
    requires op.OpHold?
  {
    Hold(session, op.screening, op.seat, op.user, token, expiresAt)
  }

  function ClaimAnswered(hold: Hold, r: Result<()>): Pc {
    match r
    case Ok(_) => Done(HoldGranted(hold))
    case Err(e) => Refuse(e)
  }

  function HoldExec(w: World, op: Op, pc: Pc, c: Choice): (World, Pc)
    requires op.OpHold?
  {
    match pc
    case Start => (w, ScreeningAnswered(op, pc, FindScreening(w.screenings, op.screening)))
    case InGrid => (w, SeatAnswered(Ok(Sales.SeatConfirmed(w.sales.rows, SeatRef(op.screening, op.seat)))))
    case Unsold =>
      var hold := HoldOf(op, c.a, c.b, w.now + w.ttl);
      (w, if hold.Validates(w.now) then Claiming(hold) else Refuse(InvalidHold))
    case Claiming(hold) =>
      if c.redis && !hold.Validates(w.now) then (w, Refuse(InvalidHold))
      else
        var claim := Holds.ClaimOp(hold);
        (w.(holds := Holds.Apply(w.holds, w.max, claim)), ClaimAnswered(hold, Holds.Answer(w.holds, w.max, claim)))
    case _ => (w, pc)
  }

  // ----- booking.Service.Release, SeatMap -----

  /** A failed cleanup is only logged. */
  function ReleaseAnswered(pc: Pc, r: Result<()>): Pc {
    if pc.Cleaning? then Done(Bought(pc.booking, true)) else if r.Ok? then Done(HoldReleased) else Refuse(r.error)
  }

  function ReleaseExec(w: World, op: Op, pc: Pc, c: Choice): (World, Pc)
    requires op.OpRelease?
  {
    match pc
    case Start =>
      var release := Holds.ReleaseOp(op.session, op.user);
      (w.(holds := Holds.Apply(w.holds, w.max, release)), ReleaseAnswered(pc, Holds.Answer(w.holds, w.max, release)))
    case _ => (w, pc)
  }

  function MapExec(w: World, op: Op, pc: Pc, c: Choice): (World, Pc)
    requires op.OpMap?
  {
    match pc
    case Start => (w, ScreeningAnswered(op, pc, FindScreening(w.screenings, op.screening)))
    case OnGrid => (w, Sold(Sales.ConfirmedSeats(w.sales.rows, op.screening)))
    case Sold(booked) => (w, Done(MapShown(booked, HeldSeats(w.holds.keys, op.screening))))
    case _ => (w, pc)
  }

  function HeldSeats(keys: Holds.Keys, screening: string): set<Seat> {
    set r | r in keys.seats && r.screening == screening :: r.seat
  }

  // ----- the hold gate -----

  /** A hold as the store hands it back. */
  function AsRead(hold: Hold, c: Choice): Hold { if c.redis then Holds.WholeSecond(hold) else hold }

  function ReadHold(w: World, session: Id, c: Choice): Pc {
    match Holds.Get(w.holds.keys, session)
    case Ok(hold) => Read(AsRead(hold, c))
    case Err(e) => Refuse(e)
  }

  function Checked(now: int, user: Id, hold: Hold): Pc {
    if hold.user != user then Refuse(NotHoldOwner)
    else if !hold.CanBeConfirmed(now) then Refuse(HoldExpired)
    else Gated(hold, now)
  }

  // ----- booking.Service.Confirm -----

  function Order(hold: Hold): Booking {
    Booking(NoId, hold.session, hold.screening, hold.seat, hold.user, Confirmed, 0)
  }

  function GateAnswered(hold: Hold, at: int, r: Result<bool>): Pc {
    match r
    case Ok(captured) => if captured then Paid(hold, at) else Refuse(PaymentNotCaptured)
    case Err(e) => Refuse(e)
  }

  /** Both conflicts start recovery; anything else is the infrastructure's. */
  function CommitAnswered(r: Result<Booking>): Pc {
    match r
    case Ok(row) => Cleaning(row)
    case Err(e) => if e == SeatAlreadyBooked || e == SessionAlreadyConfirmed then Conflicted(e) else Refuse(e)
  }

  function RecoveryAnswered(user: Id, conflict: Error, r: Result<Booking>): Pc {
    match r
    case Err(e) => if e == BookingNotFound then Refuse(conflict) else Refuse(e)
    case Ok(row) =>
      if row.user != user then Refuse(OwnershipViolated)
      else if row.status == Confirmed then Done(Bought(row, false))
      else Refuse(conflict)
  }

  function ConfirmExec(w: World, me: nat, op: Op, pc: Pc, c: Choice): (World, Pc)
    requires op.OpConfirm?
  {
    match pc
    case Start => (w, ReadHold(w, op.session, c))
    case Read(hold) => (w, Checked(w.now, op.user, hold))
    case Gated(hold, at) => (w, GateAnswered(hold, at, Ok(Ledger.HasCaptured(w.payments, op.session))))
    case Paid(hold, at) => CommitExec(w, me, hold, at, c)
    case Cleaning(_) =>
      var release := Holds.ReleaseOp(op.session, op.user);
      (w.(holds := Holds.Apply(w.holds, w.max, release)), ReleaseAnswered(pc, Holds.Answer(w.holds, w.max, release)))
    case Conflicted(error) => (w, RecoveryAnswered(op.user, error, Sales.GetBySession(w.sales.rows, op.session)))
    case _ => (w, pc)
  }

  function CommitExec(w: World, me: nat, hold: Hold, at: int, c: Choice): (World, Pc) {
    var (answer, table) := Sales.Commit(w.sales, Order(hold), c.a, c.b, w.now, c.reported);
    (if answer.Ok?
     then w.(sales := table, checked := w.checked[hold.session := at], creator := w.creator[hold.session := me])
     else w,
     CommitAnswered(answer))
  }

  // ----- payment.Service.CreateIntent -----

  function NewRow(session: Id, intent: Id, price: int): Payment {
    Payment(NoId, session, "fake", intent, Intent, price, "usd", 0, 0)
  }

  /** Where the session's active row, or its absence, takes a request. */
  function ActiveAnswered(op: Op, pc: Pc, r: Result<Payment>): Pc
    requires op.OpIntent? || op.OpPay?
    requires pc.Gated? || pc.LostInsert?
  {
    if op.OpIntent? then
      match r
      case Ok(row) => Done(IntentReady(row, false, pc.hold.expiresAt))
      case Err(e) =>
        if pc.LostInsert? then Refuse(IntentExists) else if e == PaymentNotFound then NoIntent(pc.hold) else Refuse(e)
    else
      match r
      case Err(e) => if e == PaymentNotFound then Refuse(PaymentNotCaptured) else Refuse(e)
      case Ok(row) =>
        if row.status == Captured then Done(PaymentMade(row, false))
        else if !Ledger.IsOpen(row.status) then Refuse(InvalidTransition)
        else Charging(row)
  }

  /** The gateway refuses an amount that is not positive, and any call it declines. */
  function GatewayIntent(price: int, accepts: bool, id: Id): Result<Id> {
    if !accepts then Err(Infra) else if price <= 0 then Err(GatewayRejected) else Ok(id)
  }

  function MintedAnswered(hold: Hold, price: int, r: Result<Id>): Pc {
    match r
    case Ok(intent) => IntentMinted(hold, price, intent)
    case Err(e) => Refuse(e)
  }

  function InsertAnswered(hold: Hold, r: Result<Payment>): Pc {
    match r
    case Ok(row) => Done(IntentReady(row, true, hold.expiresAt))
    case Err(e) => if e == IntentExists then LostInsert(hold) else Refuse(e)
  }

  function IntentExec(w: World, op: Op, pc: Pc, c: Choice): (World, Pc)
    requires op.OpIntent?
  {
    match pc
    case Start => (w, ReadHold(w, op.session, c))
    case Read(hold) => (w, Checked(w.now, op.user, hold))
    case Gated(_, _) | LostInsert(_) => (w, ActiveAnswered(op, pc, Ledger.GetActive(w.payments, op.session)))
    case NoIntent(hold) => (w, ScreeningAnswered(op, pc, FindScreening(w.screenings, hold.screening)))
    case Priced(hold, price) => (w, MintedAnswered(hold, price, GatewayIntent(price, c.accepts, c.a)))
    case IntentMinted(hold, price, intent) =>
      var (answer, rows) := Ledger.Insert(w.payments, NewRow(op.session, intent, price), c.a, w.now);
      (w.(payments := rows), InsertAnswered(hold, answer))
    case _ => (w, pc)
  }

  // ----- payment.Service.ConfirmByClient -----

  /** The store's capture, recorded. */
  function CaptureExec(w: World, me: nat, intent: Id): (Result<(Payment, bool)>, World) {
    var (answer, rows) := Ledger.Capture(w.payments, intent, w.now);
    var mine := answer.Ok? && answer.value.1;
    (answer, w.(payments := rows, captor := if mine then w.captor[intent := me] else w.captor))
  }

  function CaptureAnswered(op: Op, r: Result<(Payment, bool)>): Pc {
    match r
    case Ok(value) => if op.OpPay? then Done(PaymentMade(value.0, value.1)) else Done(Acked(value.1, true))
    case Err(e) => if op.OpHook? && e == InvalidTransition then Done(Acked(false, true)) else Refuse(e)
  }

  /** A decline is a decline whether or not it could be recorded; an event whose failure does not apply is only
      acknowledged, and so is one that failed its row for a wrong amount. */
  function FailAnswered(op: Op, r: Result<Payment>): Pc {
    if op.OpPay? then Refuse(PaymentDeclined)
    else
      match r
      case Ok(row) => Done(Acked(op.OpHook? && op.event.kind == FailedKind && row.status == Failed, true))
      case Err(e) => if e == InvalidTransition then Done(Acked(false, true)) else Refuse(e)
  }

  function FailExec(w: World, op: Op, intent: Id): (World, Pc) {
    var (answer, rows) := Ledger.MarkFailed(w.payments, intent, w.now);
    (w.(payments := rows), FailAnswered(op, answer))
  }

  function PayExec(w: World, me: nat, op: Op, pc: Pc, c: Choice): (World, Pc)
    requires op.OpPay?
  {
    match pc
    case Start => (w, ReadHold(w, op.session, c))
    case Read(hold) => (w, Checked(w.now, op.user, hold))
    case Gated(_, _) => (w, ActiveAnswered(op, pc, Ledger.GetActive(w.payments, op.session)))
    case Charging(row) =>
      if c.accepts then (w.(moved := w.moved + {(row.intent, row.amount)}), Charged(row.intent))
      else (w, Declined(row.intent))
    case Charged(intent) =>
      var (answer, w') := CaptureExec(w, me, intent);
      (w', CaptureAnswered(op, answer))
    case Declined(intent) => FailExec(w, op, intent)
    case _ => (w, pc)
  }

  // ----- payment.Service.HandleWebhook -----

  function EventAnswered(r: Result<Payment>): Pc {
    match r
    case Ok(row) => Matched(row)
    case Err(e) => if e == PaymentNotFound then Done(Acked(false, false)) else Refuse(e)
  }

  /** A captured event for exactly the frozen amount captures; a failed one, or a captured one for any other amount,
      fails the row. */
  function HookExec(w: World, me: nat, op: Op, pc: Pc, c: Choice): (World, Pc)
    requires op.OpHook?
  {
    match pc
    case Start => (w, EventAnswered(Ledger.GetByIntent(w.payments, op.event.intent)))
    case Matched(row) =>
      if op.event.kind == CapturedKind && op.event.amount == row.amount then
        var (answer, w') := CaptureExec(w, me, row.intent);
        (w', CaptureAnswered(op, answer))
      else if op.event.kind != OtherKind then FailExec(w, op, row.intent)
      else (w, Done(Acked(false, true)))
    case _ => (w, pc)
  }

  // ----- one request's step -----

  function Exec(w: World, me: nat, op: Op, pc: Pc, c: Choice): (World, Pc) {
    match op
    case OpHold(_, _, _) => HoldExec(w, op, pc, c)
    case OpConfirm(_, _) => ConfirmExec(w, me, op, pc, c)
    case OpRelease(_, _) => ReleaseExec(w, op, pc, c)
    case OpIntent(_, _) => IntentExec(w, op, pc, c)
    case OpPay(_, _) => PayExec(w, me, op, pc, c)
    case OpHook(_) => HookExec(w, me, op, pc, c)
    case OpMap(_) => MapExec(w, op, pc, c)
  }

  /** Whether the step calls a port; the others only read the clock and mint. */
  predicate CallsPort(pc: Pc) { !pc.Read? && !pc.Unsold? && !pc.Done? }

  /** Where a request goes when its port call fails or its reply is lost. A failed cleanup does not fail a sale,
      a failed winner lookup surfaces the lost race, any gateway failure is a decline, and an unrecorded
      decline is still a decline. */
  function OnError(pc: Pc): Pc {
    match pc
    case Cleaning(booking) => Done(Bought(booking, true))
    case LostInsert(_) => Refuse(IntentExists)
    case Charging(row) => Declined(row.intent)
    case Declined(_) => Refuse(PaymentDeclined)
    case _ => Refuse(Infra)
  }

  // ----- the whole system -----

  datatype Request = Request(op: Op, pc: Pc)

  datatype State = State(w: World, reqs: map<nat, Request>)

  datatype Step =
    | Arrive(r: nat, op: Op)
    | Act(r: nat, c: Choice, net: Net)
    | Tick(to: int)
    | SeatVanishes(ref: SeatRef)
    | SessionVanishes(session: Id)
    | PriceChanges(screening: string, price: int)

  predicate Enabled(s: State, step: Step) {
    match step
    case Arrive(r, _) => r !in s.reqs
    case Act(r, c, net) =>
      && r in s.reqs && !s.reqs[r].pc.Done?
      && c.a != NoId && c.b != NoId && c.a != c.b && c.a !in s.w.minter && c.b !in s.w.minter
      && (net.Answered? || CallsPort(s.reqs[r].pc))
    case Tick(to) => s.w.now <= to
    case PriceChanges(screening, _) => screening in s.w.screenings
    case _ => true
  }

  function Mint(w: World, me: nat, c: Choice): World { w.(minter := w.minter[c.a := me][c.b := me]) }

  /** With a verified captured event the provider's word goes into the record. */
  function Arrived(w: World, op: Op): World {
    if op.OpHook? && op.event.kind == CapturedKind then w.(moved := w.moved + {(op.event.intent, op.event.amount)})
        else w
  }

  function Take(s: State, step: Step): State
    requires Enabled(s, step)
  {
    match step
    case Arrive(r, op) =>
      State(Arrived(s.w, op), s.reqs[r := Request(op, Start)])
    case Act(r, c, net) =>
      var Request(op, pc) := s.reqs[r];
      var minted := Mint(s.w, r, c);
      var (w, next) := Exec(minted, r, op, pc, c);
      (match net
       case Answered => State(w, s.reqs[r := Request(op, next)])
       case Dropped => State(minted, s.reqs[r := Request(op, OnError(pc))])
       case ReplyLost => State(w, s.reqs[r := Request(op, OnError(pc))]))
    case Tick(to) => s.(w := s.w.(now := to))
    case SeatVanishes(ref) => s.(w := s.w.(holds := Holds.Apply(s.w.holds, s.w.max, Holds.LoseSeatOp(ref))))
    case SessionVanishes(x) => s.(w := s.w.(holds := Holds.Apply(s.w.holds, s.w.max, Holds.LoseSessionOp(x))))
    case PriceChanges(screening, price) =>
      s.(w := s.w.(screenings := s.w.screenings[screening := s.w.screenings[screening].(price := price)],
                   prices := s.w.prices + {(screening, price)}))
  }

  ghost predicate Next(s: State, t: State) {
    exists step :: Enabled(s, step) && t == Take(s, step)
  }

  ghost predicate Init(s: State) {
    && s.reqs == map[]
    && s.w.holds == Holds.Empty() && s.w.sales == Sales.Table([], []) && s.w.payments == []
    && s.w.minter == map[] && s.w.moved == {} && s.w.checked == map[] && s.w.creator == map[] && s.w.captor == map[]
    && (forall x :: x in s.w.screenings ==> (x, s.w.screenings[x].price) in s.w.prices)
  }

  ghost predicate Run(run: seq<State>) {
    && |run| > 0
    && Init(run[0])
    && forall i :: 0 <= i < |run| - 1 ==> Next(run[i], run[i + 1])
  }
}
