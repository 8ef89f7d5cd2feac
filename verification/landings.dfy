/** Where each port call takes its request and the shared state, stated for the answer the caller sees. */
module Landings {
  import opened Domain
  import opened Protocol
  import opened ProtocolFacts
  import opened ProtocolRuns
  import Geometry
  import Holds
  import Ledger
  import Sales

  function Last(run: seq<State>): State
    requires run != []
  {
    run[|run| - 1]
  }

  /** Request me, running op, stands at pc. */
  predicate At(run: seq<State>, me: nat, op: Op, pc: Pc) {
    run != [] && me in Last(run).reqs && Last(run).reqs[me] == Request(op, pc)
  }

  lemma RunGrows(run: seq<State>, step: Step)
    requires Run(run) && Enabled(Last(run), step)
    ensures Run(run + [Take(Last(run), step)])
  {
    hide Init, Take, Enabled;
    var longer := run + [Take(Last(run), step)];
    assert longer[|longer| - 2] == Last(run);
    forall i | 0 <= i < |longer| - 1 ensures Next(longer[i], longer[i + 1]) {
      if i < |run| - 1 {
        assert Next(run[i], run[i + 1]);
      }
    }
  }

  /** Every minted number lies below the next one. */
  ghost predicate Below(minter: map<Id, nat>, nextId: nat) {
    forall n: nat :: Id(n) in minter ==> n < nextId
  }

  /** No request but me has moved. */
  ghost predicate OthersWait(run: seq<State>, longer: seq<State>, me: nat) {
    && run != [] && longer != []
    && forall q :: q in Last(run).reqs && q != me ==>
       q in Last(longer).reqs && Last(longer).reqs[q] == Last(run).reqs[q]
  }

  ghost predicate AllWait(run: seq<State>, longer: seq<State>) {
    && run != [] && longer != []
    && forall q :: q in Last(run).reqs ==> q in Last(longer).reqs && Last(longer).reqs[q] == Last(run).reqs[q]
  }

  /** Where a call leaves its request, and the world. */
  function Landing(w: World, me: nat, op: Op, pc: Pc, c: Choice, net: Net): Pc {
    if net.Answered? then Exec(Mint(w, me, c), me, op, pc, c).1 else OnError(pc)
  }

  function After(w: World, me: nat, op: Op, pc: Pc, c: Choice, net: Net): World {
    if net.Dropped? then Mint(w, me, c) else Exec(Mint(w, me, c), me, op, pc, c).0
  }

  lemma HookKeepsMinter(w: World, me: nat, op: Op, pc: Pc, c: Choice)
    requires op.OpHook?
    ensures HookExec(w, me, op, pc, c).0.minter == w.minter
  {
    hide Ledger.Capture, Ledger.MarkFailed, Ledger.GetByIntent;
  }

  lemma ExecKeepsMinter(w: World, me: nat, op: Op, pc: Pc, c: Choice)
    ensures Exec(w, me, op, pc, c).0.minter == w.minter
  {
    match op
    case OpHook(_) => hide HookExec; HookKeepsMinter(w, me, op, pc, c);
    case _ =>
      hide HookExec, Holds.Apply, Holds.Answer, Sales.Commit, Ledger.Insert, Ledger.Capture, Ledger.MarkFailed,
           Ledger.GetActive, ReadHold, Checked;
  }

  /** Every call mints its two identifiers and no more. */
  lemma AfterMints(w: World, me: nat, op: Op, pc: Pc, c: Choice, net: Net)
    ensures After(w, me, op, pc, c, net).minter == w.minter[c.a := me][c.b := me]
  {
    hide Exec;
    ExecKeepsMinter(Mint(w, me, c), me, op, pc, c);
  }

  /** A step of request me, under the next two identifiers, takes the run on. */
  lemma ActLands(run: seq<State>, me: nat, op: Op, pc: Pc, c: Choice, net: Net, n: nat)
    requires run != [] && Run(run) && At(run, me, op, pc) && !pc.Done? && (net.Answered? || CallsPort(pc))
    requires c.a == Id(n) && c.b == Id(n + 1) && Below(Last(run).w.minter, n)
    ensures Enabled(Last(run), Act(me, c, net))
    ensures var longer := run + [Take(Last(run), Act(me, c, net))];
            && Run(longer) && At(longer, me, op, Landing(Last(run).w, me, op, pc, c, net))
            && Last(longer).w == After(Last(run).w, me, op, pc, c, net) && Below(Last(longer).w.minter, n + 2)
            && OthersWait(run, longer, me)
  {
    hide Run, Exec, OnError, CallsPort;
    RunGrows(run, Act(me, c, net));
    AfterMints(Last(run).w, me, op, pc, c, net);
  }

  /** Nothing but the two identifiers is new. */
  ghost predicate OnlyReads(w: World, v: World) { v == w.(minter := v.minter) }

  /** Which requests read a hold by session. */
  predicate ReadsHold(op: Op, session: Id) {
    (op.OpConfirm? || op.OpIntent? || op.OpPay?) && op.session == session
  }

  lemma GetSteps(w: World, me: nat, op: Op, session: Id, c: Choice)
    requires ReadsHold(op, session)
    ensures Exec(w, me, op, Start, c) == (w, ReadHold(w, session, c))
  {
  }

  lemma GetLands(w: World, me: nat, op: Op, session: Id, c: Choice, net: Net)
    requires ReadsHold(op, session)
    ensures OnlyReads(w, After(w, me, op, Start, c, net))
    ensures Landing(w, me, op, Start, c, net) == if net.Answered? then ReadHold(w, session, c) else Refuse(Infra)
  {
    GetSteps(Mint(w, me, c), me, op, session, c);
    hide Exec;
  }

  /** Every record is filed under its own session. */
  lemma RecordsAreFiled(run: seq<State>, session: Id)
    requires run != [] && Run(run)
    ensures var sessions := Last(run).w.holds.keys.sessions;
            session in sessions ==> sessions[session].session == session
  {
    RunInv(run, |run| - 1);
    assert HoldsOk(Last(run).w);
  }

  // ----- the catalogue and the clock -----

  predicate ReadsScreening(op: Op, pc: Pc, id: string) {
    (op.OpHold? && pc.Start? && op.screening == id) || (op.OpMap? && pc.Start? && op.screening == id) ||
    (op.OpIntent? && pc.NoIntent? && pc.hold.screening == id)
  }

  lemma ScreeningLands(w: World, me: nat, op: Op, pc: Pc, c: Choice, net: Net, id: string)
    requires ReadsScreening(op, pc, id)
    ensures OnlyReads(w, After(w, me, op, pc, c, net))
    ensures Landing(w, me, op, pc, c, net) ==
            ScreeningAnswered(op, pc, if net.Answered? then FindScreening(w.screenings, id) else Err(Infra))
  {
    hide Geometry.HasSeat;
  }

  lemma MintLands(w: World, me: nat, op: Op, c: Choice)
    requires op.OpHold?
    ensures OnlyReads(w, After(w, me, op, Unsold, c, Answered))
    ensures var hold := HoldOf(op, c.a, c.b, w.now + w.ttl);
            Landing(w, me, op, Unsold, c, Answered) == if hold.Validates(w.now) then Claiming(hold)
                else Refuse(InvalidHold)
  {
  }

  lemma ClockLands(w: World, me: nat, op: Op, hold: Hold, c: Choice)
    requires op.OpConfirm? || op.OpIntent? || op.OpPay?
    ensures OnlyReads(w, After(w, me, op, Read(hold), c, Answered))
    ensures Landing(w, me, op, Read(hold), c, Answered) == Checked(w.now, op.user, hold)
  {
  }

  // ----- writing the hold store -----

  /** What the store answers to a claim, and the keys it leaves. */
  function StoreClaim(w: World, hold: Hold, c: Choice): (Result<()>, Holds.Keys) {
    if c.redis && !hold.Validates(w.now) then (Err(InvalidHold), w.holds.keys)
        else Holds.Claim(w.holds.keys, w.max, hold)
  }

  lemma ClaimLands(w: World, me: nat, op: Op, hold: Hold, c: Choice, net: Net)
    requires op.OpHold?
    ensures var v := After(w, me, op, Claiming(hold), c, net);
            && v == w.(minter := v.minter, holds := v.holds)
            && v.holds.keys == if net.Dropped? then w.holds.keys else StoreClaim(w, hold, c).1
    ensures Landing(w, me, op, Claiming(hold), c, net) ==
            ClaimAnswered(hold, if net.Answered? then StoreClaim(w, hold, c).0 else Err(Infra))
  {
    hide Holds.Granted;
  }

  predicate GivesUp(op: Op, pc: Pc) { (op.OpRelease? && pc.Start?) || (op.OpConfirm? && pc.Cleaning?) }

  lemma ReleaseLands(w: World, me: nat, op: Op, pc: Pc, c: Choice, net: Net)
    requires GivesUp(op, pc)
    ensures var v := After(w, me, op, pc, c, net);
            && v == w.(minter := v.minter, holds := v.holds)
            && v.holds.keys == if net.Dropped? then w.holds.keys else Holds.Release(w.holds.keys, op.session, op.user).1
    ensures Landing(w, me, op, pc, c, net) ==
            ReleaseAnswered(pc, if net.Answered? then Holds.Release(w.holds.keys, op.session, op.user).0
                else Err(Infra))
  {
    hide Holds.Dropped;
  }

  lemma HeldLands(w: World, me: nat, op: Op, booked: set<Seat>, c: Choice, net: Net)
    requires op.OpMap?
    ensures OnlyReads(w, After(w, me, op, Sold(booked), c, net))
    ensures Landing(w, me, op, Sold(booked), c, net) ==
            if net.Answered? then Done(MapShown(booked, HeldSeats(w.holds.keys, op.screening))) else Refuse(Infra)
  {
    hide HeldSeats;
  }

  // ----- bookings -----

  lemma SeatLands(w: World, me: nat, op: Op, c: Choice, net: Net)
    requires op.OpHold?
    ensures OnlyReads(w, After(w, me, op, InGrid, c, net))
    ensures Landing(w, me, op, InGrid, c, net) ==
            SeatAnswered(if net.Answered? then Ok(Sales.SeatConfirmed(w.sales.rows, SeatRef(op.screening, op.seat)))
                         else Err(Infra))
  {
    hide Sales.SeatConfirmed;
  }

  lemma MapLands(w: World, me: nat, op: Op, c: Choice, net: Net)
    requires op.OpMap?
    ensures OnlyReads(w, After(w, me, op, OnGrid, c, net))
    ensures Landing(w, me, op, OnGrid, c, net) ==
            if net.Answered? then Sold(Sales.ConfirmedSeats(w.sales.rows, op.screening)) else Refuse(Infra)
  {
    hide Sales.ConfirmedSeats;
  }

  lemma CommitLands(w: World, me: nat, op: Op, hold: Hold, at: int, c: Choice, net: Net)
    requires op.OpConfirm?
    ensures var (answer, table) := Sales.Commit(w.sales, Order(hold), c.a, c.b, w.now, c.reported);
            var v := After(w, me, op, Paid(hold, at), c, net);
            && v == w.(minter := v.minter, sales := v.sales, checked := v.checked, creator := v.creator)
            && v.sales == (if net.Dropped? then w.sales else table)
            && Landing(w, me, op, Paid(hold, at), c, net) == CommitAnswered(if net.Answered? then answer
               else Err(Infra))
  {
    hide Sales.FindSession, Sales.SeatConfirmed, Sales.EventOf;
  }

  lemma RecoveryLands(w: World, me: nat, op: Op, conflict: Error, c: Choice, net: Net)
    requires op.OpConfirm?
    ensures OnlyReads(w, After(w, me, op, Conflicted(conflict), c, net))
    ensures Landing(w, me, op, Conflicted(conflict), c, net) ==
            RecoveryAnswered(op.user, conflict,
                             if net.Answered? then Sales.GetBySession(w.sales.rows, op.session) else Err(Infra))
  {
    hide Sales.FindSession;
  }

  // ----- payments -----

  lemma GateLands(w: World, me: nat, op: Op, hold: Hold, at: int, c: Choice, net: Net)
    requires op.OpConfirm?
    ensures OnlyReads(w, After(w, me, op, Gated(hold, at), c, net))
    ensures Landing(w, me, op, Gated(hold, at), c, net) ==
            GateAnswered(hold, at, if net.Answered? then Ok(Ledger.HasCaptured(w.payments, op.session)) else Err(Infra))
  {
    hide Ledger.HasCaptured;
  }

  predicate ReadsActive(op: Op, pc: Pc) {
    (op.OpIntent? && (pc.Gated? || pc.LostInsert?)) || (op.OpPay? && pc.Gated?)
  }

  lemma ActiveLands(w: World, me: nat, op: Op, pc: Pc, c: Choice, net: Net)
    requires ReadsActive(op, pc)
    ensures OnlyReads(w, After(w, me, op, pc, c, net))
    ensures Landing(w, me, op, pc, c, net) ==
            ActiveAnswered(op, pc, if net.Answered? then Ledger.GetActive(w.payments, op.session) else Err(Infra))
  {
    hide Ledger.LastActive;
  }

  lemma GatewayLands(w: World, me: nat, op: Op, hold: Hold, price: int, c: Choice, net: Net)
    requires op.OpIntent?
    ensures OnlyReads(w, After(w, me, op, Priced(hold, price), c, net))
    ensures Landing(w, me, op, Priced(hold, price), c, net) ==
            MintedAnswered(hold, price, if net.Answered? then GatewayIntent(price, c.accepts, c.a) else Err(Infra))
  {
  }

  lemma InsertLands(w: World, me: nat, op: Op, hold: Hold, price: int, intent: Id, c: Choice, net: Net)
    requires op.OpIntent?
    ensures var (answer, rows) := Ledger.Insert(w.payments, NewRow(op.session, intent, price), c.a, w.now);
            var v := After(w, me, op, IntentMinted(hold, price, intent), c, net);
            && v == w.(minter := v.minter, payments := v.payments)
            && v.payments == (if net.Dropped? then w.payments else rows)
            && Landing(w, me, op, IntentMinted(hold, price, intent), c, net) ==
               InsertAnswered(hold, if net.Answered? then answer else Err(Infra))
  {
    hide Ledger.FirstClash;
  }

  lemma ChargeLands(w: World, me: nat, op: Op, row: Payment, c: Choice, net: Net)
    requires op.OpPay?
    ensures var v := After(w, me, op, Charging(row), c, net); v == w.(minter := v.minter, moved := v.moved)
    ensures Landing(w, me, op, Charging(row), c, net) ==
            if net.Answered? && c.accepts then Charged(row.intent) else Declined(row.intent)
  {
  }

  predicate Captures(op: Op, pc: Pc, intent: Id) {
    (op.OpPay? && pc == Charged(intent)) ||
    (op.OpHook? && pc.Matched? && pc.row.intent == intent && op.event.kind == CapturedKind &&
        op.event.amount == pc.row.amount)
  }

  lemma CaptureLands(w: World, me: nat, op: Op, pc: Pc, intent: Id, c: Choice, net: Net)
    requires Captures(op, pc, intent)
    ensures var (answer, rows) := Ledger.Capture(w.payments, intent, w.now);
            var v := After(w, me, op, pc, c, net);
            && v == w.(minter := v.minter, payments := v.payments, captor := v.captor)
            && v.payments == (if net.Dropped? then w.payments else rows)
            && Landing(w, me, op, pc, c, net) == CaptureAnswered(op, if net.Answered? then answer else Err(Infra))
  {
    hide Ledger.Capture;
  }

  predicate Fails(op: Op, pc: Pc, intent: Id) {
    (op.OpPay? && pc == Declined(intent)) ||
    (op.OpHook? && pc.Matched? && pc.row.intent == intent &&
     (op.event.kind == FailedKind || (op.event.kind == CapturedKind && op.event.amount != pc.row.amount)))
  }

  lemma FailLands(w: World, me: nat, op: Op, pc: Pc, intent: Id, c: Choice, net: Net)
    requires Fails(op, pc, intent)
    ensures var (answer, rows) := Ledger.MarkFailed(w.payments, intent, w.now);
            var v := After(w, me, op, pc, c, net);
            && v == w.(minter := v.minter, payments := v.payments)
            && v.payments == (if net.Dropped? then w.payments else rows)
            && Landing(w, me, op, pc, c, net) == FailAnswered(op, if net.Answered? then answer else Err(Infra))
  {
    hide Ledger.MarkFailed;
  }

  lemma EventLands(w: World, me: nat, op: Op, c: Choice, net: Net)
    requires op.OpHook?
    ensures OnlyReads(w, After(w, me, op, Start, c, net))
    ensures Landing(w, me, op, Start, c, net) ==
            EventAnswered(if net.Answered? then Ledger.GetByIntent(w.payments, op.event.intent) else Err(Infra))
  {
    hide Ledger.FindIntent;
  }

  lemma OtherLands(w: World, me: nat, op: Op, row: Payment, c: Choice)
    requires op.OpHook? && op.event.kind == OtherKind
    ensures OnlyReads(w, After(w, me, op, Matched(row), c, Answered))
    ensures Landing(w, me, op, Matched(row), c, Answered) == Done(Acked(false, true))
  {
  }
}
