/** Where the protocol's record comes from: each entry a theorem rests on is traced back to the step of the run
    that caused it. */
module ProtocolOrigins {
  import opened Domain
  import opened Protocol
  import opened ProtocolFacts
  import opened ProtocolSteps
  import opened ProtocolRuns
  import opened ProtocolTheorems
  import Holds
  import Ledger
  import Sales

  // ----- which program counter writes what -----

  /** The entries of interest are written at one program counter each. */
  ghost predicate Frames(w: World, v: World, op: Op, pc: Pc) {
    && ((op.OpConfirm? && pc.Paid?) || (v.checked == w.checked && v.sales == w.sales))
    && ((op.OpPay? && pc.Charging?) || v.moved == w.moved)
    && ((op.OpIntent? && pc.IntentMinted?) || |v.payments| == |w.payments|)
  }

  lemma CaptureFrames(w: World, me: nat, intent: Id)
    ensures var v := CaptureExec(w, me, intent).1;
            v.checked == w.checked && v.sales == w.sales && v.moved == w.moved && |v.payments| == |w.payments|
  {
  }

  lemma FailureKeepsLength(rows: seq<Payment>, intent: Id, now: int)
    ensures |Ledger.MarkFailed(rows, intent, now).1| == |rows|
  {
  }

  lemma HookFrames(w: World, me: nat, op: Op, pc: Pc, c: Choice)
    requires op.OpHook?
    ensures Frames(w, HookExec(w, me, op, pc, c).0, op, pc)
  {
    hide CaptureExec, Ledger.MarkFailed;
    if pc.Matched? {
      CaptureFrames(w, me, pc.row.intent);
      FailureKeepsLength(w.payments, pc.row.intent, w.now);
    }
  }

  lemma PayFrames(w: World, me: nat, op: Op, pc: Pc, c: Choice)
    requires op.OpPay?
    ensures Frames(w, PayExec(w, me, op, pc, c).0, op, pc)
  {
    hide CaptureExec, Ledger.MarkFailed;
    if pc.Charged? {
      CaptureFrames(w, me, pc.intent);
    } else if pc.Declined? {
      FailureKeepsLength(w.payments, pc.intent, w.now);
    }
  }

  lemma ExecFrames(w: World, me: nat, op: Op, pc: Pc, c: Choice)
    ensures Frames(w, Exec(w, me, op, pc, c).0, op, pc)
  {
    match op
    case OpHook(_) => hide HookExec, Frames; HookFrames(w, me, op, pc, c);
    case OpPay(_, _) => hide PayExec, Frames; PayFrames(w, me, op, pc, c);
    case _ => hide Sales.Commit, Holds.Apply, Ledger.Insert;
  }

  // ----- the expiry check behind a sale -----

  predicate PastGate(pc: Pc, hold: Hold, at: int) { pc == Gated(hold, at) || pc == Paid(hold, at) }

  /** A confirm is past its gate because it was before the step, or because this step checked it. */
  lemma StepGate(s: State, step: Step, r: nat, hold: Hold, at: int)
    requires Enabled(s, step)
    requires r in Take(s, step).reqs && Take(s, step).reqs[r].op.OpConfirm?
    requires PastGate(Take(s, step).reqs[r].pc, hold, at)
    ensures r in s.reqs && s.reqs[r].op == Take(s, step).reqs[r].op
    ensures PastGate(s.reqs[r].pc, hold, at) || (s.reqs[r].pc == Read(hold) && s.w.now == at)
  {
    hide Sales.Commit, Holds.Apply, Ledger.HasCaptured;
  }

  lemma {:induction false} GateWasPassed(run: seq<State>, j: nat, r: nat, hold: Hold, at: int) returns (i: nat)
    requires Run(run) && j < |run| && r in run[j].reqs && run[j].reqs[r].op.OpConfirm?
    requires PastGate(run[j].reqs[r].pc, hold, at)
    ensures i < j && r in run[i].reqs && run[i].reqs[r].op == run[j].reqs[r].op
    ensures run[i].reqs[r].pc == Read(hold) && run[i].w.now == at
    decreases j
  {
    hide Take, Enabled, Inv, Later, Persists;
    assert j > 0 by {
      assert Init(run[0]);
    }
    hide Init;
    var step := RunStep(run, j - 1);
    StepGate(run[j - 1], step, r, hold, at);
    if PastGate(run[j - 1].reqs[r].pc, hold, at) {
      i := GateWasPassed(run, j - 1, r, hold, at);
    } else {
      i := j - 1;
    }
  }

  /** The record of a check appears with the sale, copied from the confirm that makes it. */
  lemma StepChecked(s: State, step: Step, x: Id)
    requires Enabled(s, step) && x in Take(s, step).w.checked
    ensures (x in s.w.checked && Take(s, step).w.checked[x] == s.w.checked[x]) ||
            (step.Act? && s.reqs[step.r].op.OpConfirm? && s.reqs[step.r].pc.Paid? &&
             s.reqs[step.r].pc.hold.session == x && s.reqs[step.r].pc.at == Take(s, step).w.checked[x])
  {
    if step.Act? {
      var Request(op, pc) := s.reqs[step.r];
      var minted := Mint(s.w, step.r, step.c);
      ExecFrames(minted, step.r, op, pc, step.c);
      if op.OpConfirm? && pc.Paid? {
        hide Sales.Commit;
        assert Exec(minted, step.r, op, pc, step.c) == CommitExec(minted, step.r, pc.hold, pc.at, step.c);
      } else {
        hide Exec;
      }
    }
  }

  lemma {:induction false} CheckWasMade(run: seq<State>, j: nat, x: Id) returns (i: nat, r: nat)
    requires Run(run) && j < |run| && x in run[j].w.checked
    ensures i < j && r in run[i].reqs && run[i].reqs[r].op.OpConfirm? && run[i].reqs[r].op.session == x
    ensures run[i].reqs[r].pc.Read? && run[i].reqs[r].pc.hold.session == x && run[i].w.now == run[j].w.checked[x]
    decreases j
  {
    hide Take, Enabled, Later, Persists, WorldOk;
    assert j > 0 by {
      assert Init(run[0]);
    }
    hide Init;
    var step := RunStep(run, j - 1);
    var s := run[j - 1];
    StepChecked(s, step, x);
    if x in s.w.checked && run[j].w.checked[x] == s.w.checked[x] {
      i, r := CheckWasMade(run, j - 1, x);
    } else {
      r := step.r;
      EnabledAct(s, step);
      assert LocalOk(s.w, r, s.reqs[r].op, s.reqs[r].pc);
      hide Inv, LocalOk;
      i := GateWasPassed(run, j - 1, r, s.reqs[r].pc.hold, s.reqs[r].pc.at);
    }
  }

  lemma EnabledAct(s: State, step: Step)
    requires Enabled(s, step) && step.Act?
    ensures step.r in s.reqs && !s.reqs[step.r].pc.Done?
  {
  }

  /** Behind every booking stands an earlier moment of the run at which a confirm of its session, holding the
      hold it read, stood before its expiry check while that hold had not yet expired. */
  lemma SaleWasChecked(run: seq<State>, j: nat, b: Booking) returns (i: nat, r: nat)
    requires Run(run) && j < |run| && IsSold(run[j].w, b)
    ensures i < j && r in run[i].reqs && run[i].reqs[r].op.OpConfirm? && run[i].reqs[r].op.session == b.session
    ensures run[i].reqs[r].pc.Read? && run[i].reqs[r].pc.hold.session == b.session
    ensures b.session in run[j].w.holds.granted && run[i].w.now < run[j].w.holds.granted[b.session].expiresAt
  {
    SaleIsEarned(run, j, b);
    i, r := CheckWasMade(run, j, b.session);
  }

  // ----- the commit behind a sale -----

  /** A booking appears with the commit of a confirm that is past its gate, stamped with the clock of that step. */
  lemma StepSold(s: State, step: Step, b: Booking)
    requires Enabled(s, step) && IsSold(Take(s, step).w, b) && !IsSold(s.w, b)
    ensures step.Act? && s.reqs[step.r].op.OpConfirm? && s.reqs[step.r].pc.Paid?
    ensures b.session == s.reqs[step.r].pc.hold.session && b.confirmedAt == s.w.now
  {
    if step.Act? {
      var Request(op, pc) := s.reqs[step.r];
      var minted := Mint(s.w, step.r, step.c);
      ExecFrames(minted, step.r, op, pc, step.c);
      if op.OpConfirm? && pc.Paid? {
        assert Exec(minted, step.r, op, pc, step.c) == CommitExec(minted, step.r, pc.hold, pc.at, step.c);
        hide Exec, Sales.FindSession, Sales.SeatConfirmed;
      } else {
        hide Exec;
      }
    }
  }

  lemma {:induction false} SaleWasCommitted(run: seq<State>, j: nat, b: Booking) returns (k: nat, r: nat)
    requires Run(run) && j < |run| && IsSold(run[j].w, b)
    ensures k < j && !IsSold(run[k].w, b) && IsSold(run[k + 1].w, b)
    ensures r in run[k].reqs && run[k].reqs[r].op.OpConfirm? && run[k].reqs[r].pc.Paid?
    ensures b.session == run[k].reqs[r].pc.hold.session && b.confirmedAt == run[k].w.now
    decreases j
  {
    hide Take, Enabled, Inv, Later, Persists;
    assert j > 0 by {
      assert Init(run[0]);
    }
    hide Init;
    var step := RunStep(run, j - 1);
    if IsSold(run[j - 1].w, b) {
      k, r := SaleWasCommitted(run, j - 1, b);
    } else {
      k := j - 1;
      StepSold(run[k], step, b);
      EnabledAct(run[k], step);
      r := step.r;
    }
  }

  /** Some step from state i to state k takes the clock across the moment e. */
  ghost predicate Crosses(run: seq<State>, i: nat, k: nat, e: int)
    requires k < |run|
  {
    exists m {:trigger run[m]} :: i <= m < k && run[m].w.now < e && e <= run[m + 1].w.now
  }

  /** A booking is checked at one moment of the run and committed at a later one. The check is always before the expiry
      of the granted hold; the booking is late exactly if the clock crosses that expiry between the two. */
  lemma SaleIsLateIfExpiryPasses(run: seq<State>, j: nat, b: Booking) returns (i: nat, k: nat)
    requires Run(run) && j < |run| && IsSold(run[j].w, b)
    ensures i < k < j && b.session in run[j].w.holds.granted && b.confirmedAt == run[k].w.now
    ensures !IsSold(run[k].w, b) && IsSold(run[k + 1].w, b)
    ensures var e := run[j].w.holds.granted[b.session].expiresAt;
            run[i].w.now < e && (e <= b.confirmedAt <==> Crosses(run, i, k, e))
  {
    hide Take, Enabled, Init, Persists, Crosses;
    var r: nat;
    SaleIsEarned(run, j, b);
    k, r := SaleWasCommitted(run, j, b);
    var pc := run[k].reqs[r].pc;
    i := GateWasPassed(run, k, r, pc.hold, pc.at);
    PaidBeforeExpiry(run, k, j, r);
    CrossesIfLate(run, i, k, run[j].w.holds.granted[b.session].expiresAt);
  }

  lemma CrossesIfLate(run: seq<State>, i: nat, k: nat, e: int)
    requires Run(run) && i < k < |run| && run[i].w.now < e
    ensures e <= run[k].w.now <==> Crosses(run, i, k, e)
  {
    hide Run;
    if e <= run[k].w.now {
      var m := ExpiryPasses(run, i, k, e);
      assert run[m].w.now < e;
    }
    if m :| i <= m < k && run[m].w.now < e && e <= run[m + 1].w.now {
      ClockMonotone(run, m + 1, k);
    }
  }

  lemma ClockMonotone(run: seq<State>, i: nat, j: nat)
    requires Run(run) && i <= j < |run|
    ensures run[i].w.now <= run[j].w.now
  {
    hide Take, Enabled, Init, Persists;
    RunLater(run, i, j);
  }

  lemma PaidBeforeExpiry(run: seq<State>, k: nat, j: nat, r: nat)
    requires Run(run) && k <= j < |run| && r in run[k].reqs && run[k].reqs[r].op.OpConfirm? && run[k].reqs[r].pc.Paid?
    ensures var x := run[k].reqs[r].pc.hold.session;
            x in run[j].w.holds.granted && run[k].reqs[r].pc.at < run[j].w.holds.granted[x].expiresAt
  {
    hide Take, Enabled, Init, Persists;
    RunLater(run, k, j);
    assert LocalOk(run[k].w, r, run[k].reqs[r].op, run[k].reqs[r].pc);
  }

  /** If the clock is before a moment at one state and not at a later one, some step between them crosses it. */
  lemma {:induction false} ExpiryPasses(run: seq<State>, i: nat, k: nat, e: int) returns (m: nat)
    requires i < k < |run| && run[i].w.now < e <= run[k].w.now
    ensures i <= m < k && run[m].w.now < e <= run[m + 1].w.now
    decreases k
  {
    if run[k - 1].w.now < e {
      m := k - 1;
    } else {
      m := ExpiryPasses(run, i, k - 1, e);
    }
  }

  // ----- the money behind a capture -----

  /** The provider says this amount of the intent has moved: a verified captured event arrives, or the gateway
      accepts a client's capture, whether or not its reply gets through. */
  predicate SaysMoved(s: State, step: Step, intent: Id, amount: int) {
    match step
    case Arrive(_, OpHook(event)) => event == Event(CapturedKind, intent, amount)
    case Act(r, c, net) =>
      && r in s.reqs && s.reqs[r].op.OpPay? && s.reqs[r].pc.Charging?
      && c.accepts && !net.Dropped?
      && s.reqs[r].pc.row.intent == intent && s.reqs[r].pc.row.amount == amount
    case _ => false
  }

  lemma StepMoved(s: State, step: Step, intent: Id, amount: int)
    requires Enabled(s, step) && (intent, amount) in Take(s, step).w.moved
    ensures (intent, amount) in s.w.moved || SaysMoved(s, step, intent, amount)
  {
    if step.Act? {
      var Request(op, pc) := s.reqs[step.r];
      var minted := Mint(s.w, step.r, step.c);
      ExecFrames(minted, step.r, op, pc, step.c);
      if op.OpPay? && pc.Charging? {
        assert Exec(minted, step.r, op, pc, step.c) == PayExec(minted, step.r, op, pc, step.c);
      } else {
        hide Exec;
      }
    }
  }

  lemma {:induction false} MoneyMoved(run: seq<State>, j: nat, intent: Id, amount: int) returns (i: nat, step: Step)
    requires Run(run) && j < |run| && (intent, amount) in run[j].w.moved
    ensures i < j && Enabled(run[i], step) && run[i + 1] == Take(run[i], step) &&
      SaysMoved(run[i], step, intent, amount)
    decreases j
  {
    hide Take, Enabled, Inv, Later, Persists, SaysMoved;
    assert j > 0 by {
      assert Init(run[0]);
    }
    hide Init;
    i := j - 1;
    step := RunStep(run, i);
    StepMoved(run[i], step, intent, amount);
    if !SaysMoved(run[i], step, intent, amount) {
      i, step := MoneyMoved(run, i, intent, amount);
    }
  }

  /** A captured row rests on an earlier step by which the provider says that exactly the row's own, frozen
      amount has moved. */
  lemma CaptureHadMoney(run: seq<State>, j: nat, p: Payment) returns (i: nat, step: Step)
    requires Run(run) && j < |run| && p in run[j].w.payments && p.status == Captured
    ensures i < j && Enabled(run[i], step) && run[i + 1] == Take(run[i], step)
    ensures SaysMoved(run[i], step, p.intent, p.amount)
  {
    RunInv(run, j);
    assert PaymentOk(run[j].w, p);
    i, step := MoneyMoved(run, j, p.intent, p.amount);
  }

  // ----- the price behind an amount -----

  predicate Asking(pc: Pc, hold: Hold, price: int) {
    pc == Priced(hold, price) || (pc.IntentMinted? && pc.hold == hold && pc.price == price)
  }

  /** The screening asks this price while the request looks it up. */
  predicate LooksUp(s: State, r: nat, hold: Hold, price: int) {
    && r in s.reqs && s.reqs[r].op.OpIntent? && s.reqs[r].pc == NoIntent(hold)
    && hold.screening in s.w.screenings && s.w.screenings[hold.screening].price == price
  }

  lemma StepAsking(s: State, step: Step, r: nat, hold: Hold, price: int)
    requires Enabled(s, step)
    requires r in Take(s, step).reqs && Take(s, step).reqs[r].op.OpIntent?
    requires Asking(Take(s, step).reqs[r].pc, hold, price)
    ensures r in s.reqs && s.reqs[r].op == Take(s, step).reqs[r].op
    ensures Asking(s.reqs[r].pc, hold, price) || LooksUp(s, r, hold, price)
  {
    hide Ledger.Insert, Ledger.GetActive, Holds.Apply, ConfirmExec, PayExec, HookExec, HoldExec, MapExec, ReleaseExec;
  }

  lemma {:induction false} PriceWasLookedUp(run: seq<State>, j: nat, r: nat, hold: Hold, price: int) returns (i: nat)
    requires Run(run) && j < |run| && r in run[j].reqs && run[j].reqs[r].op.OpIntent?
    requires Asking(run[j].reqs[r].pc, hold, price)
    ensures i < j && LooksUp(run[i], r, hold, price) && run[i].reqs[r].op == run[j].reqs[r].op
    decreases j
  {
    hide Take, Enabled, Inv, Later, Persists;
    assert j > 0 by {
      assert Init(run[0]);
    }
    hide Init;
    var step := RunStep(run, j - 1);
    StepAsking(run[j - 1], step, r, hold, price);
    if Asking(run[j - 1].reqs[r].pc, hold, price) {
      i := PriceWasLookedUp(run, j - 1, r, hold, price);
    } else {
      i := j - 1;
    }
  }

  /** Rows are appended by create-intent requests only, with the price they carry. */
  lemma StepInserted(s: State, step: Step, k: nat)
    requires Enabled(s, step) && |s.w.payments| <= k < |Take(s, step).w.payments|
    ensures step.Act? && s.reqs[step.r].op.OpIntent? && s.reqs[step.r].pc.IntentMinted?
    ensures var p, pc := Take(s, step).w.payments[k], s.reqs[step.r].pc;
            p.intent == pc.intent && p.amount == pc.price && p.session == s.reqs[step.r].op.session
  {
    if step.Act? {
      var Request(op, pc) := s.reqs[step.r];
      var minted := Mint(s.w, step.r, step.c);
      ExecFrames(minted, step.r, op, pc, step.c);
      if op.OpIntent? && pc.IntentMinted? {
        hide Ledger.FindIntent, Ledger.FirstClash;
        assert Exec(minted, step.r, op, pc, step.c) == IntentExec(minted, op, pc, step.c);
      } else {
        hide Exec;
      }
    }
  }

  /** Every row's amount is the price its screening asked at an earlier moment of the run, while the very request
      that minted the row's intent was looking it up for the row's session. */
  lemma {:induction false} AmountWasThePrice(run: seq<State>, j: nat, k: nat) returns (i: nat, hold: Hold)
    requires Run(run) && j < |run| && k < |run[j].w.payments|
    ensures var p := run[j].w.payments[k];
            && i < j && p.intent in run[j].w.minter
            && LooksUp(run[i], run[j].w.minter[p.intent], hold, p.amount)
            && run[i].reqs[run[j].w.minter[p.intent]].op.session == p.session
            && hold.session == p.session
    decreases j
  {
    hide Take, Enabled, Persists, LooksUp, WorldOk;
    assert j > 0 by {
      assert Init(run[0]);
    }
    hide Init;
    var step := RunStep(run, j - 1);
    var s := run[j - 1];
    if k < |s.w.payments| {
      assert Ledger.SameIntent(s.w.payments[k], run[j].w.payments[k]);
      i, hold := AmountWasThePrice(run, j - 1, k);
    } else {
      StepInserted(s, step, k);
      EnabledAct(s, step);
      var r := step.r;
      assert LocalOk(s.w, r, s.reqs[r].op, s.reqs[r].pc);
      hold := s.reqs[r].pc.hold;
      i := PriceWasLookedUp(run, j - 1, r, hold, s.reqs[r].pc.price);
    }
  }

  // ----- the step behind a ready intent -----

  /** What the step from s to t does when it answers an intent request with row p: a created one is the row that this
      very step appends, any other stood in the table already as an ongoing row of the session. */
  ghost predicate AnswersIntent(s: State, t: State, session: Id, p: Payment, created: bool) {
    if created then t.w.payments == s.w.payments + [p] && p.session == session && p.status == Intent
    else t.w.payments == s.w.payments && p in s.w.payments && p.session == session && p.status != Failed &&
         p.status != Refunded
  }

  lemma InsertAppends(rows: seq<Payment>, p: Payment, id: Id, now: int)
    ensures var (answer, after) := Ledger.Insert(rows, p, id, now);
            answer.Ok? ==>
              after == rows + [answer.value] && answer.value.session == p.session && answer.value.status == Intent
  {
  }

  lemma ActiveIsThere(rows: seq<Payment>, session: Id)
    ensures var found := Ledger.GetActive(rows, session);
            found.Ok? ==>
              found.value in rows && found.value.session == session && found.value.status != Failed &&
              found.value.status != Refunded
  {
  }

  lemma StepReady(s: State, step: Step, r: nat, p: Payment, created: bool, payBy: int)
    requires Enabled(s, step) && r in Take(s, step).reqs && Take(s, step).reqs[r].op.OpIntent?
    requires Take(s, step).reqs[r].pc == Done(IntentReady(p, created, payBy))
    ensures r in s.reqs && s.reqs[r].op == Take(s, step).reqs[r].op
    ensures s.reqs[r].pc == Done(IntentReady(p, created, payBy)) ||
            (!s.reqs[r].pc.Done? && AnswersIntent(s, Take(s, step), s.reqs[r].op.session, p, created))
  {
    hide HoldExec, ConfirmExec, ReleaseExec, PayExec, HookExec, MapExec, Ledger.Insert, Ledger.GetActive;
    if step.Act? && step.r == r && s.reqs[r].op.OpIntent? {
      var Request(op, pc) := s.reqs[r];
      var minted := Mint(s.w, r, step.c);
      assert Exec(minted, r, op, pc, step.c) == IntentExec(minted, op, pc, step.c);
      hide Exec;
      if pc.IntentMinted? {
        InsertAppends(s.w.payments, NewRow(op.session, pc.intent, pc.price), step.c.a, s.w.now);
      } else if pc.Gated? || pc.LostInsert? {
        ActiveIsThere(s.w.payments, op.session);
        assert IntentExec(minted, op, pc, step.c) ==
               (minted, ActiveAnswered(op, pc, Ledger.GetActive(s.w.payments, op.session)));
      }
    }
  }

  /** Behind every ready intent stands the step that answered it: the request says "created" exactly if its own step
      appended the row; after a lost insert race, as on any reuse, it returns a row that was there and says so. */
  lemma {:induction false} IntentWasAnswered(run: seq<State>, j: nat, r: nat, p: Payment, created: bool, payBy: int)
    returns (i: nat)
    requires Run(run) && j < |run| && r in run[j].reqs && run[j].reqs[r].op.OpIntent?
    requires run[j].reqs[r].pc == Done(IntentReady(p, created, payBy))
    ensures i < j && r in run[i].reqs && run[i].reqs[r].op == run[j].reqs[r].op && !run[i].reqs[r].pc.Done?
    ensures AnswersIntent(run[i], run[i + 1], run[j].reqs[r].op.session, p, created)
    decreases j
  {
    hide Take, Enabled, Inv, Later, Persists, AnswersIntent;
    assert j > 0 by {
      assert Init(run[0]);
    }
    hide Init;
    i := j - 1;
    var step := RunStep(run, i);
    StepReady(run[i], step, r, p, created, payBy);
    if run[i].reqs[r].pc.Done? {
      i := IntentWasAnswered(run, i, r, p, created, payBy);
    }
  }
}
