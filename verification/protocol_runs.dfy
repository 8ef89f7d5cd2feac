/** The guarantees of the protocol over every run: any number of requests, interleaved in any order. */
module ProtocolRuns {
  import opened Domain
  import opened Protocol
  import opened ProtocolFacts
  import opened ProtocolSteps
  import Holds
  import Ledger

  // ----- one step of the system -----

  lemma ConfirmErrorOk(w: World, v: World, me: nat, op: Op, pc: Pc)
    requires op.OpConfirm? && ConfirmLocal(w, me, op, pc) && Later(w, v) && !pc.Done?
    ensures ConfirmLocal(v, me, op, OnError(pc))
  {
    hide Later, Known, Passed, SeatLost;
    if pc.Cleaning? {
      SoldForGood(w, v, pc.booking);
      CreatorStays(w, v, op.session);
    }
  }

  lemma PayErrorOk(w: World, v: World, me: nat, op: Op, pc: Pc)
    requires op.OpPay? && PayLocal(w, me, op, pc) && Later(w, v) && Ledger.Lawful(v.payments) && !pc.Done?
    ensures PayLocal(v, me, op, OnError(pc))
  {
    hide Later, Known, Passed, Payable;
    if pc.Charging? {
      RowStaysKnown(w, v, pc.row.intent);
    }
  }

  /** A failed or unanswered port call leaves the request with facts it may rely on. */
  lemma OnErrorOk(w: World, v: World, me: nat, op: Op, pc: Pc)
    requires LocalOk(w, me, op, pc) && Later(w, v) && Ledger.Lawful(v.payments) && !pc.Done?
    ensures LocalOk(v, me, op, OnError(pc))
  {
    hide Later, Ledger.Lawful, ConfirmLocal, PayLocal, Known, Passed, Settled, AllSold, RowKnown, Unspent,
         UnspentIntent;
    match op {
      case OpConfirm(_, _) => ConfirmErrorOk(w, v, me, op, pc);
      case OpPay(_, _) => PayErrorOk(w, v, me, op, pc);
      case _ =>
    }
  }

  lemma CreatorStays(w: World, v: World, session: Id)
    requires Later(w, v) && session in w.creator
    ensures session in v.creator && v.creator[session] == w.creator[session]
  {
  }

  /** Requests keep their operation and finished ones their outcome. */
  ghost predicate Persists(s: State, t: State) {
    forall r :: r in s.reqs ==>
      r in t.reqs && t.reqs[r].op == s.reqs[r].op && (s.reqs[r].pc.Done? ==> t.reqs[r] == s.reqs[r])
  }

  lemma ActSound(s: State, r: nat, c: Choice, net: Net)
    requires Inv(s) && Enabled(s, Act(r, c, net))
    ensures var t := Take(s, Act(r, c, net)); Inv(t) && Later(s.w, t.w) && Persists(s, t)
  {
    hide WorldOk, LocalOk, Later, NewBy, Exec, OnError, Mint;
    var Request(op, pc) := s.reqs[r];
    var minted := Mint(s.w, r, c);
    MintSound(s.w, r, c);
    LawfulPayments(minted);
    LocalStays(s.w, minted, r + 1, r, op, pc);
    ExecSound(minted, r, op, pc, c);
    var (v, next) := Exec(minted, r, op, pc, c);
    LawfulPayments(v);
    OnErrorOk(minted, v, r, op, pc);
    LaterTransitive(s.w, minted, v);
    OnErrorOk(s.w, minted, r, op, pc);
    forall q | q in s.reqs && q != r
      ensures LocalOk(minted, q, s.reqs[q].op, s.reqs[q].pc) && LocalOk(v, q, s.reqs[q].op, s.reqs[q].pc)
    {
      LocalStays(s.w, minted, r, q, s.reqs[q].op, s.reqs[q].pc);
      LocalStays(minted, v, r, q, s.reqs[q].op, s.reqs[q].pc);
    }
  }

  lemma LawfulPayments(w: World)
    requires WorldOk(w)
    ensures Ledger.Lawful(w.payments)
  {
  }

  /** A step outside every request: the world changes soundly and no request moves. */
  lemma AmbientSound(s: State, v: World, me: nat)
    requires Inv(s) && Sound(s.w, v, me) && me !in s.reqs
    ensures Inv(s.(w := v)) && Persists(s, s.(w := v))
  {
    hide WorldOk, LocalOk, Later, NewBy;
    LawfulPayments(v);
    forall q | q in s.reqs ensures LocalOk(v, q, s.reqs[q].op, s.reqs[q].pc) {
      LocalStays(s.w, v, me, q, s.reqs[q].op, s.reqs[q].pc);
    }
  }

  lemma {:induction false} UnusedRequest(reqs: set<nat>) returns (r: nat)
    ensures r !in reqs && forall q :: q in reqs ==> q < r
  {
    r := 0;
    if reqs != {} {
      var q :| q in reqs;
      var rest := UnusedRequest(reqs - {q});
      r := if q < rest then rest else q + 1;
      assert forall x :: x in reqs ==> x == q || x in reqs - {q};
    }
  }

  lemma ArriveSound(s: State, r: nat, op: Op)
    requires Inv(s) && r !in s.reqs
    ensures var t := Take(s, Arrive(r, op)); Inv(t) && Later(s.w, t.w) && Persists(s, t)
  {
    hide WorldOk, Later, NewBy;
    var t := Take(s, Arrive(r, op));
    if op.OpHook? && op.event.kind == CapturedKind {
      MovedSound(s.w, r, op.event.intent, op.event.amount);
    } else {
      Unchanged(s.w, r);
    }
    assert LocalOk(t.w, r, op, Start);
    hide LocalOk;
    AmbientSound(s, t.w, r);
  }

  /** Every step of the system keeps the invariant and only moves the world forward. */
  lemma StepSound(s: State, step: Step)
    requires Inv(s) && Enabled(s, step)
    ensures var t := Take(s, step); Inv(t) && Later(s.w, t.w) && Persists(s, t)
  {
    match step {
      case Arrive(r, op) => ArriveSound(s, r, op);
      case Act(r, c, net) => ActSound(s, r, c, net);
      case _ =>
        hide Inv, WorldOk, LocalOk, Later, NewBy, Persists;
        AmbientStepSound(s, step);
    }
  }

  lemma AmbientStepSound(s: State, step: Step)
    requires Inv(s) && Enabled(s, step) && !step.Arrive? && !step.Act?
    ensures var t := Take(s, step); Inv(t) && Later(s.w, t.w) && Persists(s, t)
  {
    hide WorldOk, LocalOk, Later, NewBy, Persists, Holds.Apply;
    var r := UnusedRequest(s.reqs.Keys);
    match step {
      case Tick(to) => TickSound(s.w, r, to);
      case SeatVanishes(ref) => HoldKeysSound(s.w, r, Holds.LoseSeatOp(ref));
      case SessionVanishes(x) => HoldKeysSound(s.w, r, Holds.LoseSessionOp(x));
      case PriceChanges(screening, price) => PriceSound(s.w, r, screening, price);
    }
    AmbientSound(s, Take(s, step).w, r);
  }

  // ----- runs -----

  lemma InitInv(s: State)
    requires Init(s)
    ensures Inv(s)
  {
    Holds.EmptyInv(s.w.max);
  }

  /** The invariant holds in every state of every run. */
  lemma {:induction false} RunInv(run: seq<State>, i: nat)
    requires Run(run) && i < |run|
    ensures Inv(run[i])
  {
    if i == 0 {
      InitInv(run[0]);
    } else {
      RunInv(run, i - 1);
      assert Next(run[i - 1], run[i]);
      var step :| Enabled(run[i - 1], step) && run[i] == Take(run[i - 1], step);
      StepSound(run[i - 1], step);
    }
  }

  lemma RunStep(run: seq<State>, i: nat) returns (step: Step)
    requires Run(run) && i + 1 < |run|
    ensures Inv(run[i]) && Enabled(run[i], step) && run[i + 1] == Take(run[i], step)
    ensures Inv(run[i + 1]) && Later(run[i].w, run[i + 1].w) && Persists(run[i], run[i + 1])
  {
    RunInv(run, i);
    assert Next(run[i], run[i + 1]);
    step :| Enabled(run[i], step) && run[i + 1] == Take(run[i], step);
    StepSound(run[i], step);
  }

  /** Every later state of a run is a later world with all requests still there. */
  lemma {:induction false} RunLater(run: seq<State>, i: nat, j: nat)
    requires Run(run) && i <= j < |run|
    ensures Inv(run[i]) && Inv(run[j]) && Later(run[i].w, run[j].w) && Persists(run[i], run[j])
    decreases j
  {
    hide Inv, Later, Init, Take, Enabled;
    RunInv(run, i);
    if i < j {
      RunLater(run, i, j - 1);
      var step := RunStep(run, j - 1);
      LaterTransitive(run[i].w, run[j - 1].w, run[j].w);
    } else {
      LaterSame(run[i].w);
    }
  }

  lemma LaterSame(w: World)
    ensures Later(w, w)
  {
    EvolvesSame(w.payments);
  }
}
