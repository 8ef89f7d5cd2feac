/** What single answers mean at the moment they are given, on the plain rows of the tables, whatever other requests have
    done meanwhile. */
module ProtocolAnswers {
  import opened Domain
  import opened Protocol
  import opened ProtocolFacts
  import opened ProtocolRuns
  import opened Landings
  import Holds
  import Ledger

  // ----- the payment gate -----

  /** A confirm at the payment gate is let through exactly if some row of its session is captured at that moment, and
      refused as unpaid exactly if none is. */
  lemma GateNeedsMoney(s: State, r: nat, c: Choice)
    requires Enabled(s, Act(r, c, Answered)) && s.reqs[r].op.OpConfirm? && s.reqs[r].pc.Gated?
    ensures var session, pc, next := s.reqs[r].op.session, s.reqs[r].pc, Take(s, Act(r, c, Answered)).reqs[r].pc;
            && (next == Refuse(PaymentNotCaptured) <==>
                  forall p :: p in s.w.payments && p.session == session ==> p.status != Captured)
            && (next == Paid(pc.hold, pc.at) <==>
                  exists p :: p in s.w.payments && p.session == session && p.status == Captured)
  {
    hide Ledger.HasCaptured;
    var session := s.reqs[r].op.session;
    GateLands(s.w, r, s.reqs[r].op, s.reqs[r].pc.hold, s.reqs[r].pc.at, c, Answered);
    Ledger.CapturedMeans(s.w.payments, session);
  }

  // ----- a claim that may arrive late -----

  /** What the claim of a minted hold answers whenever it arrives: behind Redis a hold that is malformed or has expired
      on the way is refused first; then the limit decides, then the seat key; a granted claim writes all its keys. */
  lemma ClaimDecides(s: State, r: nat, c: Choice)
    requires Enabled(s, Act(r, c, Answered)) && s.reqs[r].op.OpHold? && s.reqs[r].pc.Claiming?
    ensures var hold, keys, t := s.reqs[r].pc.hold, s.w.holds.keys, Take(s, Act(r, c, Answered));
            var late := c.redis && (s.w.now >= hold.expiresAt || hold.session == NoId || hold.screening == "" ||
                                    hold.user == NoId || hold.token == NoId || hold.seat.row == "" ||
                                    hold.seat.number < 1);
            var full, held := |keys.Slots(hold.user)| >= s.w.max, hold.Ref() in keys.seats;
            && (t.reqs[r].pc == Refuse(InvalidHold) <==> late)
            && (t.reqs[r].pc == Refuse(HoldLimitExceeded) <==> !late && full)
            && (t.reqs[r].pc == Refuse(SeatAlreadyHeld) <==> !late && !full && held)
            && (t.reqs[r].pc == Done(HoldGranted(hold)) <==> !late && !full && !held)
            && (late || full || held ==> t.w.holds == s.w.holds)
            && (!late && !full && !held ==> Writes(keys, t.w.holds.keys, hold))
  {
    hide Holds.Granted;
    GrantWrites(s.w.holds.keys, s.reqs[r].pc.hold);
  }

  /** The hold is in all three indexes, and nothing else has changed. */
  ghost predicate Writes(before: Holds.Keys, after: Holds.Keys, hold: Hold) {
    && after.seats == before.seats[hold.Ref() := hold.token]
    && after.sessions == before.sessions[hold.session := hold]
    && forall u :: after.Slots(u) == before.Slots(u) + if u == hold.user then {hold.session} else {}
  }

  lemma GrantWrites(keys: Holds.Keys, hold: Hold)
    ensures Writes(keys, Holds.Granted(keys, hold), hold)
  {
  }

  // ----- a cleanup after a sale -----

  /** Whatever becomes of the release, the sale stands. */
  lemma CleanupNeverFails(s: State, r: nat, c: Choice, net: Net)
    requires Enabled(s, Act(r, c, net)) && s.reqs[r].op.OpConfirm? && s.reqs[r].pc.Cleaning?
    ensures Take(s, Act(r, c, net)).reqs[r].pc == Done(Bought(s.reqs[r].pc.booking, true))
    ensures Take(s, Act(r, c, net)).w.sales == s.w.sales
  {
    hide Holds.Apply, Holds.Answer;
  }

  // ----- a lost insert race -----

  /** The insert of a minted intent, in every run: it makes the intent ready exactly if no row of the session is ongoing
      by then, and otherwise leaves the table alone and goes to read the winner's row. */
  lemma InsertRaces(run: seq<State>, i: nat, r: nat, c: Choice)
    requires Run(run) && i < |run| && Enabled(run[i], Act(r, c, Answered))
    requires run[i].reqs[r].op.OpIntent? && run[i].reqs[r].pc.IntentMinted?
    ensures var s, t := run[i], Take(run[i], Act(r, c, Answered));
            var session, pc := s.reqs[r].op.session, s.reqs[r].pc;
            var row := Payment(c.a, session, "fake", pc.intent, Intent, pc.price, "usd", s.w.now, s.w.now);
            if exists p :: Ledger.IsOngoing(s.w.payments, session, p) then
              t.w.payments == s.w.payments && t.reqs[r].pc == LostInsert(pc.hold)
            else
              t.w.payments == s.w.payments + [row] && t.reqs[r].pc == Done(IntentReady(row, true, pc.hold.expiresAt))
  {
    hide Init, Take, HoldsOk, SalesOk, PricesOk;
    RunInv(run, i);
    var w, op, pc := run[i].w, run[i].reqs[r].op, run[i].reqs[r].pc;
    assert LocalOk(w, r, op, pc);
    InsertRacesIn(w, r, op, pc, c);
    hide Run, WorldOk, Inv;
    TakeLands(run[i], r, c);
  }

  lemma TakeLands(s: State, r: nat, c: Choice)
    requires Enabled(s, Act(r, c, Answered))
    ensures var t := Take(s, Act(r, c, Answered));
            && t.w == After(s.w, r, s.reqs[r].op, s.reqs[r].pc, c, Answered)
            && t.reqs[r].pc == Landing(s.w, r, s.reqs[r].op, s.reqs[r].pc, c, Answered)
  {
    hide Exec;
  }

  lemma InsertRacesIn(w: World, r: nat, op: Op, pc: Pc, c: Choice)
    requires op.OpIntent? && pc.IntentMinted? && forall p :: p in w.payments ==> p.intent != pc.intent
    ensures var v, next := After(w, r, op, pc, c, Answered).payments, Landing(w, r, op, pc, c, Answered);
            var row := Payment(c.a, op.session, "fake", pc.intent, Intent, pc.price, "usd", w.now, w.now);
            if exists p :: Ledger.IsOngoing(w.payments, op.session, p) then
              v == w.payments && next == LostInsert(pc.hold)
            else v == w.payments + [row] && next == Done(IntentReady(row, true, pc.hold.expiresAt))
  {
    hide After, Landing, Ledger.Insert;
    InsertLands(w, r, op, pc.hold, pc.price, pc.intent, c, Answered);
    Ledger.InsertDecides(w.payments, NewRow(op.session, pc.intent, pc.price), c.a, w.now);
    forall p | p in w.payments && p.session == op.session && Ledger.Ongoing(p)
        ensures Ledger.IsOngoing(w.payments, op.session, p) {}
  }

  /** The read of the winner's row, in every run: it returns the session's ongoing row as not created here, and if that
      has failed meanwhile it surfaces the lost race. */
  lemma LostRaceSurfaces(run: seq<State>, i: nat, r: nat, c: Choice)
    requires Run(run) && i < |run| && Enabled(run[i], Act(r, c, Answered))
    requires run[i].reqs[r].op.OpIntent? && run[i].reqs[r].pc.LostInsert?
    ensures var s, t := run[i], Take(run[i], Act(r, c, Answered));
            var session, payBy := s.reqs[r].op.session, s.reqs[r].pc.hold.expiresAt;
            && t.w.payments == s.w.payments
            && (forall p :: t.reqs[r].pc == Done(IntentReady(p, false, payBy)) <==>
                  Ledger.IsOngoing(s.w.payments, session, p))
            && (t.reqs[r].pc == Refuse(IntentExists) <==> !exists p :: Ledger.IsOngoing(s.w.payments, session, p))
  {
    hide Init, Take, HoldsOk, SalesOk, PricesOk, LocalOk;
    RunInv(run, i);
    var w, op, pc := run[i].w, run[i].reqs[r].op, run[i].reqs[r].pc;
    assert Ledger.Lawful(w.payments);
    Ledger.LookupsDecide(w.payments, op.session, NoId);
    hide Run, WorldOk, Inv, Ledger.GetActive, After, Landing;
    ActiveLands(w, r, op, pc, c, Answered);
    TakeLands(run[i], r, c);
    forall p ensures Ledger.IsOngoing(w.payments, op.session, p) <==>
                     Ledger.GetActive(w.payments, op.session) == Ok(p) {}
  }

  // ----- a webhook on its row -----

  predicate IsOpen(p: Payment) { p.status == Intent || p.status == Authorized }

  /** What an event makes of a row: it settles the open row of its intent, as captured if it reports exactly the frozen
      amount captured, as failed if it reports a failure or any other amount, and touches nothing else. */
  function Settled(e: Event, p: Payment, now: int): Payment {
    if p.intent == e.intent && IsOpen(p) && e.kind != OtherKind
    then p.(status := if e.kind == CapturedKind && e.amount == p.amount then Captured else Failed, updatedAt := now)
    else p
  }

  /** Whether the event is answered as applied, from the row of its intent. */
  predicate Applies(e: Event, p: Payment) {
    if IsOpen(p) then (e.kind == CapturedKind && e.amount == p.amount) || e.kind == FailedKind
    else e.kind == FailedKind && p.status == Failed
  }

  /** A capture or failure, row by row. */
  lemma WritesRowByRow(rows: seq<Payment>, intent: Id, now: int, k: nat)
    requires Ledger.Lawful(rows) && k < |rows|
    ensures var after := Ledger.Capture(rows, intent, now).1;
            && |after| == |rows|
            && after[k] == if rows[k].intent == intent && IsOpen(rows[k])
                           then rows[k].(status := Captured, updatedAt := now) else rows[k]
    ensures var after := Ledger.MarkFailed(rows, intent, now).1;
            && |after| == |rows|
            && after[k] == if rows[k].intent == intent && IsOpen(rows[k])
                           then rows[k].(status := Failed, updatedAt := now) else rows[k]
  {
    hide Ledger.Capture, Ledger.MarkFailed, Ledger.Lawful;
    Ledger.CaptureDecides(rows, intent, now);
    Ledger.FailureDecides(rows, intent, now);
    var i := Ledger.FindIntent(rows, intent);
    if i >= 0 && rows[k].intent == intent {
      Ledger.FoundAt(rows, k);
    }
  }

  /** The row a matched webhook has read is the one in the table, but for its status. */
  lemma MatchedRow(run: seq<State>, i: nat, r: nat)
    requires Run(run) && i < |run| && r in run[i].reqs && run[i].reqs[r].op.OpHook? && run[i].reqs[r].pc.Matched?
    ensures var w, row, intent := run[i].w, run[i].reqs[r].pc.row, run[i].reqs[r].op.event.intent;
            && Ledger.Lawful(w.payments) && row.intent == intent
            && exists k :: 0 <= k < |w.payments| && w.payments[k].intent == intent && w.payments[k].amount == row.amount
    ensures var w, row, intent := run[i].w, run[i].reqs[r].pc.row, run[i].reqs[r].op.event.intent;
            forall k :: 0 <= k < |w.payments| && w.payments[k].intent == intent ==> w.payments[k].amount == row.amount
  {
    hide Init, Take, HoldsOk, SalesOk, PricesOk;
    RunInv(run, i);
    var w, pc := run[i].w, run[i].reqs[r].pc;
    assert LocalOk(w, r, run[i].reqs[r].op, pc);
    var at := Ledger.FindIntent(w.payments, pc.row.intent);
    assert Ledger.SameIntent(pc.row, w.payments[at]);
    forall k | 0 <= k < |w.payments| && w.payments[k].intent == pc.row.intent ensures k == at {
      Ledger.FoundAt(w.payments, k);
    }
  }

  /** In every run, whatever has happened since the webhook read its row: when its write takes effect, each row becomes
      what the event makes of it, and the answer says whether it was applied. */
  lemma EventSettlesRow(run: seq<State>, i: nat, r: nat, e: Event, c: Choice, net: Net, k: nat)
    requires Run(run) && i < |run| && Enabled(run[i], Act(r, c, net)) && !net.Dropped?
    requires run[i].reqs[r].op == OpHook(e) && run[i].reqs[r].pc.Matched? && k < |run[i].w.payments|
    ensures var w, t := run[i].w, Take(run[i], Act(r, c, net));
            && |t.w.payments| == |w.payments| && t.w.payments[k] == Settled(e, w.payments[k], w.now)
            && (net.Answered? && w.payments[k].intent == e.intent ==>
                  t.reqs[r].pc == Done(Acked(Applies(e, w.payments[k]), true)))
  {
    MatchedRow(run, i, r);
    var w, row := run[i].w, run[i].reqs[r].pc.row;
    MatchedSettles(w, r, e, row, c, net, k);
    hide Run, Exec, Mint, Ledger.Lawful;
  }

  /** The write of a matched webhook, from any table in which the row has kept its amount. */
  lemma MatchedSettles(w: World, r: nat, e: Event, row: Payment, c: Choice, net: Net, k: nat)
    requires Ledger.Lawful(w.payments) && row.intent == e.intent && !net.Dropped? && k < |w.payments|
    requires exists i :: 0 <= i < |w.payments| && w.payments[i].intent == e.intent && w.payments[i].amount == row.amount
    requires forall i :: 0 <= i < |w.payments| && w.payments[i].intent == e.intent ==>
               w.payments[i].amount == row.amount
    ensures var v := After(w, r, OpHook(e), Matched(row), c, net);
            && |v.payments| == |w.payments| && v.payments[k] == Settled(e, w.payments[k], w.now)
            && (net.Answered? && w.payments[k].intent == e.intent ==>
                  Landing(w, r, OpHook(e), Matched(row), c, net) == Done(Acked(Applies(e, w.payments[k]), true)))
  {
    WritesRowByRow(w.payments, e.intent, w.now, k);
    hide Ledger.Lawful, Ledger.Capture, Ledger.MarkFailed, After, Landing;
    if e.kind == CapturedKind && e.amount == row.amount {
      CaptureLands(w, r, OpHook(e), Matched(row), e.intent, c, net);
      CaptureAcks(w.payments, OpHook(e), e.intent, w.now, k);
    } else if e.kind != OtherKind {
      FailLands(w, r, OpHook(e), Matched(row), e.intent, c, net);
      FailureAcks(w.payments, OpHook(e), e.intent, w.now, k);
    } else {
      IgnoredLands(w, r, e, row, c, net);
    }
  }

  lemma CaptureAcks(rows: seq<Payment>, op: Op, intent: Id, now: int, k: nat)
    requires Ledger.Lawful(rows) && op.OpHook? && k < |rows|
    ensures rows[k].intent == intent ==>
              CaptureAnswered(op, Ledger.Capture(rows, intent, now).0) == Done(Acked(IsOpen(rows[k]), true))
  {
    hide Ledger.Lawful, Ledger.Capture;
    Ledger.CaptureDecides(rows, intent, now);
  }

  lemma FailureAcks(rows: seq<Payment>, op: Op, intent: Id, now: int, k: nat)
    requires Ledger.Lawful(rows) && op.OpHook? && k < |rows|
    ensures rows[k].intent == intent ==>
              FailAnswered(op, Ledger.MarkFailed(rows, intent, now).0) ==
              Done(Acked(op.event.kind == FailedKind && (IsOpen(rows[k]) || rows[k].status == Failed), true))
  {
    hide Ledger.Lawful, Ledger.MarkFailed;
    Ledger.FailureDecides(rows, intent, now);
  }

  lemma IgnoredLands(w: World, me: nat, e: Event, row: Payment, c: Choice, net: Net)
    requires e.kind == OtherKind
    ensures OnlyReads(w, After(w, me, OpHook(e), Matched(row), c, net))
    ensures net.Answered? ==> Landing(w, me, OpHook(e), Matched(row), c, net) == Done(Acked(false, true))
  {
  }

  lemma StepHandled(s: State, step: Step, r: nat, applied: bool)
    requires Enabled(s, step) && r in Take(s, step).reqs && Take(s, step).reqs[r].op.OpHook?
    requires Take(s, step).reqs[r].pc == Done(Acked(applied, true))
    ensures r in s.reqs && s.reqs[r].op == Take(s, step).reqs[r].op
    ensures s.reqs[r].pc == Done(Acked(applied, true)) ||
            (s.reqs[r].pc.Matched? && step.Act? && step.r == r && step.net.Answered?)
  {
    hide HoldExec, ConfirmExec, ReleaseExec, IntentExec, PayExec, MapExec, CaptureExec, FailExec, Ledger.FindIntent;
  }

  /** Behind every acknowledgement that found a row stands the step that wrote it: at that step every row became what
      the event makes of it, and the acknowledgement says "applied" exactly if the row of the intent called for it. */
  lemma {:induction false} EventWasHandled(run: seq<State>, j: nat, r: nat, e: Event, applied: bool) returns (i: nat)
    requires Run(run) && j < |run| && r in run[j].reqs
    requires run[j].reqs[r] == Request(OpHook(e), Done(Acked(applied, true)))
    ensures i < j && |run[i + 1].w.payments| == |run[i].w.payments|
    ensures forall k :: 0 <= k < |run[i].w.payments| ==>
              && run[i + 1].w.payments[k] == Settled(e, run[i].w.payments[k], run[i].w.now)
              && (run[i].w.payments[k].intent == e.intent ==> applied == Applies(e, run[i].w.payments[k]))
    decreases j
  {
    hide Take, Enabled, Inv, Later, Persists;
    assert j > 0 by {
      assert Init(run[0]);
    }
    i := j - 1;
    var step := RunStep(run, i);
    StepHandled(run[i], step, r, applied);
    if run[i].reqs[r].pc.Matched? {
      MatchedRow(run, i, r);
      hide Run;
      forall k | 0 <= k < |run[i].w.payments|
        ensures |run[i + 1].w.payments| == |run[i].w.payments|
        ensures run[i + 1].w.payments[k] == Settled(e, run[i].w.payments[k], run[i].w.now)
        ensures run[i].w.payments[k].intent == e.intent ==> applied == Applies(e, run[i].w.payments[k])
      {
        EventSettlesRow(run, i, r, e, step.c, step.net, k);
      }
    } else {
      i := EventWasHandled(run, i, r, e, applied);
    }
  }

  // ----- calls without an answer -----

  /** Where a request goes that is told nothing: a sale stands whether or not its hold could be released, a lost insert
      race surfaces, a gateway that does not answer has declined, a decline is a decline whether or not it could be
      recorded, and every other failure is the infrastructure's. A dropped call has changed nothing, a lost reply hides
      all the effects of the call. */
  lemma UnansweredCalls(s: State, r: nat, c: Choice, net: Net)
    requires Enabled(s, Act(r, c, net)) && !net.Answered?
    ensures var t, next := Take(s, Act(r, c, net)), Take(s, Act(r, c, net)).reqs[r].pc;
            && (net.Dropped? ==> t.w == s.w.(minter := t.w.minter))
            && (net.ReplyLost? ==> t.w == Take(s, Act(r, c, Answered)).w)
            && match s.reqs[r].pc
               case Cleaning(b) => next == Done(Bought(b, true))
               case LostInsert(_) => next == Done(Refused(IntentExists))
               case Charging(row) => next == Declined(row.intent)
               case Declined(_) => next == Done(Refused(PaymentDeclined))
               case _ => next == Done(Refused(Infra))
  {
    hide Exec;
  }
}
