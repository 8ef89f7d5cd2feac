/** The promises of the booking flow, each for every run and every interleaving. */
module ProtocolTheorems {
  import opened Domain
  import opened Protocol
  import opened ProtocolFacts
  import opened ProtocolSteps
  import opened ProtocolRuns
  import Geometry
  import Holds
  import Ledger
  import Sales

  // ----- sales -----

  /** Whenever a booking exists, it carries the session, user, screening and seat of a hold once granted inside
      the screening's grid, a row of its session is captured for an amount that moved and that the screening has
      asked, and its confirm passed the expiry check at a clock reading before that hold's expiry. */
  lemma SaleIsEarned(run: seq<State>, j: nat, b: Booking)
    requires Run(run) && j < |run| && IsSold(run[j].w, b)
    ensures var w := run[j].w;
            && b.session in w.holds.granted && b.session in w.checked && b.screening in w.screenings
            && var g := w.holds.granted[b.session];
            && b.session == g.session && b.user == g.user && b.screening == g.screening && b.seat == g.seat
            && 1 <= b.seat.number <= w.screenings[b.screening].seatsPerRow
            && b.seat.row in w.screenings[b.screening].rows
            && b.status == Confirmed
            && (exists p :: p in w.payments && p.session == b.session && p.status == Captured &&
                            (p.intent, p.amount) in w.moved && (b.screening, p.amount) in w.prices)
            && w.checked[b.session] < g.expiresAt
  {
    RunInv(run, j);
    var w := run[j].w;
    assert SaleOk(w, b);
    assert b.Ref() == w.holds.granted[b.session].Ref();
    var k :| 0 <= k < |w.payments| && w.payments[k].session == b.session && w.payments[k].status == Captured;
    assert w.payments[k] in w.payments && PaymentOk(w, w.payments[k]);
  }

  /** In every state: at most one booking per seat and per session, all confirmed, under distinct identifiers, and
      for each booking one event that carries its fields. */
  lemma SalesAreUnique(run: seq<State>, j: nat)
    requires Run(run) && j < |run|
    ensures var Table(rows, outbox) := run[j].w.sales;
            && |outbox| == |rows|
            && (forall k :: 0 <= k < |rows| ==>
                  && rows[k].status == Confirmed
                  && outbox[k].booking == rows[k].id && outbox[k].session == rows[k].session
                  && outbox[k].user == rows[k].user && outbox[k].screening == rows[k].screening
                  && outbox[k].seat == rows[k].seat && outbox[k].confirmedAt == rows[k].confirmedAt)
            && (forall k, l :: 0 <= k < l < |rows| ==>
                  && rows[k].id != rows[l].id && outbox[k].id != outbox[l].id && rows[k].session != rows[l].session
                  && (rows[k].screening != rows[l].screening || rows[k].seat != rows[l].seat))
  {
    RunInv(run, j);
    var rows := run[j].w.sales.rows;
    forall k | 0 <= k < |rows| ensures rows[k].status == Confirmed {
      assert SaleOk(run[j].w, rows[k]);
    }
    assert forall k, l :: 0 <= k < l < |rows| ==> rows[k].Ref() != rows[l].Ref();
  }

  /** A booked seat never changes owner, and a session never changes booking. */
  lemma SaleIsFinal(run: seq<State>, i: nat, j: nat, b: Booking, c: Booking)
    requires Run(run) && i <= j < |run| && IsSold(run[i].w, b) && IsSold(run[j].w, c)
    requires b.Ref() == c.Ref() || b.session == c.session
    ensures b == c
  {
    RunLater(run, i, j);
    SoldForGood(run[i].w, run[j].w, b);
    var w := run[j].w;
    var k :| 0 <= k < |w.sales.rows| && w.sales.rows[k] == b;
    var l :| 0 <= l < |w.sales.rows| && w.sales.rows[l] == c;
    assert SaleOk(w, w.sales.rows[k]) && SaleOk(w, w.sales.rows[l]);
    assert k == l || k < l || l < k;
  }

  /** A hold granted on a seat that another session has bought, however it slipped past the pre-check, never
      becomes a booking: no sale of its session exists in any state of the run. */
  lemma PhantomHoldNeverSells(run: seq<State>, i: nat, j: nat, hold: Hold, b: Booking, c: Booking)
    requires Run(run) && i < |run| && j < |run|
    requires IsSold(run[i].w, b) && b.Ref() == hold.Ref() && b.session != hold.session
    requires hold.session in run[j].w.holds.granted && run[j].w.holds.granted[hold.session] == hold
    requires IsSold(run[j].w, c)
    ensures c.session != hold.session
  {
    if c.session == hold.session {
      SaleIsEarned(run, j, c);
      if i <= j {
        SaleIsFinal(run, i, j, b, c);
      } else {
        SaleIsFinal(run, j, i, c, b);
      }
    }
  }

  // ----- confirm is idempotent -----

  predicate Finished(s: State, r: nat, op: Op, out: Outcome) {
    r in s.reqs && s.reqs[r].op == op && s.reqs[r].pc == Done(out)
  }

  /** Two confirms of one session that succeed, at whatever moments, return the same booking, and if both
      report having created it they are the same call. */
  lemma ConfirmIsIdempotent(run: seq<State>, i: nat, j: nat, r: nat, q: nat, user: Id, user': Id, session: Id,
                            b: Booking, created: bool, b': Booking, created': bool)
    requires Run(run) && i <= j < |run|
    requires Finished(run[i], r, OpConfirm(user, session), Bought(b, created))
    requires Finished(run[j], q, OpConfirm(user', session), Bought(b', created'))
    ensures b == b' && user == user' == b.user && b.session == session
    ensures created && created' ==> r == q
  {
    RunLater(run, i, j);
    assert LocalOk(run[i].w, r, run[i].reqs[r].op, run[i].reqs[r].pc);
    assert LocalOk(run[j].w, q, run[j].reqs[q].op, run[j].reqs[q].pc);
    SaleIsFinal(run, i, j, b, b');
  }

  /** A confirm that answers "seat already booked" has lost its seat to another session, for good. */
  lemma LostSeatIsForeign(run: seq<State>, i: nat, j: nat, r: nat, user: Id, session: Id)
    requires Run(run) && i <= j < |run| && Finished(run[i], r, OpConfirm(user, session), Refused(SeatAlreadyBooked))
    ensures SeatLost(run[j].w, session)
    ensures forall b :: IsSold(run[j].w, b) ==> b.session != session
  {
    RunLater(run, i, j);
    assert LocalOk(run[i].w, r, run[i].reqs[r].op, run[i].reqs[r].pc);
    SeatLostForGood(run[i].w, run[j].w, session);
    var w := run[j].w;
    forall b | IsSold(w, b) ensures b.session != session {
      var k :| 0 <= k < |w.sales.rows| && w.sales.rows[k].Ref() == w.holds.granted[session].Ref() &&
               w.sales.rows[k].status == Confirmed && w.sales.rows[k].session != session;
      if b.session == session {
        SaleIsEarned(run, j, b);
        SaleIsFinal(run, j, j, b, w.sales.rows[k]);
      }
    }
  }

  /** No confirm ever reports a foreign booking under its own session, nor surfaces the replay signal: both
      recovery branches that would are unreachable. */
  lemma RecoveryNeverFails(run: seq<State>, i: nat, r: nat, user: Id, session: Id, e: Error)
    requires Run(run) && i < |run| && Finished(run[i], r, OpConfirm(user, session), Refused(e))
    ensures e != OwnershipViolated && e != SessionAlreadyConfirmed && e != BookingNotFound
  {
    RunInv(run, i);
    assert LocalOk(run[i].w, r, run[i].reqs[r].op, run[i].reqs[r].pc);
  }

  // ----- payments -----

  /** In every state intents are unique and each session has at most one row that has not failed; every later table
      only evolves it. */
  lemma PaymentsEvolve(run: seq<State>, i: nat, j: nat)
    requires Run(run) && i <= j < |run|
    ensures Ledger.Lawful(run[i].w.payments) && Ledger.Evolves(run[i].w.payments, run[j].w.payments)
    ensures var rows := run[i].w.payments;
            forall k, l :: 0 <= k < l < |rows| ==>
              rows[k].intent != rows[l].intent &&
              (rows[k].session == rows[l].session ==> rows[k].status == Failed || rows[l].status == Failed)
  {
    hide Init, Take, Persists, HoldsOk, SalesOk, PricesOk, LocalOk, Ledger.Lawful;
    RunLater(run, i, j);
    OneStandingRow(run[i].w);
  }

  lemma OneStandingRow(w: World)
    requires PaymentsOk(w)
    ensures forall k, l :: 0 <= k < l < |w.payments| ==>
              w.payments[k].intent != w.payments[l].intent &&
              (w.payments[k].session == w.payments[l].session ==>
                 w.payments[k].status == Failed || w.payments[l].status == Failed)
  {
    forall k | 0 <= k < |w.payments| ensures w.payments[k].status in {Intent, Captured, Failed} {
      assert PaymentOk(w, w.payments[k]);
    }
  }

  /** From one state to the next a row keeps its identity, session, amount and currency, and its status moves
      along an edge of the state machine or not at all. */
  lemma StatusesFollowEdges(run: seq<State>, i: nat, k: nat)
    requires Run(run) && i + 1 < |run| && k < |run[i].w.payments|
    ensures k < |run[i + 1].w.payments|
    ensures var p, q := run[i].w.payments[k], run[i + 1].w.payments[k];
            && (p.id, p.session, p.gateway, p.intent, p.amount, p.currency, p.createdAt) ==
               (q.id, q.session, q.gateway, q.intent, q.amount, q.currency, q.createdAt)
            && (p.status == q.status || p.status.CanTransitionTo(q.status))
            && (p.status == q.status ==> q == p)
            && (p.status == Captured ==> q == p)
  {
    hide Run, Inv, Persists;
    RunLater(run, i, i + 1);
    RowEvolves(run[i].w, run[i + 1].w, k);
    SettlingFollowsEdges(run[i].w.payments[k].status, run[i + 1].w.payments[k].status);
  }

  lemma RowEvolves(w: World, v: World, k: nat)
    requires Later(w, v) && k < |w.payments|
    ensures k < |v.payments| && Ledger.SameIntent(w.payments[k], v.payments[k])
    ensures Settles(w.payments[k].status, v.payments[k].status)
    ensures w.payments[k].status == v.payments[k].status ==> w.payments[k] == v.payments[k]
  {
  }

  /** Over any stretch of a run a row's status only moves forward along the edges, the row is untouched while it does
      not, and money that moved has moved for good. */
  lemma {:induction false} StatusesNeverGoBack(run: seq<State>, i: nat, j: nat, k: nat)
    requires Run(run) && i <= j < |run| && k < |run[i].w.payments|
    ensures k < |run[j].w.payments|
    ensures var p, q := run[i].w.payments[k], run[j].w.payments[k];
            && Stage(p.status) <= Stage(q.status) && (Stage(p.status) == Stage(q.status) ==> p == q)
            && (MoneyMoved(p.status) ==> MoneyMoved(q.status))
    decreases j
  {
    hide Run;
    if i < j {
      StatusesNeverGoBack(run, i, j - 1, k);
      StatusesFollowEdges(run, j - 1, k);
      var a, b := run[j - 1].w.payments[k].status, run[j].w.payments[k].status;
      if a != b {
        EdgesGoForward(a, b);
      }
    }
  }

  /** No run ever authorizes or refunds a payment. */
  lemma StatusesReached(run: seq<State>, i: nat, k: nat)
    requires Run(run) && i < |run| && k < |run[i].w.payments|
    ensures var status := run[i].w.payments[k].status; status == Intent || status == Captured || status == Failed
  {
    RunInv(run, i);
    assert PaymentOk(run[i].w, run[i].w.payments[k]);
  }

  /** The intent a request is about to capture or to fail. */
  function Targets(pc: Pc): Option<Id> {
    match pc
    case Charged(intent) => Some(intent)
    case Declined(intent) => Some(intent)
    case Matched(row) => Some(row.intent)
    case _ => None
  }

  /** Captures and failures are only ever asked for intents that have a row already: the case in which the two
      statements of the Postgres repository act as one. */
  lemma WritesNameKnownRows(run: seq<State>, i: nat, r: nat)
    requires Run(run) && i < |run| && r in run[i].reqs && Targets(run[i].reqs[r].pc).Some?
    ensures Ledger.Has(run[i].w.payments, Targets(run[i].reqs[r].pc).value)
  {
    RunInv(run, i);
    assert LocalOk(run[i].w, r, run[i].reqs[r].op, run[i].reqs[r].pc);
  }

  /** Whether a finished request reports that it moved the intent to captured. */
  ghost predicate ReportsCapture(s: State, r: nat, intent: Id) {
    && r in s.reqs
    && match s.reqs[r].pc
       case Done(PaymentMade(p, capturedNow)) => s.reqs[r].op.OpPay? && p.intent == intent && capturedNow
       case Done(Acked(applied, _)) =>
         s.reqs[r].op.OpHook? && s.reqs[r].op.event.kind == CapturedKind && s.reqs[r].op.event.intent == intent &&
             applied
       case _ => false
  }

  /** Across any race of webhooks and client confirms at most one call reports the capture of an intent. */
  lemma CaptureIsReportedOnce(run: seq<State>, i: nat, j: nat, r: nat, q: nat, intent: Id)
    requires Run(run) && i <= j < |run| && ReportsCapture(run[i], r, intent) && ReportsCapture(run[j], q, intent)
    ensures r == q
  {
    RunLater(run, i, j);
    assert LocalOk(run[i].w, r, run[i].reqs[r].op, run[i].reqs[r].pc);
    assert LocalOk(run[j].w, q, run[j].reqs[q].op, run[j].reqs[q].pc);
  }

  /** A client confirm that returns no error returns a captured row of its own session, which stays exactly as
      returned in every later table. */
  lemma ClientPaymentIsCaptured(run: seq<State>, i: nat, j: nat, r: nat, user: Id, session: Id, p: Payment, now: bool)
    requires Run(run) && i <= j < |run| && Finished(run[i], r, OpPay(user, session), PaymentMade(p, now))
    ensures p.status == Captured && p.session == session && p in run[j].w.payments
  {
    hide HoldsOk, SalesOk, PricesOk, Init, Take, Persists;
    RunLater(run, i, j);
    assert LocalOk(run[i].w, r, run[i].reqs[r].op, run[i].reqs[r].pc);
    RowStaysKnown(run[i].w, run[j].w, p.intent);
  }

  // ----- webhooks -----

  /** A verified webhook whose port calls are answered is never refused: one lookup either acknowledges an
      unknown intent or finds the row, and one write acknowledges. */
  lemma WebhookAcks(run: seq<State>, i: nat, r: nat, event: Event, c: Choice)
    requires Run(run) && i + 1 < |run| && Enabled(run[i], Act(r, c, Answered))
    requires run[i].reqs[r].op == OpHook(event) && run[i + 1] == Take(run[i], Act(r, c, Answered))
    ensures run[i].reqs[r].pc.Start? ==>
              run[i + 1].reqs[r].pc.Matched? || run[i + 1].reqs[r].pc == Done(Acked(false, false))
    ensures !run[i].reqs[r].pc.Start? ==>
              run[i].reqs[r].pc.Matched? && run[i + 1].reqs[r].pc.Done? && run[i + 1].reqs[r].pc.out.Acked?
  {
    RunInv(run, i);
    hide WorldOk, Later, NewBy;
    var minted := Mint(run[i].w, r, c);
    var Request(op, pc) := run[i].reqs[r];
    assert LocalOk(run[i].w, r, op, pc);
    MintSound(run[i].w, r, c);
    LawfulPayments(minted);
    LocalStays(run[i].w, minted, r + 1, r, op, pc);
    if pc.Matched? {
      MatchedStep(minted, r, op, pc.row, c);
    }
  }

  /** Once an event on a recorded intent has been handled, a later delivery of the same event, handled at any
      later moment, changes no row. */
  lemma RedeliveryChangesNothing(run: seq<State>, i: nat, j: nat, r: nat, q: nat, event: Event, applied: bool,
        c: Choice)
    requires Run(run) && i <= j < |run| && Finished(run[i], r, OpHook(event), Acked(applied, true))
    requires q in run[j].reqs && run[j].reqs[q].op == OpHook(event)
    ensures HookExec(run[j].w, q, OpHook(event), run[j].reqs[q].pc, c).0.payments == run[j].w.payments
  {
    RunLater(run, i, j);
    assert LocalOk(run[i].w, r, run[i].reqs[r].op, run[i].reqs[r].pc);
    assert LocalOk(run[j].w, q, run[j].reqs[q].op, run[j].reqs[q].pc);
    hide Run, Later, Persists, SalesOk, HoldsOk, PricesOk, LocalOk;
    SettledForGood(run[i].w, run[j].w, event);
    SettledIsInert(run[j].w, q, event, run[j].reqs[q].pc, c);
  }

  lemma SettledIsInert(w: World, me: nat, event: Event, pc: Pc, c: Choice)
    requires Settled(w, event) && HookLocal(w, me, OpHook(event), pc)
    ensures HookExec(w, me, OpHook(event), pc, c).0.payments == w.payments
  {
  }

  // ----- the seat map -----

  /** A seat shown as booked is sold, then and in every later state. */
  lemma ShownBookedStaysBooked(run: seq<State>, i: nat, j: nat, r: nat, screening: string, booked: set<Seat>,
                               held: set<Seat>, seat: Seat)
    requires Run(run) && i <= j < |run| && Finished(run[i], r, OpMap(screening), MapShown(booked, held))
    requires Geometry.StatusOf(booked, held, seat) == Booked
    ensures exists b :: IsSold(run[j].w, b) && b.screening == screening && b.seat == seat
  {
    RunLater(run, i, j);
    assert LocalOk(run[i].w, r, run[i].reqs[r].op, run[i].reqs[r].pc);
    SeatSoldForGood(run[i].w, run[j].w, SeatRef(screening, seat));
    var rows := run[j].w.sales.rows;
    var k :| 0 <= k < |rows| && rows[k].Ref() == SeatRef(screening, seat) && rows[k].status == Confirmed;
    assert IsSold(run[j].w, rows[k]);
  }

  // ----- holds -----

  /** A request about one session, cleanup after a sale included, takes no seat key whose latest hold is
      another session's, and no other session's record. */
  lemma OthersAreUndisturbed(run: seq<State>, i: nat, r: nat, c: Choice, net: Net, ref: SeatRef, session: Id)
    requires Run(run) && i < |run| && Enabled(run[i], Act(r, c, net))
    requires var op := run[i].reqs[r].op; (op.OpConfirm? || op.OpRelease?) && op.session != session
    ensures var before, after := run[i].w.holds, Take(run[i], Act(r, c, net)).w.holds;
            && (ref in before.keys.seats && ref in before.last && before.last[ref].session == session ==>
                  ref in after.keys.seats && after.keys.seats[ref] == before.keys.seats[ref])
            && (session in before.keys.sessions ==>
                  session in after.keys.sessions && after.keys.sessions[session] == before.keys.sessions[session])
  {
    hide Take, Init, SalesOk, PaymentsOk, PricesOk, Holds.Apply, LocalOk;
    RunInv(run, i);
    var op := run[i].reqs[r].op;
    ReleaseDisturbsNoOther(run[i].w.holds, run[i].w.max, op.session, op.user, ref, session);
    HoldsAfterAct(run[i], r, c, net);
  }

  lemma ReleaseDisturbsNoOther(s: Holds.Store, max: int, released: Id, user: Id, ref: SeatRef, session: Id)
    requires Holds.Inv(s, max) && released != session
    ensures var t := Holds.Apply(s, max, Holds.ReleaseOp(released, user));
            && (ref in s.keys.seats && ref in s.last && s.last[ref].session == session ==>
                  ref in t.keys.seats && t.keys.seats[ref] == s.keys.seats[ref])
            && (session in s.keys.sessions ==>
                  session in t.keys.sessions && t.keys.sessions[session] == s.keys.sessions[session])
  {
    hide Holds.Apply;
    var release := Holds.ReleaseOp(released, user);
    if ref in s.keys.seats && s.last[ref].session == session {
      Holds.OnlyOwnSeatChanges(s, max, release, ref);
    }
    if session in s.keys.sessions {
      Holds.OnlyOwnSessionChanges(s, max, release, session);
    }
  }

  lemma HoldsAfterAct(s: State, r: nat, c: Choice, net: Net)
    requires Enabled(s, Act(r, c, net)) && (s.reqs[r].op.OpConfirm? || s.reqs[r].op.OpRelease?)
    ensures var op := s.reqs[r].op;
            var after := Take(s, Act(r, c, net)).w.holds;
            after == s.w.holds || after == Holds.Apply(s.w.holds, s.w.max, Holds.ReleaseOp(op.session, op.user))
  {
    hide Holds.Apply, Sales.Commit;
  }
}
