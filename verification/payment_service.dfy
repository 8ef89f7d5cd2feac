/** The payment use cases as the service runs them, port call by port call, each answering what its request in
    the protocol answers. */
module PaymentServices {
  import opened Domain
  import opened Protocol
  import opened Landings
  import opened ProtocolProgress
  import opened Sites
  import Ledger
  import Webhooks

  /** The event a verified delivery carries; intents are named by the identifiers they stand for. */
  function EventOf(ev: Webhooks.WebhookEvent, named: string -> Id): (e: Event)
    ensures e.intent == named(ev.intent) && e.amount == ev.amount
    ensures e.kind == CapturedKind <==> ev.kind == "payment.captured"
    ensures e.kind == FailedKind <==> ev.kind == "payment.failed"
  {
    Event(if ev.kind == "payment.captured" then CapturedKind
          else if ev.kind == "payment.failed" then FailedKind
          else OtherKind, named(ev.intent), ev.amount)
  }

  class Service {
    const site: Site

    constructor (site: Site)
      ensures this.site == site
    {
      this.site := site;
    }

    /** The entry check of both client operations: a live hold of this user. */
    method HoldGate(user: Id, session: Id, ghost me: nat, ghost op: Op) returns (r: Result<Hold>, ghost at: int)
      requires site.Valid() && At(site.run, me, op, Start) && ReadsHold(op, session) && op.user == user
      modifies site, site.holds, site.bookings, site.payments
      ensures site.Valid() && old(site.run) <= site.run
      ensures At(site.run, me, op, match r case Ok(hold) => Gated(hold, at) case Err(e) => Refuse(e))
      ensures r == Err(Infra) ==> Troubled(site.run, me)
    {
      hide Run, Called, Troubled, At, Last;
      at := 0;
      var net := site.Network();
      var got := site.GetHold(me, op, session, net);
      if got.Err? {
        return Err(got.error), at;
      }
      var hold := got.value;
      var now := site.ReadClock(me, op, hold);
      if hold.user != user {
        return Err(NotHoldOwner), at;
      }
      if !hold.CanBeConfirmed(now) {
        return Err(HoldExpired), at;
      }
      r, at := Ok(hold), now;
    }

    method CreateIntent(user: Id, session: Id) returns (out: Outcome, ghost me: nat)
      requires site.Valid()
      modifies site, site.holds, site.bookings, site.payments
      ensures site.Valid() && old(site.run) <= site.run && me !in old(Last(site.run).reqs)
      ensures At(site.run, me, OpIntent(user, session), Done(out))
    {
      hide Run, Called, Troubled, At, Last;
      ghost var op := OpIntent(user, session);
      me := site.Receive(op);
      ghost var at: int;
      var gate;
      gate, at := HoldGate(user, session, me, op);
      if gate.Err? {
        return Refused(gate.error), me;
      }
      var hold := gate.value;
      var net := site.Network();
      var existing := site.GetActive(me, op, Gated(hold, at), session, net);
      if existing.Ok? {
        return IntentReady(existing.value, false, hold.expiresAt), me;
      }
      if existing.error != PaymentNotFound {
        return Refused(existing.error), me;
      }
      out := MintIntent(user, session, hold, me);
    }

    /** No active row: freeze the price into a new intent. */
    method MintIntent(user: Id, session: Id, hold: Hold, ghost me: nat) returns (out: Outcome)
      requires site.Valid() && At(site.run, me, OpIntent(user, session), NoIntent(hold))
      modifies site, site.holds, site.bookings, site.payments
      ensures site.Valid() && old(site.run) <= site.run
      ensures At(site.run, me, OpIntent(user, session), Done(out))
    {
      hide Run, Called, Troubled, At, Last;
      ghost var op := OpIntent(user, session);
      var net := site.Network();
      var screening := site.GetScreening(me, op, NoIntent(hold), hold.screening, net);
      if screening.Err? {
        return Refused(screening.error);
      }
      var price := screening.value.price;
      net := site.Network();
      var intent := site.CreateIntent(me, op, hold, price, net);
      if intent.Err? {
        return Refused(intent.error);
      }
      out := Record(user, session, hold, Payment(NoId, session, "fake", intent.value, Intent, price, "usd", 0, 0), me);
    }

    /** Writes the row, or reads back the winner of a lost race. */
    method Record(user: Id, session: Id, hold: Hold, p: Payment, ghost me: nat) returns (out: Outcome)
      requires site.Valid() && At(site.run, me, OpIntent(user, session), IntentMinted(hold, p.amount, p.intent))
      requires p == NewRow(session, p.intent, p.amount)
      modifies site, site.holds, site.bookings, site.payments
      ensures site.Valid() && old(site.run) <= site.run
      ensures At(site.run, me, OpIntent(user, session), Done(out))
    {
      hide Run, Called, Troubled, At, Last;
      ghost var op := OpIntent(user, session);
      var net := site.Network();
      var row := site.InsertIntent(me, op, hold, p, net);
      if row.Err? && row.error == IntentExists {
        net := site.Network();
        var winner := site.GetActive(me, op, LostInsert(hold), session, net);
        if winner.Err? {
          return Refused(row.error);
        }
        return IntentReady(winner.value, false, hold.expiresAt);
      }
      if row.Err? {
        return Refused(row.error);
      }
      out := IntentReady(row.value, true, hold.expiresAt);
    }

    method ConfirmByClient(user: Id, session: Id) returns (out: Outcome, ghost me: nat)
      requires site.Valid()
      modifies site, site.holds, site.bookings, site.payments
      ensures site.Valid() && old(site.run) <= site.run && me !in old(Last(site.run).reqs)
      ensures At(site.run, me, OpPay(user, session), Done(out))
      ensures out == Refused(Infra) ==> Troubled(site.run, me)
    {
      hide Run, Called, Troubled, At, Last;
      ghost var op := OpPay(user, session);
      me := site.Receive(op);
      ghost var at: int;
      var gate;
      gate, at := HoldGate(user, session, me, op);
      if gate.Err? {
        return Refused(gate.error), me;
      }
      out := PayActive(user, session, gate.value, at, me);
    }

    /** Replays a captured row, or charges an open one. */
    method PayActive(user: Id, session: Id, hold: Hold, ghost at: int, ghost me: nat) returns (out: Outcome)
      requires site.Valid() && At(site.run, me, OpPay(user, session), Gated(hold, at))
      modifies site, site.holds, site.bookings, site.payments
      ensures site.Valid() && old(site.run) <= site.run
      ensures At(site.run, me, OpPay(user, session), Done(out))
      ensures out == Refused(Infra) ==> Troubled(site.run, me)
    {
      hide Run, Called, Troubled, At, Last;
      ghost var op := OpPay(user, session);
      var net := site.Network();
      var found := site.GetActive(me, op, Gated(hold, at), session, net);
      if found.Err? {
        return Refused(if found.error == PaymentNotFound then PaymentNotCaptured else found.error);
      }
      var p := found.value;
      if p.status == Captured {
        return PaymentMade(p, false);
      }
      if p.status != Intent && p.status != Authorized {
        return Refused(InvalidTransition);
      }
      out := Charge(user, session, p, me);
    }

    /** Charges the card, then records what came of it. */
    method Charge(user: Id, session: Id, p: Payment, ghost me: nat) returns (out: Outcome)
      requires site.Valid() && At(site.run, me, OpPay(user, session), Charging(p))
      modifies site, site.holds, site.bookings, site.payments
      ensures site.Valid() && old(site.run) <= site.run
      ensures At(site.run, me, OpPay(user, session), Done(out))
      ensures out == Refused(Infra) ==> Troubled(site.run, me)
    {
      hide Run, Called, Troubled, At, Last;
      ghost var op := OpPay(user, session);
      var net := site.Network();
      var charged := site.CaptureIntent(me, op, p, net);
      if charged.Err? {
        net := site.Network();
        var failed := site.MarkFailed(me, op, Declined(p.intent), p.intent, net);
        return Refused(PaymentDeclined);
      }
      net := site.Network();
      var recorded := site.Capture(me, op, Charged(p.intent), p.intent, net);
      out := if recorded.Ok? then PaymentMade(recorded.value.0, recorded.value.1) else Refused(recorded.error);
    }

    /** A webhook delivery, from the exact bytes and header. If they do not verify, no request arrives and no row
        changes; if they do, the answer is that of the event they carry, and it is an acknowledgement unless one of
        the request's own calls was not answered. */
    method HandleWebhook(mac: string -> seq<Webhooks.Byte>, unmarshal: string -> Option<Webhooks.WebhookEvent>,
                         named: string -> Id, body: string, header: string)
      returns (out: Option<Outcome>, ghost me: nat)
      requires site.Valid()
      modifies site, site.holds, site.bookings, site.payments
      ensures site.Valid() && old(site.run) <= site.run
      ensures Webhooks.Verify(mac, unmarshal, body, header, old(site.clock)).None? ==>
                out.None? && site.run == old(site.run) && site.payments.rows == old(site.payments.rows)
      ensures var verified := Webhooks.Verify(mac, unmarshal, body, header, old(site.clock));
              verified.Some? ==>
                && out.Some? && me !in old(Last(site.run).reqs)
                && At(site.run, me, OpHook(EventOf(verified.value, named)), Done(out.value))
                && (out.value.Refused? ==> Troubled(site.run, me))
    {
      hide Run, Called, Troubled, At, Last, Webhooks.Verify;
      var verified := Webhooks.VerifyWebhook(mac, unmarshal, body, header, site.clock);
      if verified.None? {
        return None, 0;
      }
      var answer;
      answer, me := HandleEvent(EventOf(verified.value, named));
      out := Some(answer);
    }

    /** A verified event. */
    method HandleEvent(event: Event) returns (out: Outcome, ghost me: nat)
      requires site.Valid()
      modifies site, site.holds, site.bookings, site.payments
      ensures site.Valid() && old(site.run) <= site.run && me !in old(Last(site.run).reqs)
      ensures At(site.run, me, OpHook(event), Done(out))
      ensures out.Refused? ==> Troubled(site.run, me)
    {
      hide Run, Called, Troubled, At, Last;
      ghost var op := OpHook(event);
      me := site.Receive(op);
      var net := site.Network();
      var found := site.GetByIntent(me, op, event.intent, net);
      if found.Err? {
        return if found.error == PaymentNotFound then Acked(false, false) else Refused(found.error), me;
      }
      var p := found.value;
      match event.kind {
        case CapturedKind =>
          out := ApplyCaptured(event, p, me);
        case FailedKind =>
          net := site.Network();
          var failed := site.MarkFailed(me, op, Matched(p), p.intent, net);
          if failed.Err? {
            return if failed.error == InvalidTransition then Acked(false, true) else Refused(failed.error), me;
          }
          out := Acked(failed.value.status == Failed, true);
        case OtherKind =>
          site.IgnoreEvent(me, op, p);
          out := Acked(false, true);
      }
    }

    /** The amount is checked against the frozen one before anything is captured. */
    method ApplyCaptured(event: Event, p: Payment, ghost me: nat) returns (out: Outcome)
      requires site.Valid() && At(site.run, me, OpHook(event), Matched(p)) && event.kind == CapturedKind
      modifies site, site.holds, site.bookings, site.payments
      ensures site.Valid() && old(site.run) <= site.run
      ensures At(site.run, me, OpHook(event), Done(out))
      ensures out.Refused? ==> Troubled(site.run, me)
    {
      hide Run, Called, Troubled, At, Last;
      var net := site.Network();
      if event.amount != p.amount {
        var failed := site.MarkFailed(me, OpHook(event), Matched(p), p.intent, net);
        if failed.Err? && failed.error != InvalidTransition {
          return Refused(failed.error);
        }
        return Acked(false, true);
      }
      var captured := site.Capture(me, OpHook(event), Matched(p), p.intent, net);
      if captured.Err? {
        return if captured.error == InvalidTransition then Acked(false, true) else Refused(captured.error);
      }
      out := Acked(captured.value.1, true);
    }
  }

  /** A delivery signed with the gateway's key and received within the tolerance is handled as its own event. */
  lemma SignedDeliveryIsHandled(mac: string -> seq<Webhooks.Byte>, marshal: Webhooks.WebhookEvent -> string,
                                unmarshal: string -> Option<Webhooks.WebhookEvent>,
                                ev: Webhooks.WebhookEvent, signed: int, now: int)
    requires unmarshal(marshal(ev)) == Some(ev) && (forall m :: mac(m) != []) && IsInt64(signed / SECOND)
    ensures var (body, header) := Webhooks.Sign(mac, marshal, ev, signed);
            var verified := Webhooks.Verify(mac, unmarshal, body, header, now);
            && (verified.Some? <==>
                  ev.intent != "" && -300 * SECOND <= now - signed / SECOND * SECOND <= 300 * SECOND)
            && (verified.Some? ==> verified.value == ev)
  {
    Webhooks.VerifyUndoesSign(mac, marshal, unmarshal, ev, signed, now);
  }

  /** What a delivery of this event makes of a row: the open row of its intent is captured if the delivery says so for
      exactly its amount, and failed if the delivery says so or names another amount. */
  function Delivered(ev: Webhooks.WebhookEvent, named: string -> Id, p: Payment, now: int): Payment {
    if p.intent != named(ev.intent) || (p.status != Intent && p.status != Authorized) then p
    else if ev.kind == "payment.captured" && ev.amount == p.amount then p.(status := Captured, updatedAt := now)
    else if ev.kind == "payment.captured" || ev.kind == "payment.failed" then p.(status := Failed, updatedAt := now)
    else p
  }

  /** From the gateway's signature to the table: a delivery of ev, received in time and served alone, leaves every row
      as the delivery makes it. */
  lemma SignedDeliverySettles(mac: string -> seq<Webhooks.Byte>, marshal: Webhooks.WebhookEvent -> string,
                              unmarshal: string -> Option<Webhooks.WebhookEvent>, named: string -> Id,
                              ev: Webhooks.WebhookEvent, signed: int, now: int, w: World, me: nat, cs: seq<Choice>)
    requires unmarshal(marshal(ev)) == Some(ev) && (forall m :: mac(m) != []) && IsInt64(signed / SECOND)
    requires ev.intent != "" && -300 * SECOND <= now - signed / SECOND * SECOND <= 300 * SECOND
    requires |cs| >= 2 && Ledger.Lawful(w.payments)
    ensures var (body, header) := Webhooks.Sign(mac, marshal, ev, signed);
            var verified := Webhooks.Verify(mac, unmarshal, body, header, now);
            && verified.Some?
            && var op := OpHook(EventOf(verified.value, named));
               var after := Serve(Arrived(w, op), me, op, cs).0.payments;
            && |after| == |w.payments|
            && forall k :: 0 <= k < |after| ==> after[k] == Delivered(ev, named, w.payments[k], w.now)
  {
    hide Serve, Webhooks.Sign, Webhooks.Verify, Handles, Delivered, Ledger.Lawful;
    SignedDeliveryIsHandled(mac, marshal, unmarshal, ev, signed, now);
    var op := OpHook(EventOf(ev, named));
    HookAlone(Arrived(w, op), me, op.event, cs);
    var (v, pc) := Serve(Arrived(w, op), me, op, cs);
    forall k | 0 <= k < |w.payments|
      ensures |v.payments| == |w.payments| && v.payments[k] == Delivered(ev, named, w.payments[k], w.now)
    {
      HandledRow(Arrived(w, op), v, pc, ev, named, k);
    }
    HandledCount(Arrived(w, op), v, pc, op.event);
  }

  lemma HandledCount(w: World, v: World, pc: Pc, e: Event)
    requires Handles(w, v, pc, e)
    ensures |v.payments| == |w.payments|
  {
  }

  lemma HandledRow(w: World, v: World, pc: Pc, ev: Webhooks.WebhookEvent, named: string -> Id, k: nat)
    requires Handles(w, v, pc, EventOf(ev, named)) && Ledger.Lawful(w.payments) && k < |w.payments|
    ensures |v.payments| == |w.payments| && v.payments[k] == Delivered(ev, named, w.payments[k], w.now)
  {
    Ledger.FoundAt(w.payments, k);
  }
}
