/** The in-memory payment store: an append-only slice of rows whose statuses are overwritten in place. */
module PaymentStores {
  import opened Domain
  import Ledger

  class PaymentStore {
    var rows: seq<Payment>

    constructor ()
      ensures rows == []
    {
      rows := [];
    }

    method InsertIntent(p: Payment, id: Id, now: int) returns (r: Result<Payment>)
      modifies this
      ensures (r, rows) == Ledger.Insert(old(rows), p, id, now)
    {
      var i := 0;
      while i < |rows|
        invariant 0 <= i <= |rows|
        invariant forall k :: 0 <= k < i ==> !Ledger.Clashes(rows[k], p.session, p.intent)
      {
        if rows[i].intent == p.intent {
          return Err(DuplicateIntent);
        }
        if rows[i].session == p.session && rows[i].status.IsActive() {
          return Err(IntentExists);
        }
        i := i + 1;
      }
      var row := p.(id := id, status := Intent, createdAt := now, updatedAt := now);
      rows := rows + [row];
      r := Ok(row);
    }

    method GetActiveBySession(session: Id) returns (r: Result<Payment>)
      ensures r == Ledger.GetActive(rows, session)
    {
      var i := |rows| - 1;
      while i >= 0
        invariant -1 <= i < |rows|
        invariant forall k :: i < k < |rows| ==> !Ledger.ActiveFor(rows[k], session)
      {
        if rows[i].session == session && rows[i].status.IsActive() {
          return Ok(rows[i]);
        }
        i := i - 1;
      }
      r := Err(PaymentNotFound);
    }

    method GetByIntent(intent: Id) returns (r: Result<Payment>)
      ensures r == Ledger.GetByIntent(rows, intent)
    {
      var i := FindIndexByIntent(intent);
      r := if i < 0 then Err(PaymentNotFound) else Ok(rows[i]);
    }

    method Capture(intent: Id, now: int) returns (r: Result<(Payment, bool)>)
      modifies this
      ensures (r, rows) == Ledger.Capture(old(rows), intent, now)
    {
      var i := FindIndexByIntent(intent);
      if i < 0 {
        return Err(PaymentNotFound);
      }
      match rows[i].status {
        case Intent | Authorized =>
          rows := rows[i := rows[i].(status := Captured, updatedAt := now)];
          r := Ok((rows[i], true));
        case Captured =>
          r := Ok((rows[i], false));
        case _ =>
          r := Err(InvalidTransition);
      }
    }

    method MarkFailed(intent: Id, now: int) returns (r: Result<Payment>)
      modifies this
      ensures (r, rows) == Ledger.MarkFailed(old(rows), intent, now)
    {
      var i := FindIndexByIntent(intent);
      if i < 0 {
        return Err(PaymentNotFound);
      }
      match rows[i].status {
        case Intent | Authorized =>
          rows := rows[i := rows[i].(status := Failed, updatedAt := now)];
          r := Ok(rows[i]);
        case Failed =>
          r := Ok(rows[i]);
        case _ =>
          r := Err(InvalidTransition);
      }
    }

    method HasCapturedPayment(session: Id) returns (captured: bool)
      ensures captured <==> exists k :: 0 <= k < |rows| && rows[k].session == session && rows[k].status == Captured
    {
      for i := 0 to |rows|
        invariant forall k :: 0 <= k < i ==> !(rows[k].session == session && rows[k].status == Captured)
      {
        if rows[i].session == session && rows[i].status == Captured {
          return true;
        }
      }
      captured := false;
    }

    method FindIndexByIntent(intent: Id) returns (i: int)
      ensures i == Ledger.FindIntent(rows, intent)
    {
      i := 0;
      while i < |rows|
        invariant 0 <= i <= |rows|
        invariant forall k :: 0 <= k < i ==> rows[k].intent != intent
      {
        if rows[i].intent == intent {
          return;
        }
        i := i + 1;
      }
      i := -1;
    }
  }
}
