/** The Postgres payment repository: capture and failure as a guarded UPDATE that, when it matches no row,
    is followed by a separate SELECT to classify. Other requests' operations run between the two. */
module PaymentRepos {
  import opened Domain
  import opened Ledger

  /** `UPDATE ... SET status = target WHERE intent_id = ... AND status IN ('intent', 'authorized')`: every
      row that matches is rewritten. */
  function UpdateOpen(rows: seq<Payment>, intent: Id, target: Status, now: int): (after: seq<Payment>)
    ensures |after| == |rows|
    ensures forall k :: 0 <= k < |rows| ==>
              after[k] == if rows[k].intent == intent && IsOpen(rows[k].status)
                          then rows[k].(status := target, updatedAt := now) else rows[k]
  {
    if rows == [] then []
    else
      var row := if rows[0].intent == intent && IsOpen(rows[0].status)
                 then rows[0].(status := target, updatedAt := now) else rows[0];
      [row] + UpdateOpen(rows[1..], intent, target, now)
  }

  /** Whether the UPDATE returns a row. */
  predicate Matches(rows: seq<Payment>, intent: Id) {
    Has(rows, intent) && IsOpen(rows[FindIntent(rows, intent)].status)
  }

  /** With the unique index on intents the UPDATE rewrites at most the one row of the intent. */
  lemma UpdateRewritesOneRow(rows: seq<Payment>, intent: Id, target: Status, now: int)
    requires Lawful(rows)
    ensures UpdateOpen(rows, intent, target, now) ==
            if Matches(rows, intent)
            then rows[FindIntent(rows, intent) := rows[FindIntent(rows, intent)].(status := target, updatedAt := now)]
            else rows
  {
    var i := FindIntent(rows, intent);
    forall k | 0 <= k < |rows| && rows[k].intent == intent ensures k == i {
      FoundAt(rows, k);
    }
  }

  /** How the SELECT classifies a capture whose UPDATE missed. */
  function CaptureSelected(current: Result<Payment>): Result<(Payment, bool)> {
    match current
    case Err(e) => Err(e)
    case Ok(row) => if row.status == Captured then Ok((row, false)) else Err(InvalidTransition)
  }

  function FailureSelected(current: Result<Payment>): Result<Payment> {
    match current
    case Err(e) => Err(e)
    case Ok(row) => if row.status == Failed then Ok(row) else Err(InvalidTransition)
  }

  /** What a capture answers whose UPDATE missed and whose SELECT ran on these rows. */
  function Classify(rows: seq<Payment>, intent: Id): Result<(Payment,
        bool)> { CaptureSelected(GetByIntent(rows, intent)) }

  function ClassifyFailed(rows: seq<Payment>,
        intent: Id): Result<Payment> { FailureSelected(GetByIntent(rows, intent)) }

  class PaymentRepo {
    var rows: seq<Payment>

    constructor (rows: seq<Payment>)
      ensures this.rows == rows
    {
      this.rows := rows;
    }

    /** The insert statement with its two unique indexes. If it violates both, the database may report either; a known
        intent is an operational failure, not a conflict to recover from. */
    method InsertIntent(p: Payment, id: Id, now: int, reportsIntent: bool) returns (r: Result<Payment>)
      modifies this
      ensures r.Ok? <==> Ledger.Insert(old(rows), p, id, now).0.Ok?
      ensures r.Ok? ==> (r, rows) == Ledger.Insert(old(rows), p, id, now)
      ensures r.Err? ==> rows == old(rows)
      ensures r == Err(IntentExists) || r == Err(Infra) || r.Ok?
      ensures r == Err(IntentExists) ==> GetActive(rows, p.session).Ok?
      ensures r == Err(Infra) ==> Has(rows, p.intent)
      ensures !Has(old(rows), p.intent) ==> (r, rows) == Ledger.Insert(old(rows), p, id, now)
    {
      var known, active := Has(rows, p.intent), LastActive(rows, p.session) >= 0;
      if known && (!active || reportsIntent) {
        return Err(Infra);
      }
      if active {
        return Err(IntentExists);
      }
      var row := p.(id := id, status := Intent, createdAt := now, updatedAt := now);
      rows := rows + [row];
      r := Ok(row);
    }

    /** One statement: any active row of the session, of which the partial unique index leaves one at most. */
    method GetActiveBySession(session: Id) returns (r: Result<Payment>)
      requires Lawful(rows)
      ensures r == GetActive(rows, session)
      ensures forall p :: r == Ok(p) <==>
                p in rows && p.session == session && p.status != Failed && p.status != Refunded
    {
      if k :| 0 <= k < |rows| && ActiveFor(rows[k], session) {
        var last := LastActive(rows, session);
        assert last == k || k < last;
        return Ok(rows[k]);
      }
      r := Err(PaymentNotFound);
    }

    /** One statement: any row of the intent, of which the unique index leaves one at most. */
    method GetRowByIntent(intent: Id) returns (r: Result<Payment>)
      requires Lawful(rows)
      ensures r == GetByIntent(rows, intent)
    {
      if k :| 0 <= k < |rows| && rows[k].intent == intent {
        FoundAt(rows, k);
        return Ok(rows[k]);
      }
      r := Err(PaymentNotFound);
    }

    /** One statement. */
    method HasCapturedPayment(session: Id) returns (captured: bool)
      ensures captured <==> exists k :: 0 <= k < |rows| && rows[k].session == session && rows[k].status == Captured
    {
      captured := exists k :: 0 <= k < |rows| && rows[k].session == session && rows[k].status == Captured;
    }

    /** One statement. */
    method RunUpdate(intent: Id, target: Status, now: int) returns (hit: Option<Payment>)
      requires Lawful(rows)
      modifies this
      ensures rows == UpdateOpen(old(rows), intent, target, now)
      ensures hit == if Matches(old(rows), intent) then Some(rows[FindIntent(old(rows), intent)]) else None
    {
      var i := FindIntent(rows, intent);
      hit := if Matches(rows, intent) then Some(rows[i].(status := target, updatedAt := now)) else None;
      rows := UpdateOpen(rows, intent, target, now);
    }

    /** The operations of other requests, between two statements of this one. */
    method Interfere(others: seq<Op>)
      requires Lawful(rows)
      modifies this
      ensures rows == ApplyAll(old(rows), others) && Lawful(rows) && Evolves(old(rows), rows)
    {
      RunsAreLawful(rows, others);
      rows := ApplyAll(rows, others);
    }

    /** The two statements together answer what the one-step capture answers at the first of them, and
        write what it writes, if the intent has a row already; and in general exactly if no row for the
        intent appears between the two. */
    method Capture(intent: Id, now: int, others: seq<Op>) returns (r: Result<(Payment, bool)>)
      requires Lawful(rows)
      modifies this
      ensures var (answer, after) := Ledger.Capture(old(rows), intent, now);
              var quiet := answer.Ok? && answer.value.1;
              && rows == (if quiet then after else ApplyAll(after, others))
              && (r == answer <==> Has(old(rows), intent) || !Has(rows, intent))
              && (!quiet ==> r == Classify(rows, intent))
      ensures Lawful(rows) && Evolves(old(rows), rows)
    {
      hide Lawful, Evolves, UpdateOpen, FindIntent, Ledger.Capture, ApplyAll;
      UpdateIsCapture(rows, intent, now);
      CaptureLawful(rows, intent, now);
      var hit := RunUpdate(intent, Captured, now);
      if hit.Some? {
        return Ok((hit.value, true));
      }
      ghost var first := rows;
      Interfere(others);
      if Has(first, intent) {
        MissedRowStays(first, rows, intent);
      }
      HasSelects(rows, intent);
      var current := GetRowByIntent(intent);
      r := CaptureSelected(current);
    }

    /** As Capture, for the edge to failed. */
    method MarkFailed(intent: Id, now: int, others: seq<Op>) returns (r: Result<Payment>)
      requires Lawful(rows)
      modifies this
      ensures var (answer, after) := Ledger.MarkFailed(old(rows), intent, now);
              var quiet := answer.Ok? && old(Matches(rows, intent));
              && rows == (if quiet then after else ApplyAll(after, others))
              && (r == answer <==> Has(old(rows), intent) || !Has(rows, intent))
      ensures Lawful(rows) && Evolves(old(rows), rows)
    {
      hide Lawful, Evolves, UpdateOpen, FindIntent, Ledger.MarkFailed, ApplyAll;
      UpdateIsFailure(rows, intent, now);
      MarkFailedLawful(rows, intent, now);
      var hit := RunUpdate(intent, Failed, now);
      if hit.Some? {
        return Ok(hit.value);
      }
      ghost var first := rows;
      Interfere(others);
      if Has(first, intent) {
        MissedRowStays(first, rows, intent);
      }
      HasSelects(rows, intent);
      var current := GetRowByIntent(intent);
      r := FailureSelected(current);
    }
  }

  /** The guarded UPDATE writes what the one-step capture writes; if it misses, the SELECT at once would answer the
      same. */
  lemma UpdateIsCapture(rows: seq<Payment>, intent: Id, now: int)
    requires Lawful(rows)
    ensures var (answer, after) := Ledger.Capture(rows, intent, now);
            && UpdateOpen(rows, intent, Captured, now) == after && (!Matches(rows, intent) ==> after == rows)
            && answer == (if Matches(rows, intent) then Ok((after[FindIntent(rows, intent)], true))
               else Classify(rows, intent))
            && (!Has(rows, intent) <==> answer == Err(PaymentNotFound))
            && (answer.Err? && Has(rows, intent) ==> answer.error == InvalidTransition)
  {
    UpdateRewritesOneRow(rows, intent, Captured, now);
  }

  lemma UpdateIsFailure(rows: seq<Payment>, intent: Id, now: int)
    requires Lawful(rows)
    ensures var (answer, after) := Ledger.MarkFailed(rows, intent, now);
            && UpdateOpen(rows, intent, Failed, now) == after && (!Matches(rows, intent) ==> after == rows)
            && answer == (if Matches(rows, intent) then Ok(after[FindIntent(rows, intent)])
               else ClassifyFailed(rows, intent))
            && (!Has(rows, intent) <==> answer == Err(PaymentNotFound))
            && (answer.Err? && Has(rows, intent) ==> answer.error == InvalidTransition)
  {
    UpdateRewritesOneRow(rows, intent, Failed, now);
  }

  lemma HasSelects(rows: seq<Payment>, intent: Id)
    ensures Has(rows, intent) <==> GetByIntent(rows, intent).Ok?
    ensures GetByIntent(rows, intent).Err? ==> GetByIntent(rows, intent).error == PaymentNotFound
  {
  }

  /** A row that the guarded UPDATE does not match stays as it is in every later table, so whenever the SELECT runs,
      it finds what it would have found at once. */
  lemma MissedRowStays(first: seq<Payment>, second: seq<Payment>, intent: Id)
    requires Lawful(second) && Evolves(first, second) && Has(first, intent) && !Matches(first, intent)
    ensures GetByIntent(second, intent) == GetByIntent(first, intent)
  {
    FoundLater(first, second, intent);
  }

  // ----- the same protocol as a value, for the exact condition of atomicity -----

  /** The answer of a capture whose UPDATE missed is that of a one-step capture at one of its two statements,
      with nothing written, exactly unless an open row of the intent appeared between them. */
  lemma MissedCaptureLinearizes(first: seq<Payment>, others: seq<Op>, intent: Id, now: int)
    requires Lawful(first) && !Matches(first, intent)
    ensures var second := ApplyAll(first, others);
            (Classify(second, intent), first) == Capture(first, intent, now) ||
            (Classify(second, intent), second) == Capture(second, intent, now)
            <==> Has(first, intent) || !Matches(second, intent)
  {
    var second := ApplyAll(first, others);
    RunsAreLawful(first, others);
    if Has(first, intent) {
      FoundLater(first, second, intent);
    }
  }

  /** The failing case is real: an insert between the statements makes a capture of an unknown intent answer
      an invalid transition on an open row, which no one-step capture does. */
  lemma InsertBetweenStatementsShows(p: Payment, id: Id, at: int, now: int)
    ensures var others := [InsertOp(p, id, at)];
            var second := ApplyAll([], others);
            && Classify(second, p.intent) == Err(InvalidTransition)
            && Capture([], p.intent, now).0 == Err(PaymentNotFound)
            && Capture(second, p.intent, now).0.Ok?
  {
    var others := [InsertOp(p, id, at)];
    var row := p.(id := id, status := Intent, createdAt := at, updatedAt := at);
    assert Apply([], others[0]) == [row];
    assert others[1..] == [];
    assert FindIntent([row], p.intent) == 0;
  }
}
