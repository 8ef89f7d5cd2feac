/** The payments table as a value: what each store operation answers and what it leaves behind, and the
    laws every run of operations obeys. */
module Ledger {
  import opened Domain

  /** The position of the row of an intent, or -1. */
  function FindIntent(rows: seq<Payment>, intent: Id): (i: int)
    ensures -1 <= i < |rows|
    ensures 0 <= i ==> rows[i].intent == intent
    ensures forall k :: 0 <= k < (if i < 0 then |rows| else i) ==> rows[k].intent != intent
  {
    if rows == [] then -1
    else if rows[0].intent == intent then 0
    else var i := FindIntent(rows[1..], intent); if i < 0 then -1 else i + 1
  }

  predicate Has(rows: seq<Payment>, intent: Id) { FindIntent(rows, intent) >= 0 }

  predicate ActiveFor(p: Payment, session: Id) { p.session == session && p.status.IsActive() }

  /** The position of the latest active row of a session, or -1. */
  function LastActive(rows: seq<Payment>, session: Id): (i: int)
    ensures -1 <= i < |rows|
    ensures 0 <= i ==> ActiveFor(rows[i], session)
    ensures forall k :: i < k < |rows| ==> !ActiveFor(rows[k], session)
  {
    if rows == [] then -1
    else if ActiveFor(rows[|rows| - 1], session) then |rows| - 1
    else LastActive(rows[..|rows| - 1], session)
  }

  /** A row that keeps a new intent out: the same intent ID, or an active row of the same session. */
  predicate Clashes(row: Payment, session: Id, intent: Id) {
    row.intent == intent || ActiveFor(row, session)
  }

  function FirstClash(rows: seq<Payment>, session: Id, intent: Id): (i: int)
    ensures -1 <= i < |rows|
    ensures 0 <= i ==> Clashes(rows[i], session, intent)
    ensures forall k :: 0 <= k < (if i < 0 then |rows| else i) ==> !Clashes(rows[k], session, intent)
  {
    if rows == [] then -1
    else if Clashes(rows[0], session, intent) then 0
    else var i := FirstClash(rows[1..], session, intent); if i < 0 then -1 else i + 1
  }

  // ----- the operations -----

  function Insert(rows: seq<Payment>, p: Payment, id: Id, now: int): (Result<Payment>, seq<Payment>) {
    var i := FirstClash(rows, p.session, p.intent);
    if i < 0 then
      var row := p.(id := id, status := Intent, createdAt := now, updatedAt := now);
      (Ok(row), rows + [row])
    else if rows[i].intent == p.intent then (Err(DuplicateIntent), rows)
    else (Err(IntentExists), rows)
  }

  function GetActive(rows: seq<Payment>, session: Id): Result<Payment> {
    var i := LastActive(rows, session);
    if i < 0 then Err(PaymentNotFound) else Ok(rows[i])
  }

  function GetByIntent(rows: seq<Payment>, intent: Id): Result<Payment> {
    var i := FindIntent(rows, intent);
    if i < 0 then Err(PaymentNotFound) else Ok(rows[i])
  }

  predicate IsOpen(status: Status) { status == Intent || status == Authorized }

  /** The flag is true exactly when this call moved the row to captured. */
  function Capture(rows: seq<Payment>, intent: Id, now: int): (Result<(Payment, bool)>, seq<Payment>) {
    var i := FindIntent(rows, intent);
    if i < 0 then (Err(PaymentNotFound), rows)
    else if IsOpen(rows[i].status) then
      var row := rows[i].(status := Captured, updatedAt := now);
      (Ok((row, true)), rows[i := row])
    else if rows[i].status == Captured then (Ok((rows[i], false)), rows)
    else (Err(InvalidTransition), rows)
  }

  function MarkFailed(rows: seq<Payment>, intent: Id, now: int): (Result<Payment>, seq<Payment>) {
    var i := FindIntent(rows, intent);
    if i < 0 then (Err(PaymentNotFound), rows)
    else if IsOpen(rows[i].status) then
      var row := rows[i].(status := Failed, updatedAt := now);
      (Ok(row), rows[i := row])
    else if rows[i].status == Failed then (Ok(rows[i]), rows)
    else (Err(InvalidTransition), rows)
  }

  predicate HasCaptured(rows: seq<Payment>, session: Id) {
    exists k :: 0 <= k < |rows| && rows[k].session == session && rows[k].status == Captured
  }

  // ----- the laws -----

  /** The two unique indexes: one row per intent, one active row per session. */
  ghost predicate Lawful(rows: seq<Payment>) {
    && (forall i, j :: 0 <= i < j < |rows| ==> rows[i].intent != rows[j].intent)
    && (forall i, j :: 0 <= i < j < |rows| && rows[i].session == rows[j].session ==>
          !(rows[i].status.IsActive() && rows[j].status.IsActive()))
  }

  /** Everything about a row but its status and the time of its last update. */
  predicate SameIntent(a: Payment, b: Payment) {
    a.(status := b.status, updatedAt := b.updatedAt) == b
  }

  /** b is a later state of table a: rows only appended, identities and amounts frozen, statuses settled
      along the state machine, settled rows untouched. */
  ghost predicate Evolves(a: seq<Payment>, b: seq<Payment>) {
    && |a| <= |b|
    && (forall k :: 0 <= k < |a| ==>
          && SameIntent(a[k], b[k])
          && Settles(a[k].status, b[k].status)
          && (a[k].status == b[k].status ==> a[k] == b[k]))
  }

  lemma EvolvesTransitive(a: seq<Payment>, b: seq<Payment>, c: seq<Payment>)
    requires Evolves(a, b) && Evolves(b, c)
    ensures Evolves(a, c)
  {
    forall k | 0 <= k < |a|
      ensures SameIntent(a[k], c[k]) && Settles(a[k].status, c[k].status)
      ensures a[k].status == c[k].status ==> a[k] == c[k]
    {
      assert SameIntent(a[k], b[k]) && SameIntent(b[k], c[k]);
    }
  }

  /** In a lawful table an intent names one row, so a row is found wherever it is. */
  lemma FoundAt(rows: seq<Payment>, k: nat)
    requires Lawful(rows) && k < |rows|
    ensures FindIntent(rows, rows[k].intent) == k
  {
    var i := FindIntent(rows, rows[k].intent);
    assert i == k || i < k || k < i;
  }

  /** A row, once found, is found at the same place in every later table. */
  lemma FoundLater(a: seq<Payment>, b: seq<Payment>, intent: Id)
    requires Lawful(b) && Evolves(a, b) && Has(a, intent)
    ensures FindIntent(b, intent) == FindIntent(a, intent)
  {
    var k := FindIntent(a, intent);
    assert SameIntent(a[k], b[k]);
    FoundAt(b, k);
  }

  lemma InsertLawful(rows: seq<Payment>, p: Payment, id: Id, now: int)
    requires Lawful(rows)
    ensures Lawful(Insert(rows, p, id, now).1) && Evolves(rows, Insert(rows, p, id, now).1)
  {
    var after := Insert(rows, p, id, now).1;
    if FirstClash(rows, p.session, p.intent) < 0 {
      assert forall k :: 0 <= k < |rows| ==> after[k] == rows[k] && !Clashes(rows[k], p.session, p.intent);
    }
  }

  lemma CaptureLawful(rows: seq<Payment>, intent: Id, now: int)
    requires Lawful(rows)
    ensures Lawful(Capture(rows, intent, now).1) && Evolves(rows, Capture(rows, intent, now).1)
  {
  }

  lemma MarkFailedLawful(rows: seq<Payment>, intent: Id, now: int)
    requires Lawful(rows)
    ensures Lawful(MarkFailed(rows, intent, now).1) && Evolves(rows, MarkFailed(rows, intent, now).1)
  {
  }

  /** A session that has paid once keeps that one captured row and no other. */
  lemma OneCapturedRow(rows: seq<Payment>, i: nat, j: nat)
    requires Lawful(rows) && i < |rows| && j < |rows|
    requires rows[i].session == rows[j].session && rows[i].status == rows[j].status == Captured
    ensures i == j
  {
    assert i < j || j < i || i == j;
  }

  // ----- the operations on plain rows -----

  /** Money is owed or collected on the row, and has not been given back. */
  predicate Ongoing(p: Payment) { p.status != Failed && p.status != Refunded }

  /** The row on which a request for the session would act. */
  ghost predicate IsOngoing(rows: seq<Payment>, session: Id, p: Payment) {
    p in rows && p.session == session && p.status != Failed && p.status != Refunded
  }

  /** The lookups: the session's one active row, the intent's row, and whether the session has paid. */
  lemma LookupsDecide(rows: seq<Payment>, session: Id, intent: Id)
    requires Lawful(rows)
    ensures forall p :: GetActive(rows, session) == Ok(p) <==> p in rows && p.session == session && Ongoing(p)
    ensures GetActive(rows, session).Err? <==> GetActive(rows, session) == Err(PaymentNotFound)
    ensures forall p :: GetByIntent(rows, intent) == Ok(p) <==> p in rows && p.intent == intent
    ensures GetByIntent(rows, intent).Err? <==> GetByIntent(rows, intent) == Err(PaymentNotFound)
    ensures HasCaptured(rows, session) <==> exists p :: p in rows && p.session == session && p.status == Captured
  {
    forall p ensures GetActive(rows, session) == Ok(p) <==> p in rows && p.session == session && Ongoing(p) {
      if p in rows && p.session == session && Ongoing(p) {
        var k :| 0 <= k < |rows| && rows[k] == p;
        var last := LastActive(rows, session);
        assert last == k || k < last;
      }
    }
    forall p ensures GetByIntent(rows, intent) == Ok(p) <==> p in rows && p.intent == intent {
      if p in rows && p.intent == intent {
        var k :| 0 <= k < |rows| && rows[k] == p;
        FoundAt(rows, k);
      }
    }
    CapturedMeans(rows, session);
  }

  /** A session has paid exactly if some row of it is captured. */
  lemma CapturedMeans(rows: seq<Payment>, session: Id)
    ensures HasCaptured(rows, session) <==> exists p :: p in rows && p.session == session && p.status == Captured
  {
    if k :| 0 <= k < |rows| && rows[k].session == session && rows[k].status == Captured {
      assert rows[k] in rows;
    }
  }

  /** An insert succeeds exactly if no row has the intent and none of the session is ongoing, and appends the row as
      an open intent; a refused one changes nothing and names what the first row in the way is. */
  lemma InsertDecides(rows: seq<Payment>, p: Payment, id: Id, now: int)
    ensures var (answer, after) := Insert(rows, p, id, now);
            && (answer.Ok? <==>
                  forall q :: q in rows ==> q.intent != p.intent && !(q.session == p.session && Ongoing(q)))
            && (answer.Ok? ==>
                  answer.value == Payment(id, p.session, p.gateway, p.intent, Intent, p.amount, p.currency, now, now)
                  && after == rows + [answer.value])
            && (answer.Err? ==> after == rows && answer.error in {DuplicateIntent, IntentExists})
            && (answer == Err(DuplicateIntent) ==>
                  exists i :: InTheWay(rows, p.session, p.intent, i) && rows[i].intent == p.intent)
            && (answer == Err(IntentExists) ==>
                  exists i :: InTheWay(rows, p.session, p.intent, i) && rows[i].intent != p.intent)
  {
    var i := FirstClash(rows, p.session, p.intent);
    if i >= 0 {
      assert rows[i] in rows;
      assert InTheWay(rows, p.session, p.intent, i);
    }
  }

  /** The first row that keeps the intent out. */
  ghost predicate InTheWay(rows: seq<Payment>, session: Id, intent: Id, i: int) {
    && 0 <= i < |rows|
    && (rows[i].intent == intent || (rows[i].session == session && Ongoing(rows[i])))
    && forall j :: 0 <= j < i ==> rows[j].intent != intent && !(rows[j].session == session && Ongoing(rows[j]))
  }

  /** A capture, status by status: it closes an open row, replays on a captured one, is refused on any other, and
      touches no other row. */
  lemma CaptureDecides(rows: seq<Payment>, intent: Id, now: int)
    requires Lawful(rows)
    ensures (forall p :: p in rows ==> p.intent != intent) ==>
              Capture(rows, intent, now) == (Err(PaymentNotFound), rows)
    ensures forall k :: 0 <= k < |rows| && rows[k].intent == intent ==>
              var row := rows[k].(status := Captured, updatedAt := now);
              Capture(rows, intent, now) ==
              match rows[k].status
              case Intent | Authorized => (Ok((row, true)), rows[k := row])
              case Captured => (Ok((rows[k], false)), rows)
              case Refunding | Refunded | Failed => (Err(InvalidTransition), rows)
  {
    forall k | 0 <= k < |rows| && rows[k].intent == intent ensures FindIntent(rows, intent) == k {
      FoundAt(rows, k);
    }
    if Has(rows, intent) {
      assert rows[FindIntent(rows, intent)] in rows;
    }
  }

  /** A failure, status by status. */
  lemma FailureDecides(rows: seq<Payment>, intent: Id, now: int)
    requires Lawful(rows)
    ensures (forall p :: p in rows ==> p.intent != intent) ==>
              MarkFailed(rows, intent, now) == (Err(PaymentNotFound), rows)
    ensures forall k :: 0 <= k < |rows| && rows[k].intent == intent ==>
              var row := rows[k].(status := Failed, updatedAt := now);
              MarkFailed(rows, intent, now) ==
              match rows[k].status
              case Intent | Authorized => (Ok(row), rows[k := row])
              case Failed => (Ok(rows[k]), rows)
              case Captured | Refunding | Refunded => (Err(InvalidTransition), rows)
  {
    forall k | 0 <= k < |rows| && rows[k].intent == intent ensures FindIntent(rows, intent) == k {
      FoundAt(rows, k);
    }
    if Has(rows, intent) {
      assert rows[FindIntent(rows, intent)] in rows;
    }
  }

  // ----- runs of operations -----

  datatype Op =
    | InsertOp(p: Payment, id: Id, at: int)
    | CaptureOp(intent: Id, at: int)
    | FailOp(intent: Id, at: int)

  function Apply(rows: seq<Payment>, op: Op): seq<Payment> {
    match op
    case InsertOp(p, id, at) => Insert(rows, p, id, at).1
    case CaptureOp(intent, at) => Capture(rows, intent, at).1
    case FailOp(intent, at) => MarkFailed(rows, intent, at).1
  }

  function ApplyAll(rows: seq<Payment>, ops: seq<Op>): seq<Payment>
    decreases |ops|
  {
    if ops == [] then rows else ApplyAll(Apply(rows, ops[0]), ops[1..])
  }

  lemma ApplyLawful(rows: seq<Payment>, op: Op)
    requires Lawful(rows)
    ensures Lawful(Apply(rows, op)) && Evolves(rows, Apply(rows, op))
  {
    match op
    case InsertOp(p, id, at) => InsertLawful(rows, p, id, at);
    case CaptureOp(intent, at) => CaptureLawful(rows, intent, at);
    case FailOp(intent, at) => MarkFailedLawful(rows, intent, at);
  }

  /** Every run of operations keeps the indexes and only evolves the table. */
  lemma {:induction false} RunsAreLawful(rows: seq<Payment>, ops: seq<Op>)
    requires Lawful(rows)
    ensures Lawful(ApplyAll(rows, ops)) && Evolves(rows, ApplyAll(rows, ops))
    decreases |ops|
  {
    if ops != [] {
      var next := Apply(rows, ops[0]);
      ApplyLawful(rows, ops[0]);
      RunsAreLawful(next, ops[1..]);
      EvolvesTransitive(rows, next, ApplyAll(rows, ops));
    }
  }

  /** Whether this operation is a capture that answers "captured now" for the intent. */
  predicate ReportsCapture(rows: seq<Payment>, op: Op, intent: Id) {
    op.CaptureOp? && op.intent == intent &&
    var answer := Capture(rows, intent, op.at).0; answer.Ok? && answer.value.1
  }

  /** How often a run reports that it moved the intent's row to captured. */
  function CapturesNow(rows: seq<Payment>, ops: seq<Op>, intent: Id): nat
    decreases |ops|
  {
    if ops == [] then 0
    else
      (if ReportsCapture(rows, ops[0], intent) then 1 else 0) + CapturesNow(Apply(rows, ops[0]), ops[1..], intent)
  }

  lemma InsertCapturesNothing(rows: seq<Payment>, p: Payment, id: Id, now: int, intent: Id)
    requires Lawful(rows)
    ensures IsCaptured(Insert(rows, p, id, now).1, intent) ==> IsCaptured(rows, intent)
  {
    InsertLawful(rows, p, id, now);
    var after := Insert(rows, p, id, now).1;
    if Has(rows, intent) {
      FoundLater(rows, after, intent);
    }
  }

  lemma MoveOfCapture(rows: seq<Payment>, named: Id, now: int, intent: Id)
    requires Lawful(rows)
    ensures ReportsCapture(rows, CaptureOp(named, now), intent) <==>
            !IsCaptured(rows, intent) && IsCaptured(Capture(rows, named, now).1, intent)
  {
    CaptureLawful(rows, named, now);
    if Has(rows, intent) {
      FoundLater(rows, Capture(rows, named, now).1, intent);
    }
  }

  lemma FailureCapturesNothing(rows: seq<Payment>, named: Id, now: int, intent: Id)
    requires Lawful(rows)
    ensures IsCaptured(MarkFailed(rows, named, now).1, intent) ==> IsCaptured(rows, intent)
  {
    MarkFailedLawful(rows, named, now);
    if Has(rows, intent) {
      FoundLater(rows, MarkFailed(rows, named, now).1, intent);
    }
  }

  lemma ReportIsTheMove(rows: seq<Payment>, op: Op, intent: Id)
    requires Lawful(rows)
    ensures ReportsCapture(rows, op, intent) <==> !IsCaptured(rows, intent) && IsCaptured(Apply(rows, op), intent)
  {
    match op
    case InsertOp(p, id, at) => InsertCapturesNothing(rows, p, id, at, intent);
    case CaptureOp(named, at) => MoveOfCapture(rows, named, at, intent);
    case FailOp(named, at) => FailureCapturesNothing(rows, named, at, intent);
  }

  /** Exactly one capture of a run reports the move when the run captures the row, none otherwise. */
  lemma {:induction false} CapturedOnce(rows: seq<Payment>, ops: seq<Op>, intent: Id)
    requires Lawful(rows)
    ensures CapturesNow(rows, ops, intent) ==
            if IsCaptured(ApplyAll(rows, ops), intent) && !IsCaptured(rows, intent) then 1 else 0
    decreases |ops|
  {
    if ops != [] {
      var next := Apply(rows, ops[0]);
      ApplyLawful(rows, ops[0]);
      RunsAreLawful(next, ops[1..]);
      CapturedOnce(next, ops[1..], intent);
      ReportIsTheMove(rows, ops[0], intent);
      CapturedStays(rows, next, intent);
      CapturedStays(next, ApplyAll(rows, ops), intent);
    }
  }

  predicate IsCaptured(rows: seq<Payment>, intent: Id) {
    Has(rows, intent) && rows[FindIntent(rows, intent)].status == Captured
  }

  lemma CapturedStays(a: seq<Payment>, b: seq<Payment>, intent: Id)
    requires Lawful(b) && Evolves(a, b)
    ensures IsCaptured(a, intent) ==> IsCaptured(b, intent)
  {
    if Has(a, intent) {
      FoundLater(a, b, intent);
    }
  }

  /** A webhook's failed event: `Applied` is answered true exactly when the row ends up failed, although
      a row that had already failed is not changed by it. */
  lemma FailedReplayChangesNothing(rows: seq<Payment>, intent: Id, now: int)
    requires Has(rows, intent)
    ensures var (answer, after) := MarkFailed(rows, intent, now);
            && (answer.Ok? <==> after[FindIntent(rows, intent)].status == Failed)
            && (answer.Ok? && after == rows <==> rows[FindIntent(rows, intent)].status == Failed)
  {
  }
}
