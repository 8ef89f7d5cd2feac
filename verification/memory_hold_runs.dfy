/** Runs of the in-memory hold store: claims, releases and the passing of time, in any order. */
module MemoryHoldRuns {
  import opened Domain
  import opened MemoryHoldStores
  import Holds

  datatype Op =
    | ClaimOp(hold: Hold)
    | ReleaseOp(session: Id, user: Id)
    | TickOp(to: int)

  /** The tables and the clock. */
  datatype State = State(t: Tables, now: int)

  function Start(now: int): State { State(Tables(map[], map[], map[], 0), now) }

  function Apply(s: State, max: int, op: Op): State {
    match op
    case ClaimOp(hold) => s.(t := Claim(s.t, max, hold, s.now).1)
    case ReleaseOp(session, user) => s.(t := GiveUp(s.t, session, user, s.now).1)
    case TickOp(to) => s.(now := to)
  }

  /** Session IDs and tokens are not in use, seats come from NewSeat, time does not go back. */
  ghost predicate Allowed(s: State, op: Op) {
    match op
    case ClaimOp(hold) => Fresh(s.t, hold) && ProperSeat(hold.seat)
    case ReleaseOp(_, _) => true
    case TickOp(to) => s.now <= to
  }

  function ApplyAll(s: State, max: int, ops: seq<Op>): State
    decreases |ops|
  {
    if ops == [] then s else ApplyAll(Apply(s, max, ops[0]), max, ops[1..])
  }

  ghost predicate AllowedRun(s: State, max: int, ops: seq<Op>)
    decreases |ops|
  {
    ops == [] || (Allowed(s, ops[0]) && AllowedRun(Apply(s, max, ops[0]), max, ops[1..]))
  }

  predicate Grants(s: State, max: int, op: Op, user: Id) {
    op.ClaimOp? && op.hold.user == user && Claim(s.t, max, op.hold, s.now).0.Ok?
  }

  predicate Releases(s: State, op: Op, user: Id) {
    op.ReleaseOp? && op.user == user && GiveUp(s.t, op.session, op.user, s.now).0.Ok?
  }

  /** How many claims of the user a run grants, and how many of the user's holds it releases. */
  function GrantCount(s: State, max: int, ops: seq<Op>, user: Id): nat
    decreases |ops|
  {
    if ops == [] then 0
    else (if Grants(s, max, ops[0], user) then 1 else 0) + GrantCount(Apply(s, max, ops[0]), max, ops[1..], user)
  }

  function ReleaseCount(s: State, max: int, ops: seq<Op>, user: Id): nat
    decreases |ops|
  {
    if ops == [] then 0
    else (if Releases(s, ops[0], user) then 1 else 0) + ReleaseCount(Apply(s, max, ops[0]), max, ops[1..], user)
  }

  // ----- one step -----

  lemma StepInv(s: State, max: int, op: Op)
    requires Inv(s.t, s.now) && Allowed(s, op)
    ensures Inv(Apply(s, max, op).t, Apply(s, max, op).now)
  {
    hide Inv, Claim, GiveUp, Fresh;
    match op
    case ClaimOp(hold) => ClaimInv(s.t, max, hold, s.now);
    case ReleaseOp(session, user) => GiveUpInv(s.t, session, user, s.now);
    case TickOp(to) => TickInv(s.t, s.now, to);
  }

  lemma ClaimMoves(t: Tables, max: int, hold: Hold, now: int, user: Id)
    requires Tallied(t) && hold.session !in t.sessions
    ensures var (answer, u) := Claim(t, max, hold, now);
            && |u.Slots(user)| == |t.Slots(user)| + (if answer.Ok? && hold.user == user then 1 else 0)
            && (answer.Ok? ==> |t.Slots(hold.user)| < max)
  {
    assert hold.session !in Owned(t.sessions, hold.user);
  }

  lemma ReleaseMoves(t: Tables, session: Id, owner: Id, now: int, user: Id)
    requires Tallied(t)
    ensures var (answer, u) := GiveUp(t, session, owner, now);
            |u.Slots(user)| == |t.Slots(user)| - (if answer.Ok? && owner == user then 1 else 0)
  {
    if GiveUp(t, session, owner, now).0.Ok? {
      assert session in Owned(t.sessions, owner) && t.Slots(owner) == Owned(t.sessions, owner);
    }
  }

  function Bound(max: int): nat { if max > 0 then max else 0 }

  /** A step moves a user's bookkeeping by its own grant or release, never past the limit. */
  lemma StepMoves(s: State, max: int, op: Op, user: Id)
    requires Inv(s.t, s.now) && Allowed(s, op)
    ensures |Apply(s, max, op).t.Slots(user)| ==
            |s.t.Slots(user)| + (if Grants(s, max, op, user) then 1 else 0) - (if Releases(s, op, user) then 1 else 0)
    ensures |s.t.Slots(user)| <= Bound(max) ==> |Apply(s, max, op).t.Slots(user)| <= Bound(max)
  {
    hide Sessions, Matched, Tallied, Claim, GiveUp, Owned;
    match op {
      case ClaimOp(hold) => ClaimMoves(s.t, max, hold, s.now, user);
      case ReleaseOp(session, owner) => ReleaseMoves(s.t, session, owner, s.now, user);
      case TickOp(_) =>
    }
  }

  // ----- runs -----

  /** Over every run the indexes agree, the counter is the number of sessions and the sum of all users' bookkeeping,
      and a user's bookkeeping moves by exactly the holds granted and released and stays within the limit: time
      alone returns no slot. */
  lemma {:induction false} RunConserves(s: State, max: int, ops: seq<Op>, user: Id)
    requires Inv(s.t, s.now) && AllowedRun(s, max, ops)
    ensures var end := ApplyAll(s, max, ops);
            && Inv(end.t, end.now)
            && end.t.size == |end.t.sessions| == TotalSlots(end.t, end.t.users.Keys)
            && |end.t.Slots(user)| == |s.t.Slots(user)| + GrantCount(s, max, ops, user) - ReleaseCount(s, max, ops,
               user)
            && (|s.t.Slots(user)| <= Bound(max) ==> |end.t.Slots(user)| <= Bound(max))
    decreases |ops|
  {
    hide Sessions, Matched, Apply, Allowed, Grants, Releases;
    if ops == [] {
      CounterIsTheSum(s.t);
    } else {
      hide Inv, Tallied;
      StepInv(s, max, ops[0]);
      StepMoves(s, max, ops[0], user);
      RunConserves(Apply(s, max, ops[0]), max, ops[1..], user);
    }
  }

  function LiveOf(t: Tables, now: int, user: Id): set<Id> {
    set x | x in t.sessions && t.Live(x, now) && t.sessions[x].user == user
  }

  /** From the empty store on: bookkeeping is grants minus releases within the limit, the user's live holds are at
      most that, and no seat has two. */
  lemma RunsFromEmpty(now: int, max: int, ops: seq<Op>, user: Id)
    requires AllowedRun(Start(now), max, ops)
    ensures var end := ApplyAll(Start(now), max, ops);
            && |end.t.Slots(user)| == GrantCount(Start(now), max, ops, user) - ReleaseCount(Start(now), max, ops, user)
            && |LiveOf(end.t, end.now, user)| <= |end.t.Slots(user)| <= Bound(max)
            && (forall a, b :: a in LiveHolds(end.t, end.now) && b in LiveHolds(end.t, end.now) && a.Ref() == b.Ref()
                  ==> a == b)
  {
    EmptyInv(now);
    RunConserves(Start(now), max, ops, user);
    var end := ApplyAll(Start(now), max, ops);
    assert LiveOf(end.t, end.now, user) <= Owned(end.t.sessions, user) == end.t.Slots(user);
    Holds.SubsetSize(LiveOf(end.t, end.now, user), end.t.Slots(user));
    hide LiveHolds, AllowedRun, ApplyAll;
    forall a, b | a in LiveHolds(end.t, end.now) && b in LiveHolds(end.t, end.now) && a.Ref() == b.Ref()
        ensures a == b {
      OneLiveHoldPerSeat(end.t, end.now, a, b);
    }
  }

  // ----- every run is a run of the abstract store -----

  type Call = (Holds.Op, Result<()>)

  /** The claims and releases of a run with their answers: here on the tables, below on the abstract store. */
  function Calls(s: State, max: int, ops: seq<Op>): seq<Call>
    decreases |ops|
  {
    if ops == [] then [] else CallOf(s, max, ops[0]) + Calls(Apply(s, max, ops[0]), max, ops[1..])
  }

  function CallOf(s: State, max: int, op: Op): seq<Call> {
    match op
    case ClaimOp(hold) => [(Holds.ClaimOp(hold), Claim(s.t, max, hold, s.now).0)]
    case ReleaseOp(session, user) => [(Holds.ReleaseOp(session, user), GiveUp(s.t, session, user, s.now).0)]
    case TickOp(_) => []
  }

  function AbstractCalls(s: Holds.Store, max: int, ops: seq<Holds.Op>): seq<Call>
    decreases |ops|
  {
    if ops == [] then []
    else
      (if ops[0].ClaimOp? || ops[0].ReleaseOp? then [(ops[0], Holds.Answer(s, max, ops[0]))] else [])
      + AbstractCalls(Holds.Apply(s, max, ops[0]), max, ops[1..])
  }

  lemma {:induction false} RunsJoin(s: Holds.Store, max: int, a: seq<Holds.Op>, b: seq<Holds.Op>)
    ensures Holds.ApplyAll(s, max, a + b) == Holds.ApplyAll(Holds.ApplyAll(s, max, a), max, b)
    ensures AbstractCalls(s, max, a + b) == AbstractCalls(s, max, a) + AbstractCalls(Holds.ApplyAll(s, max, a), max, b)
    decreases |a|
  {
    hide Holds.Apply, Holds.Answer;
    if a == [] {
      assert a + b == b;
    } else {
      assert (a + b)[0] == a[0] && (a + b)[1..] == a[1..] + b;
      RunsJoin(Holds.Apply(s, max, a[0]), max, a[1..], b);
    }
  }

  lemma RunOfOne(s: Holds.Store, max: int, op: Holds.Op)
    ensures Holds.ApplyAll(s, max, [op]) == Holds.Apply(s, max, op)
    ensures AbstractCalls(s, max, [op]) == if op.ClaimOp? || op.ReleaseOp? then [(op, Holds.Answer(s, max, op))] else []
  {
    var ops := [op];
    assert ops[0] == op && ops[1..] == [];
  }

  /** Any set of seat keys and any set of records can vanish, one by one. */
  lemma {:induction false} LoseSeats(s: Holds.Store, max: int, refs: set<SeatRef>) returns (ops: seq<Holds.Op>)
    ensures Holds.ApplyAll(s, max, ops).keys == s.keys.(seats := s.keys.seats - refs)
    ensures AbstractCalls(s, max, ops) == []
    decreases refs
  {
    if refs == {} {
      ops := [];
      assert s.keys.seats - refs == s.keys.seats;
    } else {
      var r :| r in refs;
      var lost := Holds.LoseSeatOp(r);
      RunOfOne(s, max, lost);
      var rest := LoseSeats(Holds.Apply(s, max, lost), max, refs - {r});
      RunsJoin(s, max, [lost], rest);
      ops := [lost] + rest;
      assert s.keys.seats - {r} - (refs - {r}) == s.keys.seats - refs;
    }
  }

  lemma {:induction false} LoseSessions(s: Holds.Store, max: int, xs: set<Id>) returns (ops: seq<Holds.Op>)
    ensures Holds.ApplyAll(s, max, ops).keys == s.keys.(sessions := s.keys.sessions - xs)
    ensures AbstractCalls(s, max, ops) == []
    decreases xs
  {
    if xs == {} {
      ops := [];
      assert s.keys.sessions - xs == s.keys.sessions;
    } else {
      var x :| x in xs;
      var lost := Holds.LoseSessionOp(x);
      RunOfOne(s, max, lost);
      var rest := LoseSessions(Holds.Apply(s, max, lost), max, xs - {x});
      RunsJoin(s, max, [lost], rest);
      ops := [lost] + rest;
      assert s.keys.sessions - {x} - (xs - {x}) == s.keys.sessions - xs;
    }
  }

  /** What an operation on the tables amounts to on the abstract store. */
  ghost predicate Simulates(s: State, max: int, op: Op, abs: Holds.Store, ops: seq<Holds.Op>) {
    && Holds.ApplyAll(abs, max, ops).keys == View(Apply(s, max, op).t, Apply(s, max, op).now)
    && AbstractCalls(abs, max, ops) == CallOf(s, max, op)
  }

  /** Time passing is the loss of what expires. */
  lemma TickSteps(s: State, max: int, to: int, abs: Holds.Store) returns (ops: seq<Holds.Op>)
    requires s.now <= to && abs.keys == View(s.t, s.now)
    ensures Simulates(s, max, TickOp(to), abs, ops)
  {
    hide ViewSeats, ViewSessions;
    TickOnlyLoses(s.t, s.now, to);
    var seats, sessions := ViewSeats(s.t, s.now), ViewSessions(s.t, s.now);
    var a := LoseSeats(abs, max, seats.Keys - ViewSeats(s.t, to).Keys);
    var b := LoseSessions(Holds.ApplyAll(abs, max, a), max, sessions.Keys - ViewSessions(s.t, to).Keys);
    assert seats - (seats.Keys - ViewSeats(s.t, to).Keys) == ViewSeats(s.t, to);
    assert sessions - (sessions.Keys - ViewSessions(s.t, to).Keys) == ViewSessions(s.t, to);
    RunsJoin(abs, max, a, b);
    ops := a + b;
  }

  /** A claim is the abstract claim; if it was granted late, its keys are lost at once. */
  lemma ClaimSteps(s: State, max: int, hold: Hold, abs: Holds.Store) returns (ops: seq<Holds.Op>)
    requires Inv(s.t, s.now) && Allowed(s, ClaimOp(hold)) && abs.keys == View(s.t, s.now)
    ensures Simulates(s, max, ClaimOp(hold), abs, ops)
  {
    hide View, Claim, Sessions, Matched, Tallied, Holds.Granted, Holds.ApplyAll, AbstractCalls;
    ClaimRefines(s.t, max, hold, s.now);
    var claim := Holds.ClaimOp(hold);
    RunOfOne(abs, max, claim);
    ops := [claim];
    if Holds.Claim(abs.keys, max, hold).0.Ok? && hold.expiresAt <= s.now {
      var claimed := Holds.Apply(abs, max, claim);
      var noSeat := Holds.Apply(claimed, max, Holds.LoseSeatOp(hold.Ref()));
      RunOfOne(claimed, max, Holds.LoseSeatOp(hold.Ref()));
      RunOfOne(noSeat, max, Holds.LoseSessionOp(hold.session));
      RunsJoin(claimed, max, [Holds.LoseSeatOp(hold.Ref())], [Holds.LoseSessionOp(hold.session)]);
      RunsJoin(abs, max, ops, [Holds.LoseSeatOp(hold.Ref())] + [Holds.LoseSessionOp(hold.session)]);
      ops := ops + ([Holds.LoseSeatOp(hold.Ref())] + [Holds.LoseSessionOp(hold.session)]);
    }
  }

  lemma ReleaseSteps(s: State, max: int, session: Id, user: Id, abs: Holds.Store) returns (ops: seq<Holds.Op>)
    requires Inv(s.t, s.now) && abs.keys == View(s.t, s.now)
    ensures Simulates(s, max, ReleaseOp(session, user), abs, ops)
  {
    hide View, GiveUp, Inv, Holds.Dropped;
    GiveUpRefines(s.t, session, user, s.now);
    ops := [Holds.ReleaseOp(session, user)];
    RunOfOne(abs, max, ops[0]);
  }

  /** Whatever a run of the tables does, the abstract store can do with the same claims and releases, answered alike,
      and keys vanishing in between: what the tables show at the end is what it holds. */
  lemma {:induction false} RunRefines(s: State, max: int, ops: seq<Op>, abs: Holds.Store) returns (steps: seq<Holds.Op>)
    requires Inv(s.t, s.now) && AllowedRun(s, max, ops) && abs.keys == View(s.t, s.now)
    ensures var end := ApplyAll(s, max, ops); Holds.ApplyAll(abs, max, steps).keys == View(end.t, end.now)
    ensures AbstractCalls(abs, max, steps) == Calls(s, max, ops)
    decreases |ops|
  {
    hide View, Inv, Claim, GiveUp, CallOf;
    if ops == [] {
      steps := [];
    } else {
      var first: seq<Holds.Op>;
      match ops[0] {
        case ClaimOp(hold) => first := ClaimSteps(s, max, hold, abs);
        case ReleaseOp(session, user) => first := ReleaseSteps(s, max, session, user, abs);
        case TickOp(to) => first := TickSteps(s, max, to, abs);
      }
      hide Allowed;
      StepInv(s, max, ops[0]);
      var rest := RunRefines(Apply(s, max, ops[0]), max, ops[1..], Holds.ApplyAll(abs, max, first));
      RunsJoin(abs, max, first, rest);
      steps := first + rest;
    }
  }
}
