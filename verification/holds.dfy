/** The hold store as the use cases see it: seat keys carrying tokens, session records and per-user
    bookkeeping, of which any seat key and any session record may vanish at any moment. The record of what
    was granted and released is kept beside them. */
module Holds {
  import opened Domain

  datatype Keys = Keys(seats: map<SeatRef, Id>, sessions: map<Id, Hold>, slots: map<Id, set<Id>>) {
    function Slots(user: Id): set<Id> { SlotsOf(slots, user) }
  }

  function SlotsOf(slots: map<Id, set<Id>>, user: Id): set<Id> {
    if user in slots then slots[user] else {}
  }

  /** The keys once the hold is written to all three indexes. */
  function Granted(keys: Keys, hold: Hold): Keys {
    Keys(keys.seats[hold.Ref() := hold.token], keys.sessions[hold.session := hold],
         keys.slots[hold.user := keys.Slots(hold.user) + {hold.session}])
  }

  /** One atomic claim: the limit first, then the seat; a granted claim writes all three indexes. */
  function Claim(keys: Keys, max: int, hold: Hold): (Result<()>, Keys) {
    if |keys.Slots(hold.user)| >= max then (Err(HoldLimitExceeded), keys)
    else if hold.Ref() in keys.seats then (Err(SeatAlreadyHeld), keys)
    else (Ok(()), Granted(keys, hold))
  }

  /** The keys once the hold is taken out; its seat key goes only if it still carries its token. */
  function Dropped(keys: Keys, session: Id, hold: Hold): Keys {
    Keys(if hold.Ref() in keys.seats &&
        keys.seats[hold.Ref()] == hold.token then keys.seats - {hold.Ref()} else keys.seats,
         keys.sessions - {session},
         keys.slots[hold.user := keys.Slots(hold.user) - {session}])
  }

  /** One atomic release: ownership check, then compare-and-delete of the seat key on the token. */
  function Release(keys: Keys, session: Id, user: Id): (Result<()>, Keys) {
    if session !in keys.sessions then (Err(HoldNotFound), keys)
    else if keys.sessions[session].user != user then (Err(NotHoldOwner), keys)
    else (Ok(()), Dropped(keys, session, keys.sessions[session]))
  }

  function Get(keys: Keys, session: Id): Result<Hold> {
    if session in keys.sessions then Ok(keys.sessions[session]) else Err(HoldNotFound)
  }

  /** A hold as Redis reads it back: its expiry stored as a whole Unix second. */
  function WholeSecond(hold: Hold): Hold { hold.(expiresAt := hold.expiresAt / SECOND * SECOND) }

  function LoseSeat(keys: Keys, ref: SeatRef): Keys { keys.(seats := keys.seats - {ref}) }

  function LoseSession(keys: Keys, session: Id): Keys { keys.(sessions := keys.sessions - {session}) }

  // ----- the store with its record -----

  /** granted: every hold ever granted, by session; last: the latest hold granted for a seat;
      released: the sessions given up by a successful release. */
  datatype Store = Store(keys: Keys, granted: map<Id, Hold>, last: map<SeatRef, Hold>, released: set<Id>)

  function Empty(): Store { Store(Keys(map[], map[], map[]), map[], map[], {}) }

  datatype Op =
    | ClaimOp(hold: Hold)
    | ReleaseOp(session: Id, user: Id)
    | LoseSeatOp(ref: SeatRef)
    | LoseSessionOp(session: Id)

  function Answer(s: Store, max: int, op: Op): Result<()> {
    match op
    case ClaimOp(hold) => Claim(s.keys, max, hold).0
    case ReleaseOp(session, user) => Release(s.keys, session, user).0
    case _ => Ok(())
  }

  function Apply(s: Store, max: int, op: Op): Store {
    match op
    case ClaimOp(hold) =>
      var (answer, keys) := Claim(s.keys, max, hold);
      if answer.Ok? then Store(keys, s.granted[hold.session := hold], s.last[hold.Ref() := hold], s.released) else s
    case ReleaseOp(session, user) =>
      var (answer, keys) := Release(s.keys, session, user);
      if answer.Ok? then s.(keys := keys, released := s.released + {session}) else s
    case LoseSeatOp(ref) => s.(keys := LoseSeat(s.keys, ref))
    case LoseSessionOp(session) => s.(keys := LoseSession(s.keys, session))
  }

  /** Session IDs and tokens are minted anew for each hold. */
  ghost predicate FreshOp(s: Store, op: Op) {
    op.ClaimOp? ==>
      op.hold.session !in s.granted && (forall x :: x in s.granted ==> s.granted[x].token != op.hold.token)
  }

  function Grants(s: Store, user: Id): set<Id> {
    set x | x in s.granted && s.granted[x].user == user
  }

  /** Sessions and tokens name one granted hold each. */
  ghost predicate Named(s: Store) {
    && (forall x :: x in s.granted ==> s.granted[x].session == x)
    && (forall x, y :: x in s.granted && y in s.granted && s.granted[x].token == s.granted[y].token ==> x == y)
    && (forall x :: x in s.released ==> x in s.granted)
  }

  /** A session record is the hold granted to it; a seat key carries the token of the latest hold granted
      for the seat; neither survives its release. */
  ghost predicate Sourced(s: Store) {
    && (forall x :: x in s.keys.sessions ==> x in s.granted && s.granted[x] == s.keys.sessions[x] && x !in s.released)
    && (forall r :: r in s.last ==>
          s.last[r].session in s.granted && s.granted[s.last[r].session] == s.last[r] && s.last[r].Ref() == r)
    && (forall r :: r in s.keys.seats ==>
          r in s.last && s.keys.seats[r] == s.last[r].token && s.last[r].session !in s.released)
  }

  /** A user's bookkeeping is the user's granted and unreleased sessions, within the limit. */
  ghost predicate Counted(s: Store, max: int) {
    && (forall u :: s.keys.Slots(u) == Grants(s, u) - s.released)
    && (forall u :: |s.keys.Slots(u)| <= if max > 0 then max else 0)
  }

  ghost predicate Inv(s: Store, max: int) { Named(s) && Sourced(s) && Counted(s, max) }

  lemma EmptyInv(max: int)
    ensures Inv(Empty(), max)
  {
  }

  lemma ClaimSlots(s: Store, max: int, hold: Hold, u: Id)
    requires Claim(s.keys, max, hold).0.Ok?
    ensures var t := Apply(s, max, ClaimOp(hold));
            && t.keys.Slots(u) == (if u == hold.user then s.keys.Slots(u) + {hold.session} else s.keys.Slots(u))
            && (hold.session !in s.granted ==>
                  Grants(t, u) == if u == hold.user then Grants(s, u) + {hold.session} else Grants(s, u))
  {
  }

  lemma ClaimCountedFor(s: Store, max: int, hold: Hold, u: Id)
    requires Claim(s.keys, max, hold).0.Ok? && hold.session !in s.granted && hold.session !in s.released
    requires s.keys.Slots(u) == Grants(s, u) - s.released && |s.keys.Slots(u)| <= if max > 0 then max else 0
    ensures var t := Apply(s, max, ClaimOp(hold));
            t.keys.Slots(u) == Grants(t, u) - t.released && |t.keys.Slots(u)| <= if max > 0 then max else 0
  {
    ClaimSlots(s, max, hold, u);
  }

  lemma ClaimCounted(s: Store, max: int, hold: Hold)
    requires Counted(s, max) && hold.session !in s.granted && hold.session !in s.released
    ensures Counted(Apply(s, max, ClaimOp(hold)), max)
  {
    if Claim(s.keys, max, hold).0.Ok? {
      var t := Apply(s, max, ClaimOp(hold));
      forall u ensures t.keys.Slots(u) == Grants(t, u) - t.released && |t.keys.Slots(u)| <= if max > 0 then max else 0 {
        ClaimCountedFor(s, max, hold, u);
      }
    }
  }

  lemma ClaimNamed(s: Store, max: int, hold: Hold)
    requires Named(s) && FreshOp(s, ClaimOp(hold))
    ensures Named(Apply(s, max, ClaimOp(hold)))
  {
  }

  lemma ClaimSourced(s: Store, max: int, hold: Hold)
    requires Named(s) && Sourced(s) && FreshOp(s, ClaimOp(hold))
    ensures Sourced(Apply(s, max, ClaimOp(hold)))
  {
  }

  lemma ClaimInv(s: Store, max: int, hold: Hold)
    requires Inv(s, max) && FreshOp(s, ClaimOp(hold))
    ensures Inv(Apply(s, max, ClaimOp(hold)), max)
  {
    ClaimNamed(s, max, hold);
    ClaimSourced(s, max, hold);
    ClaimCounted(s, max, hold);
  }

  lemma ReleaseSlots(s: Store, max: int, session: Id, user: Id, u: Id)
    requires Release(s.keys, session, user).0.Ok?
    ensures var t := Apply(s, max, ReleaseOp(session, user));
            && t.keys.Slots(u) == (if u == user then s.keys.Slots(u) - {session} else s.keys.Slots(u))
            && Grants(t, u) == Grants(s, u)
            && |t.keys.Slots(u)| <= |s.keys.Slots(u)|
  {
    var t := Apply(s, max, ReleaseOp(session, user));
    assert t.keys.Slots(u) <= s.keys.Slots(u);
    SubsetSize(t.keys.Slots(u), s.keys.Slots(u));
  }

  lemma ReleaseCounted(s: Store, max: int, session: Id, user: Id)
    requires Counted(s, max) && Sourced(s)
    ensures Counted(Apply(s, max, ReleaseOp(session, user)), max)
  {
    var t := Apply(s, max, ReleaseOp(session, user));
    if Release(s.keys, session, user).0.Ok? {
      forall u ensures t.keys.Slots(u) == Grants(t, u) - t.released && |t.keys.Slots(u)| <= |s.keys.Slots(u)| {
        ReleaseSlots(s, max, session, user, u);
        assert session in Grants(s, u) ==> u == user;
      }
    }
  }

  lemma ReleaseSourced(s: Store, max: int, session: Id, user: Id)
    requires Sourced(s)
    ensures Sourced(Apply(s, max, ReleaseOp(session, user)))
  {
    var t := Apply(s, max, ReleaseOp(session, user));
    if Release(s.keys, session, user).0.Ok? {
      var hold := s.keys.sessions[session];
      forall r | r in s.keys.seats && s.last[r].session == session
          ensures r == hold.Ref() && s.keys.seats[r] == hold.token {
        assert s.last[r] == hold;
      }
    }
  }

  lemma ReleaseInv(s: Store, max: int, session: Id, user: Id)
    requires Inv(s, max)
    ensures Inv(Apply(s, max, ReleaseOp(session, user)), max)
  {
    assert Named(Apply(s, max, ReleaseOp(session, user)));
    ReleaseSourced(s, max, session, user);
    ReleaseCounted(s, max, session, user);
  }

  lemma LossInv(s: Store, max: int, op: Op)
    requires Inv(s, max) && (op.LoseSeatOp? || op.LoseSessionOp?)
    ensures Inv(Apply(s, max, op), max)
  {
    var t := Apply(s, max, op);
    assert forall u :: t.keys.Slots(u) == s.keys.Slots(u) && Grants(t, u) == Grants(s, u);
  }

  lemma ApplyInv(s: Store, max: int, op: Op)
    requires Inv(s, max) && FreshOp(s, op)
    ensures Inv(Apply(s, max, op), max)
  {
    match op
    case ClaimOp(hold) => ClaimInv(s, max, hold);
    case ReleaseOp(session, user) => ReleaseInv(s, max, session, user);
    case _ => LossInv(s, max, op);
  }

  /** Only a granted claim adds to what was granted, and only its own session. */
  lemma GrantedBy(s: Store, max: int, op: Op)
    ensures var t := Apply(s, max, op);
            t.granted == if op.ClaimOp? &&
                Answer(s, max, op).Ok? then s.granted[op.hold.session := op.hold] else s.granted
  {
  }

  /** Whether the operation may take away or rewrite the seat key r: it vanishes, or the very hold that the
      key belongs to is released by its owner. */
  predicate MayChangeSeat(s: Store, op: Op, r: SeatRef) {
    op == LoseSeatOp(r) ||
    (op.ReleaseOp? && r in s.last && s.last[r].session == op.session && s.last[r].user == op.user)
  }

  /** Likewise for the record of session x. */
  predicate MayChangeSession(s: Store, op: Op, x: Id) {
    op == LoseSessionOp(x) || (op.ReleaseOp? && op.session == x && x in s.granted && s.granted[x].user == op.user)
  }

  lemma TokenNamesSession(s: Store, x: Id, y: Id)
    requires Named(s) && x in s.granted && y in s.granted
    ensures s.granted[x].token == s.granted[y].token ==> x == y
  {
  }

  /** Keys vanish and holds end in any order, yet a seat key is only ever taken away by vanishing itself or
      by its own hold's release: neither a claim nor a release, however late, disturbs another hold's key. */
  lemma OnlyOwnSeatChanges(s: Store, max: int, op: Op, r: SeatRef)
    requires Named(s) && Sourced(s) && r in s.keys.seats && !MayChangeSeat(s, op, r)
    ensures var t := Apply(s, max, op); r in t.keys.seats && t.keys.seats[r] == s.keys.seats[r]
  {
    hide SlotsOf, Grants;
    if op.ReleaseOp? && op.session in s.keys.sessions {
      TokenNamesSession(s, s.last[r].session, op.session);
    }
  }

  /** Likewise, a session record that an operation may not touch stays as it is. */
  lemma OnlyOwnSessionChanges(s: Store, max: int, op: Op, x: Id)
    requires Named(s) && Sourced(s) && FreshOp(s, op) && x in s.keys.sessions && !MayChangeSession(s, op, x)
    ensures var t := Apply(s, max, op); x in t.keys.sessions && t.keys.sessions[x] == s.keys.sessions[x]
  {
  }

  // ----- runs -----

  function ApplyAll(s: Store, max: int, ops: seq<Op>): Store
    decreases |ops|
  {
    if ops == [] then s else ApplyAll(Apply(s, max, ops[0]), max, ops[1..])
  }

  ghost predicate FreshRun(s: Store, max: int, ops: seq<Op>)
    decreases |ops|
  {
    ops == [] || (FreshOp(s, ops[0]) && FreshRun(Apply(s, max, ops[0]), max, ops[1..]))
  }

  /** How many claims of a user a run grants. */
  function GrantCount(s: Store, max: int, ops: seq<Op>, user: Id): nat
    decreases |ops|
  {
    if ops == [] then 0
    else (if ops[0].ClaimOp? && ops[0].hold.user == user && Answer(s, max, ops[0]).Ok? then 1 else 0)
         + GrantCount(Apply(s, max, ops[0]), max, ops[1..], user)
  }

  /** How many of a user's holds a run releases. */
  function ReleaseCount(s: Store, max: int, ops: seq<Op>, user: Id): nat
    decreases |ops|
  {
    if ops == [] then 0
    else (if ops[0].ReleaseOp? && ops[0].user == user && Answer(s, max, ops[0]).Ok? then 1 else 0)
         + ReleaseCount(Apply(s, max, ops[0]), max, ops[1..], user)
  }

  lemma ClaimMoves(s: Store, max: int, hold: Hold, user: Id)
    requires Counted(s, max) && hold.session !in s.granted && Claim(s.keys, max, hold).0.Ok?
    ensures |Apply(s, max, ClaimOp(hold)).keys.Slots(user)| == |s.keys.Slots(user)| + if hold.user == user then 1 else 0
  {
    ClaimSlots(s, max, hold, user);
    assert hold.session !in Grants(s, user);
  }

  lemma ReleaseMoves(s: Store, max: int, session: Id, owner: Id, user: Id)
    requires Sourced(s) && Counted(s, max) && Release(s.keys, session, owner).0.Ok?
    ensures |Apply(s, max,
      ReleaseOp(session, owner)).keys.Slots(user)| == |s.keys.Slots(user)| - if owner == user then 1 else 0
  {
    ReleaseSlots(s, max, session, owner, user);
    assert session in Grants(s, owner) - s.released;
  }

  lemma SlotMoves(s: Store, max: int, op: Op, user: Id)
    requires Inv(s, max) && FreshOp(s, op)
    ensures |Apply(s, max, op).keys.Slots(user)| == |s.keys.Slots(user)|
            + (if op.ClaimOp? && op.hold.user == user && Answer(s, max, op).Ok? then 1 else 0)
            - (if op.ReleaseOp? && op.user == user && Answer(s, max, op).Ok? then 1 else 0)
  {
    hide Named, Sourced, Counted, Granted, Dropped;
    match op {
      case ClaimOp(hold) =>
        if Claim(s.keys, max, hold).0.Ok? {
          ClaimMoves(s, max, hold, user);
        }
      case ReleaseOp(session, owner) =>
        if Release(s.keys, session, owner).0.Ok? {
          ReleaseMoves(s, max, session, owner, user);
        }
      case _ =>
    }
  }

  /** Over every run a user's bookkeeping grows by exactly the holds granted and shrinks by exactly the holds
      released: keys that vanish return no slot. It never exceeds the limit, and neither do the sessions that
      still exist. */
  lemma {:induction false} SlotsConserved(s: Store, max: int, ops: seq<Op>, user: Id)
    requires Inv(s, max) && FreshRun(s, max, ops)
    ensures var t := ApplyAll(s, max, ops);
            && Inv(t, max)
            && |t.keys.Slots(user)| == |s.keys.Slots(user)| + GrantCount(s, max, ops, user) - ReleaseCount(s, max, ops,
               user)
            && |t.keys.Slots(user)| <= (if max > 0 then max else 0)
            && |set x | x in t.keys.sessions && t.keys.sessions[x].user == user| <= |t.keys.Slots(user)|
    decreases |ops|
  {
    if ops == [] {
      var mine := set x | x in s.keys.sessions && s.keys.sessions[x].user == user;
      assert mine <= s.keys.Slots(user);
      SubsetSize(mine, s.keys.Slots(user));
    } else {
      ApplyInv(s, max, ops[0]);
      SlotMoves(s, max, ops[0], user);
      SlotsConserved(Apply(s, max, ops[0]), max, ops[1..], user);
    }
  }

  // ----- what a granted hold is good for -----

  /** The operation may end the hold's claim on its seat: the seat key vanishes, or the owner releases the hold. */
  predicate Ends(op: Op, hold: Hold) { op == LoseSeatOp(hold.Ref()) || op == ReleaseOp(hold.session, hold.user) }

  /** The operation may end the hold's record. */
  predicate Forgets(op: Op, hold: Hold) {
    op == LoseSessionOp(hold.session) || op == ReleaseOp(hold.session, hold.user)
  }

  /** The seat key is there and belongs to this hold. */
  ghost predicate Guards(s: Store, hold: Hold) {
    hold.Ref() in s.keys.seats && hold.Ref() in s.last && s.last[hold.Ref()] == hold
  }

  lemma LastStays(s: Store, max: int, op: Op, r: SeatRef)
    requires r in s.keys.seats && r in s.last
    ensures var t := Apply(s, max, op); r in t.last && t.last[r] == s.last[r]
  {
    hide Granted, Dropped;
  }

  lemma GuardsStep(s: Store, max: int, op: Op, hold: Hold)
    requires Inv(s, max) && Guards(s, hold) && !Ends(op, hold)
    ensures Guards(Apply(s, max, op), hold)
  {
    hide Counted, Apply;
    OnlyOwnSeatChanges(s, max, op, hold.Ref());
    LastStays(s, max, op, hold.Ref());
  }

  lemma {:induction false} GuardsOn(s: Store, max: int, hold: Hold, ops: seq<Op>)
    requires Inv(s, max) && Guards(s, hold) && FreshRun(s, max, ops)
    requires forall op :: op in ops ==> !Ends(op, hold)
    ensures Inv(ApplyAll(s, max, ops), max) && Guards(ApplyAll(s, max, ops), hold)
    decreases |ops|
  {
    hide Inv, FreshOp, Apply, Guards, Ends;
    if ops != [] {
      assert ops[0] in ops && forall op :: op in ops[1..] ==> op in ops;
      ApplyInv(s, max, ops[0]);
      GuardsStep(s, max, ops[0], hold);
      GuardsOn(Apply(s, max, ops[0]), max, hold, ops[1..]);
    }
  }

  lemma GrantGuards(s: Store, max: int, hold: Hold)
    requires Answer(s, max, ClaimOp(hold)).Ok?
    ensures var t := Apply(s, max, ClaimOp(hold));
            && Guards(t, hold) && hold.session in t.keys.sessions && t.keys.sessions[hold.session] == hold
  {
  }

  /** A granted hold keeps its seat from everybody: until its key vanishes or its owner releases it, whatever else
      happens, the key carries its token and every claim on the seat is refused, by the limit or as already held. */
  lemma HoldExcludes(s: Store, max: int, hold: Hold, ops: seq<Op>, other: Hold)
    requires Inv(s, max) && FreshOp(s, ClaimOp(hold)) && Answer(s, max, ClaimOp(hold)).Ok?
    requires FreshRun(Apply(s, max, ClaimOp(hold)), max, ops) && (forall op :: op in ops ==> !Ends(op, hold))
    requires other.Ref() == hold.Ref()
    ensures var end := ApplyAll(Apply(s, max, ClaimOp(hold)), max, ops);
            && hold.Ref() in end.keys.seats && end.keys.seats[hold.Ref()] == hold.token
            && Answer(end, max, ClaimOp(other)) ==
               Err(if |end.keys.Slots(other.user)| >= max then HoldLimitExceeded else SeatAlreadyHeld)
  {
    var born := Apply(s, max, ClaimOp(hold));
    GrantGuards(s, max, hold);
    ApplyInv(s, max, ClaimOp(hold));
    GuardsOn(born, max, hold, ops);
    assert Sourced(ApplyAll(born, max, ops));
    hide Apply, ApplyAll, FreshRun;
  }

  lemma {:induction false} RecordOn(s: Store, max: int, hold: Hold, ops: seq<Op>)
    requires Inv(s, max) && hold.session in s.keys.sessions && s.keys.sessions[hold.session] == hold
    requires FreshRun(s, max, ops) && forall op :: op in ops ==> !Forgets(op, hold)
    ensures var end := ApplyAll(s, max, ops);
            Inv(end, max) && hold.session in end.keys.sessions && end.keys.sessions[hold.session] == hold
    decreases |ops|
  {
    hide Counted, FreshOp, Apply;
    if ops != [] {
      assert ops[0] in ops && forall op :: op in ops[1..] ==> op in ops;
      ApplyInv(s, max, ops[0]);
      OnlyOwnSessionChanges(s, max, ops[0], hold.session);
      RecordOn(Apply(s, max, ops[0]), max, hold, ops[1..]);
    }
  }

  /** The hold is gone from record and bookkeeping, its seat key is gone unless it carries another token, and nothing
      else has changed. */
  ghost predicate GivesBack(before: Keys, after: Keys, hold: Hold) {
    && after.sessions == before.sessions - {hold.session}
    && after.seats == (if hold.Ref() in before.seats && before.seats[hold.Ref()] == hold.token
                       then before.seats - {hold.Ref()} else before.seats)
    && forall u :: after.Slots(u) == if u == hold.user then before.Slots(u) - {hold.session} else before.Slots(u)
  }

  /** A release, case by case. */
  lemma ReleaseDecides(keys: Keys, session: Id, user: Id)
    ensures var (answer, after) := Release(keys, session, user);
            if session !in keys.sessions then answer == Err(HoldNotFound) && after == keys
            else if keys.sessions[session].user != user then answer == Err(NotHoldOwner) && after == keys
            else
              answer == Ok(()) &&
              (keys.sessions[session].session == session ==> GivesBack(keys, after, keys.sessions[session]))
  {
  }

  /** Until its record vanishes or its owner releases it, a granted hold reads back as granted, only its owner can
      release it, and the release gives back record, slot and seat, unless the seat has a later hold by then. */
  lemma HoldIsServed(s: Store, max: int, hold: Hold, ops: seq<Op>, user: Id)
    requires Inv(s, max) && FreshOp(s, ClaimOp(hold)) && Answer(s, max, ClaimOp(hold)).Ok?
    requires FreshRun(Apply(s, max, ClaimOp(hold)), max, ops) && (forall op :: op in ops ==> !Forgets(op, hold))
    ensures var end := ApplyAll(Apply(s, max, ClaimOp(hold)), max, ops);
            var release := ReleaseOp(hold.session, user);
            && Get(end.keys, hold.session) == Ok(hold)
            && Answer(end, max, release) == (if user == hold.user then Ok(()) else Err(NotHoldOwner))
            && (user != hold.user ==> Apply(end, max, release) == end)
            && (user == hold.user ==> GivesBack(end.keys, Apply(end, max, release).keys, hold))
  {
    var born := Apply(s, max, ClaimOp(hold));
    GrantGuards(s, max, hold);
    ApplyInv(s, max, ClaimOp(hold));
    RecordOn(born, max, hold, ops);
    hide Inv, FreshRun, ApplyAll, Granted, Dropped, GivesBack;
    ReleaseDecides(ApplyAll(born, max, ops).keys, hold.session, user);
  }

  // ----- slots that never come back -----

  /** The session holds a slot of the user and has no record any more: nothing can release it. */
  predicate LostSlot(s: Store, user: Id, x: Id) { x in s.keys.Slots(user) && x !in s.keys.sessions }

  /** How an operation moves the bookkeeping of a user, session by session. */
  lemma SlotsAfter(s: Store, max: int, op: Op, user: Id)
    ensures var ok, after := Answer(s, max, op).Ok?, Apply(s, max, op).keys.Slots(user);
            after == if op.ClaimOp? && ok && op.hold.user == user then s.keys.Slots(user) + {op.hold.session}
                     else if op.ReleaseOp? && ok && op.user == user then s.keys.Slots(user) - {op.session}
                     else s.keys.Slots(user)
  {
    match op
    case ClaimOp(hold) => if Claim(s.keys, max, hold).0.Ok? { ClaimSlots(s, max, hold, user); }
    case ReleaseOp(session, owner) => if Release(s.keys, session,
        owner).0.Ok? { ReleaseSlots(s, max, session, owner, user); }
    case _ =>
  }

  /** Records are only ever added by a granted claim, and a release needs one. */
  lemma RecordsAfter(s: Store, max: int, op: Op, x: Id)
    requires x in Apply(s, max, op).keys.sessions && x !in s.keys.sessions
    ensures op.ClaimOp? && Answer(s, max, op).Ok? && op.hold.session == x
  {
  }

  lemma ReleaseNeedsRecord(s: Store, max: int, op: Op)
    requires op.ReleaseOp? && Answer(s, max, op).Ok?
    ensures op.session in s.keys.sessions
  {
  }

  lemma LostSlotStep(s: Store, max: int, op: Op, user: Id, x: Id)
    requires Counted(s, max) && FreshOp(s, op) && LostSlot(s, user, x)
    ensures LostSlot(Apply(s, max, op), user, x)
  {
    assert x in Grants(s, user);
    hide Apply, Answer, Counted;
    SlotsAfter(s, max, op, user);
    if op.ReleaseOp? && Answer(s, max, op).Ok? {
      ReleaseNeedsRecord(s, max, op);
    }
    if x in Apply(s, max, op).keys.sessions {
      RecordsAfter(s, max, op, x);
    }
  }

  /** Once a session's record has vanished unreleased, its slot stays taken in every continuation. */
  lemma {:induction false} LostSlotStays(s: Store, max: int, ops: seq<Op>, user: Id, x: Id)
    requires Inv(s, max) && FreshRun(s, max, ops) && LostSlot(s, user, x)
    ensures LostSlot(ApplyAll(s, max, ops), user, x)
    decreases |ops|
  {
    hide Named, Sourced, Counted, FreshOp, Apply, LostSlot;
    if ops != [] {
      LostSlotStep(s, max, ops[0], user, x);
      ApplyInv(s, max, ops[0]);
      LostSlotStays(Apply(s, max, ops[0]), max, ops[1..], user, x);
    }
  }

  /** Every slot of the user is lost, and they reach the limit. */
  ghost predicate LockedOut(s: Store, max: int, user: Id) {
    |s.keys.Slots(user)| >= max && forall x :: x in s.keys.Slots(user) ==> LostSlot(s, user, x)
  }

  lemma LimitRefuses(s: Store, max: int, op: Op, user: Id)
    requires |s.keys.Slots(user)| >= max
    ensures op.ClaimOp? && op.hold.user == user ==> Answer(s, max, op) == Err(HoldLimitExceeded)
  {
  }

  lemma LockedOutStep(s: Store, max: int, op: Op, user: Id)
    requires Counted(s, max) && FreshOp(s, op) && LockedOut(s, max, user)
    ensures !(op.ClaimOp? && op.hold.user == user && Answer(s, max, op).Ok?)
    ensures LockedOut(Apply(s, max, op), max, user)
  {
    hide Apply, Answer, Counted, Grants;
    LimitRefuses(s, max, op, user);
    SlotsAfter(s, max, op, user);
    var t := Apply(s, max, op);
    if op.ReleaseOp? && Answer(s, max, op).Ok? {
      ReleaseNeedsRecord(s, max, op);
      assert op.session !in s.keys.Slots(user);
    }
    assert t.keys.Slots(user) == s.keys.Slots(user);
    forall x | x in t.keys.Slots(user) ensures LostSlot(t, user, x) {
      LostSlotStep(s, max, op, user, x);
    }
  }

  /** Such a user is never granted a hold again, in any continuation. */
  lemma {:induction false} LockedOutForGood(s: Store, max: int, ops: seq<Op>, user: Id)
    requires Inv(s, max) && FreshRun(s, max, ops) && LockedOut(s, max, user)
    ensures GrantCount(s, max, ops, user) == 0 && LockedOut(ApplyAll(s, max, ops), max, user)
    decreases |ops|
  {
    hide Named, Sourced, Counted, FreshOp, Apply, LockedOut, Answer;
    if ops != [] {
      LockedOutStep(s, max, ops[0], user);
      ApplyInv(s, max, ops[0]);
      LockedOutForGood(Apply(s, max, ops[0]), max, ops[1..], user);
    }
  }

  /** It happens: with a limit of one, a granted hold whose seat key and record run out of time locks its user out,
      although no key of any hold is left. */
  lemma OneLostHoldLocksOut(hold: Hold, next: Hold)
    requires next.user == hold.user && next.session != hold.session && next.token != hold.token
    ensures var ops := [ClaimOp(hold), LoseSeatOp(hold.Ref()), LoseSessionOp(hold.session)];
            var s := ApplyAll(Empty(), 1, ops);
            && FreshRun(Empty(), 1, ops) && GrantCount(Empty(), 1, ops, hold.user) == 1
            && s.keys.seats == map[] && s.keys.sessions == map[]
            && LockedOut(s, 1, hold.user) && Claim(s.keys, 1, next).0 == Err(HoldLimitExceeded)
  {
    var a, b, c := ClaimOp(hold), LoseSeatOp(hold.Ref()), LoseSessionOp(hold.session);
    var s1 := Apply(Empty(), 1, a);
    var s2 := Apply(s1, 1, b);
    var s3 := Apply(s2, 1, c);
    assert s1.keys.Slots(hold.user) == {hold.session} == s3.keys.Slots(hold.user);
    assert s3.keys.seats == map[] && s3.keys.sessions == map[];
    RunOfThree(Empty(), 1, a, b, c, hold.user);
  }

  lemma RunOfThree(s: Store, max: int, a: Op, b: Op, c: Op, user: Id)
    requires a.ClaimOp? && a.hold.user == user && !b.ClaimOp? && !c.ClaimOp? && FreshOp(s, a)
    ensures var ops := [a, b, c];
            && ApplyAll(s, max, ops) == Apply(Apply(Apply(s, max, a), max, b), max, c)
            && FreshRun(s, max, ops) && GrantCount(s, max, ops, user) == if Answer(s, max, a).Ok? then 1 else 0
  {
    hide Apply, Answer;
    var ops := [a, b, c];
    var s1 := Apply(s, max, a);
    var s2 := Apply(s1, max, b);
    assert ops[1..] == [b, c] && [b, c][1..] == [c] && [c][1..] == [];
    assert ApplyAll(s2, max, [c]) == Apply(s2, max, c) && GrantCount(s2, max, [c], user) == 0 && FreshRun(s2, max, [c]);
    assert GrantCount(s1, max, [b, c], user) == 0 && FreshRun(s1, max, [b, c]);
  }

  lemma {:induction false} SubsetSize<T>(a: set<T>, b: set<T>)
    requires a <= b
    ensures |a| <= |b|
  {
    assert b == a + (b - a);
  }
}
