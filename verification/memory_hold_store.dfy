/** The in-memory hold store: a seat index, a session index, per-user bookkeeping and a counter, with silent
    expiry. The tables refine a plain set of live holds, and the abstract hold store of module Holds. */
module MemoryHoldStores {
  import opened Domain
  import opened SeatKeys
  import Holds

  datatype SeatEntry = SeatEntry(token: Id, expiresAt: int)

  datatype Tables = Tables(seats: map<string, SeatEntry>, sessions: map<Id, Hold>,
                           users: map<Id, set<Id>>, size: int)
  {
    function Slots(user: Id): set<Id> {
      if user in users then users[user] else {}
    }

    predicate Guards(key: string, now: int) { key in seats && now < seats[key].expiresAt }

    predicate Live(session: Id, now: int) { session in sessions && now < sessions[session].expiresAt }
  }

  function KeyOf(hold: Hold): string { SeatKey(hold.screening, hold.seat) }

  class HoldStore {
    const maxHolds: int
    var seats: map<string, SeatEntry>
    var sessions: map<Id, Hold>
    var userHolds: map<Id, set<Id>>
    var globalSize: int

    function Value(): Tables
      reads this
    {
      Tables(seats, sessions, userHolds, globalSize)
    }

    constructor (maxHolds: int)
      ensures this.maxHolds == maxHolds && Value() == Tables(map[], map[], map[], 0)
    {
      this.maxHolds := maxHolds;
      seats, sessions, userHolds, globalSize := map[], map[], map[], 0;
    }

    method Hold(hold: Hold, now: int) returns (r: Result<()>)
      modifies this
      ensures (r, Value()) == Claim(old(Value()), maxHolds, hold, now)
    {
      var mine := if hold.user in userHolds then userHolds[hold.user] else {};
      if |mine| >= maxHolds {
        return Err(HoldLimitExceeded);
      }
      var key := SeatKey(hold.screening, hold.seat);
      if key in seats && now < seats[key].expiresAt {
        return Err(SeatAlreadyHeld);
      }
      seats := seats[key := SeatEntry(hold.token, hold.expiresAt)];
      sessions := sessions[hold.session := hold];
      userHolds := userHolds[hold.user := mine + {hold.session}];
      globalSize := globalSize + 1;
      r := Ok(());
    }

    method Release(session: Id, user: Id, now: int) returns (r: Result<()>)
      modifies this
      ensures (r, Value()) == GiveUp(old(Value()), session, user, now)
    {
      if session !in sessions || !(now < sessions[session].expiresAt) {
        return Err(HoldNotFound);
      }
      var hold := sessions[session];
      if hold.user != user {
        return Err(NotHoldOwner);
      }
      var key := SeatKey(hold.screening, hold.seat);
      if key in seats && seats[key].token == hold.token {
        seats := seats - {key};
      }
      sessions := sessions - {session};
      if user in userHolds {
        userHolds := userHolds[user := userHolds[user] - {session}];
      }
      globalSize := globalSize - 1;
      r := Ok(());
    }

    method Get(session: Id, now: int) returns (r: Result<Hold>)
      ensures r == if session in sessions && now < sessions[session].expiresAt then Ok(sessions[session])
                   else Err(HoldNotFound)
    {
      if session !in sessions || !(now < sessions[session].expiresAt) {
        return Err(HoldNotFound);
      }
      r := Ok(sessions[session]);
    }

    /** The live sessions of the screening, each once, in any order. */
    method HeldSeats(screening: string, now: int) returns (held: seq<Seat>)
      ensures forall seat :: seat in held <==> seat in HeldBySession(Value(), screening, now)
      ensures forall seat :: seat in held <==>
                exists x :: x in sessions && now < sessions[x].expiresAt && sessions[x].screening == screening &&
                            sessions[x].seat == seat
    {
      held := [];
      var todo := sessions.Keys;
      while todo != {}
        invariant todo <= sessions.Keys
        invariant forall seat :: seat in held <==>
                    exists x :: x in sessions.Keys - todo && Value().Live(x, now) &&
                                sessions[x].screening == screening && sessions[x].seat == seat
        decreases todo
      {
        var x :| x in todo;
        if sessions[x].screening == screening && now < sessions[x].expiresAt {
          held := held + [sessions[x].seat];
        }
        todo := todo - {x};
      }
    }
  }

  // ----- the operations on the tables -----

  /** The tables once the hold is written to all four indexes. */
  function Granted(t: Tables, hold: Hold): Tables {
    Tables(t.seats[KeyOf(hold) := SeatEntry(hold.token, hold.expiresAt)], t.sessions[hold.session := hold],
           t.users[hold.user := t.Slots(hold.user) + {hold.session}], t.size + 1)
  }

  function Claim(t: Tables, max: int, hold: Hold, now: int): (Result<()>, Tables) {
    if |t.Slots(hold.user)| >= max then (Err(HoldLimitExceeded), t)
    else if t.Guards(KeyOf(hold), now) then (Err(SeatAlreadyHeld), t)
    else (Ok(()), Granted(t, hold))
  }

  /** The tables once the hold is taken out; its seat entry goes only if it still carries its token. */
  function Dropped(t: Tables, session: Id, hold: Hold): Tables {
    Tables(if KeyOf(hold) in t.seats &&
        t.seats[KeyOf(hold)].token == hold.token then t.seats - {KeyOf(hold)} else t.seats,
           t.sessions - {session},
           if hold.user in t.users then t.users[hold.user := t.users[hold.user] - {session}] else t.users,
           t.size - 1)
  }

  function GiveUp(t: Tables, session: Id, user: Id, now: int): (Result<()>, Tables)
  {
    if !t.Live(session, now) then (Err(HoldNotFound), t)
    else if t.sessions[session].user != user then (Err(NotHoldOwner), t)
    else (Ok(()), Dropped(t, session, t.sessions[session]))
  }

  function LiveHolds(t: Tables, now: int): set<Hold> {
    set x | x in t.sessions && now < t.sessions[x].expiresAt :: t.sessions[x]
  }

  function HeldBySession(t: Tables, screening: string, now: int): set<Seat> {
    set x | x in t.sessions && t.Live(x, now) && t.sessions[x].screening == screening :: t.sessions[x].seat
  }

  /** What a scan of the unexpired seat keys finds for the screening. */
  function HeldBySeatKey(t: Tables, screening: string, now: int): set<Seat> {
    set k | k in t.seats && t.Guards(k, now) && ParseSeatKey(screening, k).Some? :: ParseSeatKey(screening, k).value
  }

  // ----- the invariant -----

  ghost predicate Sessions(t: Tables) {
    && (forall x :: x in t.sessions ==> t.sessions[x].session == x && ProperSeat(t.sessions[x].seat))
    && (forall x, y :: x in t.sessions && y in t.sessions && t.sessions[x].token == t.sessions[y].token ==> x == y)
  }

  /** Unexpired sessions and unexpired seat entries match one to one, token and expiry equal. */
  ghost predicate Matched(t: Tables, now: int) {
    && (forall x :: x in t.sessions && t.Live(x, now) ==>
          KeyOf(t.sessions[x]) in t.seats &&
          t.seats[KeyOf(t.sessions[x])] == SeatEntry(t.sessions[x].token, t.sessions[x].expiresAt))
    && (forall k :: k in t.seats && t.Guards(k, now) ==>
          exists x :: x in t.sessions && KeyOf(t.sessions[x]) == k &&
                      t.seats[k] == SeatEntry(t.sessions[x].token, t.sessions[x].expiresAt))
  }

  function Owned(sessions: map<Id, Hold>, user: Id): set<Id> {
    set x | x in sessions && sessions[x].user == user
  }

  /** The bookkeeping lists each user's sessions, expired or not, and the counter counts them all. */
  ghost predicate Tallied(t: Tables) {
    && (forall u :: t.Slots(u) == Owned(t.sessions, u))
    && t.size == |t.sessions|
  }

  ghost predicate Inv(t: Tables, now: int) { Sessions(t) && Matched(t, now) && Tallied(t) }

  ghost predicate Fresh(t: Tables, hold: Hold) {
    hold.session !in t.sessions && (forall x :: x in t.sessions ==> t.sessions[x].token != hold.token)
  }

  lemma EmptyInv(now: int)
    ensures Inv(Tables(map[], map[], map[], 0), now)
  {
  }

  /** Time only passes: what matched keeps matching. */
  lemma TickInv(t: Tables, now: int, later: int)
    requires Inv(t, now) && now <= later
    ensures Inv(t, later)
  {
    forall x | x in t.sessions && t.Live(x, later) ensures t.Live(x, now) {}
    forall k | k in t.seats && t.Guards(k, later) ensures t.Guards(k, now) {}
  }

  lemma SameKeySameSeat(a: Hold, b: Hold)
    requires ProperSeat(a.seat) && ProperSeat(b.seat) && KeyOf(a) == KeyOf(b)
    ensures a.Ref() == b.Ref()
  {
    SeatKeyInjective(a.Ref(), b.Ref());
  }

  /** Each seat has at most one live hold. */
  lemma OneLiveHoldPerSeat(t: Tables, now: int, a: Hold, b: Hold)
    requires Sessions(t) && Matched(t, now) && a in LiveHolds(t, now) && b in LiveHolds(t, now) && a.Ref() == b.Ref()
    ensures a == b
  {
    var x :| x in t.sessions && t.Live(x, now) && t.sessions[x] == a;
    var y :| y in t.sessions && t.Live(y, now) && t.sessions[y] == b;
    assert KeyOf(a) == KeyOf(b);
    assert a.token == b.token;
  }

  // ----- claims -----

  lemma GrantedMatched(t: Tables, hold: Hold, now: int)
    requires Sessions(t) && Matched(t, now) && Fresh(t, hold) && ProperSeat(hold.seat) && !t.Guards(KeyOf(hold), now)
    ensures Matched(Granted(t, hold), now)
  {
    var u := Granted(t, hold);
    forall x | x in u.sessions && u.Live(x, now)
      ensures KeyOf(u.sessions[x]) in u.seats
      ensures u.seats[KeyOf(u.sessions[x])] == SeatEntry(u.sessions[x].token, u.sessions[x].expiresAt)
    {
      if x != hold.session {
        assert t.Live(x, now);
      }
    }
    forall k | k in u.seats && u.Guards(k, now)
      ensures exists x :: x in u.sessions && KeyOf(u.sessions[x]) == k &&
                          u.seats[k] == SeatEntry(u.sessions[x].token, u.sessions[x].expiresAt)
    {
      if k == KeyOf(hold) {
        assert u.sessions[hold.session] == hold;
      } else {
        assert t.Guards(k, now);
        var x :| x in t.sessions && KeyOf(t.sessions[x]) == k &&
                 t.seats[k] == SeatEntry(t.sessions[x].token, t.sessions[x].expiresAt);
        assert u.sessions[x] == t.sessions[x];
      }
    }
  }

  lemma NewKeyCount<K, V>(m: map<K, V>, k: K, v: V)
    ensures |m[k := v]| == if k in m then |m| else |m| + 1
  {
    assert m[k := v].Keys == m.Keys + {k};
    assert |m| == |m.Keys| && |m[k := v]| == |m[k := v].Keys|;
  }

  lemma OldKeyCount<K, V>(m: map<K, V>, k: K)
    requires k in m
    ensures |m - {k}| == |m| - 1
  {
    assert (m - {k}).Keys == m.Keys - {k};
    assert |m| == |m.Keys| && |m - {k}| == |(m - {k}).Keys|;
  }

  lemma GrantedSlots(t: Tables, hold: Hold, w: Id)
    requires hold.session !in t.sessions && t.Slots(w) == Owned(t.sessions, w)
    ensures Granted(t, hold).Slots(w) == Owned(Granted(t, hold).sessions, w)
  {
    assert Owned(Granted(t, hold).sessions, w) == Owned(t.sessions, w) + if w == hold.user then {hold.session} else {};
  }

  lemma GrantedTallied(t: Tables, hold: Hold)
    requires Tallied(t) && hold.session !in t.sessions
    ensures Tallied(Granted(t, hold))
  {
    NewKeyCount(t.sessions, hold.session, hold);
    forall w ensures Granted(t, hold).Slots(w) == Owned(Granted(t, hold).sessions, w) {
      GrantedSlots(t, hold, w);
    }
  }

  lemma ClaimInv(t: Tables, max: int, hold: Hold, now: int)
    requires Inv(t, now) && Fresh(t, hold) && ProperSeat(hold.seat)
    ensures Inv(Claim(t, max, hold, now).1, now)
  {
    if Claim(t, max, hold, now).0.Ok? {
      GrantedMatched(t, hold, now);
      GrantedTallied(t, hold);
      assert Sessions(Granted(t, hold));
    }
  }

  /** A granted claim keeps the counter equal to the number of sessions exactly when its session is new. */
  lemma CounterNeedsNewSession(t: Tables, hold: Hold)
    requires t.size == |t.sessions|
    ensures Granted(t, hold).size == |Granted(t, hold).sessions| <==> hold.session !in t.sessions
  {
    NewKeyCount(t.sessions, hold.session, hold);
  }

  /** On the plain set of live holds a claim is refused for the limit, then for a live hold on the same seat, and
      otherwise adds that hold, if it has not expired on the way, and changes nothing else. */
  lemma ClaimRefinesLiveHolds(t: Tables, max: int, hold: Hold, now: int)
    requires Sessions(t) && Matched(t, now) && Fresh(t, hold) && ProperSeat(hold.seat)
    ensures var (answer, u) := Claim(t, max, hold, now);
            var taken := exists h :: h in LiveHolds(t, now) && h.Ref() == hold.Ref();
            && (answer == Err(HoldLimitExceeded) <==> |t.Slots(hold.user)| >= max)
            && (answer == Err(SeatAlreadyHeld) <==> |t.Slots(hold.user)| < max && taken)
            && (answer == Ok(()) <==> |t.Slots(hold.user)| < max && !taken)
            && LiveHolds(u, now) == LiveHolds(t, now) + if answer.Ok? && now < hold.expiresAt then {hold} else {}
  {
    hide LiveHolds, Granted, SeatKey, Sessions, Matched;
    GuardedMeansTaken(t, hold, now);
    assert hold.session !in t.sessions;
    GrantAddsOneLiveHold(t, hold, now);
  }

  lemma GrantAddsOneLiveHold(t: Tables, hold: Hold, now: int)
    requires hold.session !in t.sessions
    ensures LiveHolds(Granted(t, hold), now) == LiveHolds(t, now) + if now < hold.expiresAt then {hold} else {}
  {
    var u := Granted(t, hold);
    assert u.sessions[hold.session] == hold;
    assert forall x :: x in t.sessions ==> x in u.sessions && u.sessions[x] == t.sessions[x];
    assert forall x :: x in u.sessions && x != hold.session ==> x in t.sessions;
  }

  lemma GuardedMeansTaken(t: Tables, hold: Hold, now: int)
    requires Sessions(t) && Matched(t, now) && ProperSeat(hold.seat)
    ensures t.Guards(KeyOf(hold), now) <==> exists h :: h in LiveHolds(t, now) && h.Ref() == hold.Ref()
  {
    if t.Guards(KeyOf(hold), now) {
      var x :| x in t.sessions && KeyOf(t.sessions[x]) == KeyOf(hold) &&
               t.seats[KeyOf(hold)] == SeatEntry(t.sessions[x].token, t.sessions[x].expiresAt);
      SameKeySameSeat(t.sessions[x], hold);
      assert t.sessions[x] in LiveHolds(t, now);
    }
    if h :| h in LiveHolds(t, now) && h.Ref() == hold.Ref() {
      var x :| x in t.sessions && t.Live(x, now) && t.sessions[x] == h;
    }
  }

  // ----- releases -----

  lemma DroppedMatched(t: Tables, session: Id, now: int)
    requires Sessions(t) && Matched(t, now) && t.Live(session, now)
    ensures Matched(Dropped(t, session, t.sessions[session]), now)
  {
    var hold := t.sessions[session];
    var u := Dropped(t, session, hold);
    forall x | x in u.sessions && u.Live(x, now)
      ensures KeyOf(u.sessions[x]) in u.seats
      ensures u.seats[KeyOf(u.sessions[x])] == SeatEntry(u.sessions[x].token, u.sessions[x].expiresAt)
    {
      assert t.Live(x, now) && t.sessions[x].token != hold.token;
    }
    forall k | k in u.seats && u.Guards(k, now)
      ensures exists x :: x in u.sessions && KeyOf(u.sessions[x]) == k &&
                          u.seats[k] == SeatEntry(u.sessions[x].token, u.sessions[x].expiresAt)
    {
      assert t.Guards(k, now);
      var x :| x in t.sessions && KeyOf(t.sessions[x]) == k &&
               t.seats[k] == SeatEntry(t.sessions[x].token, t.sessions[x].expiresAt);
      assert x != session;
      assert u.sessions[x] == t.sessions[x];
    }
  }

  lemma DroppedSlots(t: Tables, session: Id, w: Id)
    requires session in t.sessions && t.Slots(w) == Owned(t.sessions, w)
    ensures var u := Dropped(t, session, t.sessions[session]); u.Slots(w) == Owned(u.sessions, w)
  {
    var u := Dropped(t, session, t.sessions[session]);
    assert Owned(u.sessions, w) == Owned(t.sessions, w) - {session};
    assert w != t.sessions[session].user ==> session !in Owned(t.sessions, w);
  }

  lemma DroppedTallied(t: Tables, session: Id)
    requires Tallied(t) && session in t.sessions
    ensures Tallied(Dropped(t, session, t.sessions[session]))
  {
    var u := Dropped(t, session, t.sessions[session]);
    OldKeyCount(t.sessions, session);
    forall w ensures u.Slots(w) == Owned(u.sessions, w) {
      DroppedSlots(t, session, w);
    }
  }

  lemma GiveUpInv(t: Tables, session: Id, user: Id, now: int)
    requires Inv(t, now)
    ensures Inv(GiveUp(t, session, user, now).1, now)
  {
    if GiveUp(t, session, user, now).0.Ok? {
      DroppedMatched(t, session, now);
      DroppedTallied(t, session);
      assert Sessions(Dropped(t, session, t.sessions[session]));
    }
  }

  /** On the plain set of live holds a release removes the caller's live hold of that session, or refuses and
      changes nothing. */
  lemma GiveUpRefinesLiveHolds(t: Tables, session: Id, user: Id, now: int)
    requires Sessions(t)
    ensures var (answer, u) := GiveUp(t, session, user, now);
            var mine := set h | h in LiveHolds(t, now) && h.session == session;
            && (answer == Err(HoldNotFound) <==> mine == {})
            && (answer == Err(NotHoldOwner) <==> exists h :: h in mine && h.user != user)
            && (answer == Ok(()) <==> exists h :: h in mine && h.user == user)
            && LiveHolds(u, now) == (if answer.Ok? then LiveHolds(t, now) - mine else LiveHolds(t, now))
  {
    var mine := set h | h in LiveHolds(t, now) && h.session == session;
    var (answer, u) := GiveUp(t, session, user, now);
    assert mine == if t.Live(session, now) then {t.sessions[session]} else {};
    if answer.Ok? {
      assert forall x :: x in u.sessions ==> x in t.sessions && u.sessions[x] == t.sessions[x] && x != session;
      assert forall x :: x in t.sessions && x != session ==> x in u.sessions;
    }
  }

  /** Whatever the tables hold, a release takes away no seat entry but that of its own hold. */
  lemma GiveUpTakesOwnEntry(t: Tables, session: Id, user: Id, now: int, key: string)
    requires key in t.seats && key !in GiveUp(t, session, user, now).1.seats
    ensures session in t.sessions && t.sessions[session].user == user && key == KeyOf(t.sessions[session])
    ensures t.seats[key].token == t.sessions[session].token
  {
  }

  // ----- enumerations and totals -----

  /** Enumerating the live sessions and scanning the unexpired seat keys find the same seats. */
  lemma BothEnumerationsAgree(t: Tables, screening: string, now: int)
    requires Sessions(t) && Matched(t, now)
    ensures HeldBySession(t, screening, now) == HeldBySeatKey(t, screening, now)
  {
    hide SeatKey, ParseSeatKey, ValidSeat;
    forall seat | seat in HeldBySession(t, screening, now) ensures seat in HeldBySeatKey(t, screening, now) {
      var x :| x in t.sessions && t.Live(x, now) && t.sessions[x].screening == screening && t.sessions[x].seat == seat;
      ParseUndoesKey(screening, seat);
      assert t.Guards(KeyOf(t.sessions[x]), now);
    }
    forall seat | seat in HeldBySeatKey(t, screening, now) ensures seat in HeldBySession(t, screening, now) {
      var k :| k in t.seats && t.Guards(k, now) && ParseSeatKey(screening, k) == Some(seat);
      var x :| x in t.sessions && KeyOf(t.sessions[x]) == k &&
               t.seats[k] == SeatEntry(t.sessions[x].token, t.sessions[x].expiresAt);
      var hold := t.sessions[x];
      if hold.screening != screening {
        ForeignKeyNeverParses(hold.screening, hold.seat, screening);
      }
      ParseUndoesKey(hold.screening, hold.seat);
    }
  }

  ghost function TotalSlots(t: Tables, users: set<Id>): nat {
    if users == {} then 0 else var u :| u in users; |t.Slots(u)| + TotalSlots(t, users - {u})
  }

  lemma {:induction false} TotalCountsOwners(t: Tables, users: set<Id>)
    requires Tallied(t)
    ensures TotalSlots(t, users) == |OwnedByAny(t.sessions, users)|
    decreases users
  {
    if users != {} {
      var u :| u in users && TotalSlots(t, users) == |t.Slots(u)| + TotalSlots(t, users - {u});
      TotalCountsOwners(t, users - {u});
      OwnedSplits(t.sessions, users, u);
    }
  }

  function OwnedByAny(sessions: map<Id, Hold>, users: set<Id>): set<Id> {
    set x | x in sessions && sessions[x].user in users
  }

  lemma OwnedSplits(sessions: map<Id, Hold>, users: set<Id>, u: Id)
    requires u in users
    ensures |OwnedByAny(sessions, users)| == |Owned(sessions, u)| + |OwnedByAny(sessions, users - {u})|
  {
    assert OwnedByAny(sessions, users) == Owned(sessions, u) + OwnedByAny(sessions, users - {u});
    assert Owned(sessions, u) !! OwnedByAny(sessions, users - {u});
  }

  /** The counter is the number of sessions and the sum of all users' bookkeeping. */
  lemma CounterIsTheSum(t: Tables)
    requires Tallied(t)
    ensures t.size == |t.sessions| == TotalSlots(t, t.users.Keys)
  {
    TotalCountsOwners(t, t.users.Keys);
    forall x | x in t.sessions ensures t.sessions[x].user in t.users {
      assert t.Slots(t.sessions[x].user) == Owned(t.sessions, t.sessions[x].user);
      assert x in Owned(t.sessions, t.sessions[x].user);
    }
    assert OwnedByAny(t.sessions, t.users.Keys) == t.sessions.Keys;
  }

  // ----- refinement of the abstract hold store -----

  function Refs(t: Tables): set<SeatRef> { set x | x in t.sessions :: t.sessions[x].Ref() }

  function ViewSeats(t: Tables, now: int): map<SeatRef, Id> {
    map r | r in Refs(t) && t.Guards(SeatKey(r.screening, r.seat), now) :: t.seats[SeatKey(r.screening, r.seat)].token
  }

  function ViewSessions(t: Tables, now: int): map<Id, Hold> {
    map x | x in t.sessions && t.Live(x, now) :: t.sessions[x]
  }

  /** The tables as the abstract store sees them at an instant: what has expired has vanished. */
  function View(t: Tables, now: int): Holds.Keys { Holds.Keys(ViewSeats(t, now), ViewSessions(t, now), t.users) }

  lemma ViewSeat(t: Tables, now: int, h: Hold)
    requires Sessions(t) && Matched(t, now) && ProperSeat(h.seat)
    ensures h.Ref() in ViewSeats(t, now) <==> t.Guards(KeyOf(h), now)
    ensures t.Guards(KeyOf(h), now) ==> ViewSeats(t, now)[h.Ref()] == t.seats[KeyOf(h)].token
  {
    if t.Guards(KeyOf(h), now) {
      GuardedMeansTaken(t, h, now);
    }
  }

  lemma RefIsProper(t: Tables, r: SeatRef)
    requires Sessions(t) && r in Refs(t)
    ensures ProperSeat(r.seat)
  {
  }

  /** Distinct seats have distinct entries. */
  lemma OtherKey(t: Tables, hold: Hold, r: SeatRef)
    requires Sessions(t) && ProperSeat(hold.seat) && r in Refs(t) && r != hold.Ref()
    ensures SeatKey(r.screening, r.seat) != KeyOf(hold)
  {
    hide SeatKey;
    RefIsProper(t, r);
    if SeatKey(r.screening, r.seat) == KeyOf(hold) {
      SeatKeyInjective(r, hold.Ref());
    }
  }

  lemma GrantedRefs(t: Tables, hold: Hold)
    requires hold.session !in t.sessions
    ensures Refs(Granted(t, hold)) == Refs(t) + {hold.Ref()}
  {
    var u := Granted(t, hold);
    assert u.sessions[hold.session] == hold;
    assert forall x :: x in t.sessions ==> x in u.sessions && u.sessions[x] == t.sessions[x];
  }

  lemma GrantedViewSeat(t: Tables, hold: Hold, now: int, r: SeatRef)
    requires Sessions(t) && ProperSeat(hold.seat) && now < hold.expiresAt &&
      Refs(Granted(t, hold)) == Refs(t) + {hold.Ref()}
    ensures var u := Granted(t, hold);
            && (r in ViewSeats(u, now) <==> r in ViewSeats(t, now) || r == hold.Ref())
            && (r in ViewSeats(u, now) ==>
                  ViewSeats(u, now)[r] == if r == hold.Ref() then hold.token else ViewSeats(t, now)[r])
  {
    hide SeatKey, Refs;
    if r in Refs(t) && r != hold.Ref() {
      OtherKey(t, hold, r);
    }
  }

  lemma GrantedViewSeats(t: Tables, hold: Hold, now: int)
    requires Sessions(t) && ProperSeat(hold.seat) && hold.session !in t.sessions && now < hold.expiresAt
    ensures ViewSeats(Granted(t, hold), now) == ViewSeats(t, now)[hold.Ref() := hold.token]
  {
    hide SeatKey, ViewSeats, Granted;
    GrantedRefs(t, hold);
    var before, after := ViewSeats(t, now), ViewSeats(Granted(t, hold), now);
    forall r
      ensures r in after <==> r in before || r == hold.Ref()
      ensures r in after ==> after[r] == if r == hold.Ref() then hold.token else before[r]
    {
      GrantedViewSeat(t, hold, now, r);
    }
  }

  lemma GrantedViewSessions(t: Tables, hold: Hold, now: int)
    requires now < hold.expiresAt
    ensures ViewSessions(Granted(t, hold), now) == ViewSessions(t, now)[hold.session := hold]
  {
  }

  lemma ViewOfGranted(t: Tables, hold: Hold, now: int)
    requires Sessions(t) && ProperSeat(hold.seat) && hold.session !in t.sessions && now < hold.expiresAt
    ensures View(Granted(t, hold), now) == Holds.Granted(View(t, now), hold)
  {
    GrantedViewSeats(t, hold, now);
    GrantedViewSessions(t, hold, now);
    hide ViewSeats, ViewSessions, SeatKey;
  }

  lemma StillbornSeat(t: Tables, hold: Hold, now: int, r: SeatRef)
    requires Sessions(t) && ProperSeat(hold.seat) && hold.expiresAt <= now && !t.Guards(KeyOf(hold), now)
    requires Refs(Granted(t, hold)) == Refs(t) + {hold.Ref()}
    ensures var u := Granted(t, hold);
            && (r in ViewSeats(u, now) <==> r in ViewSeats(t, now))
            && (r in ViewSeats(u, now) ==> ViewSeats(u, now)[r] == ViewSeats(t, now)[r])
  {
    hide SeatKey, Refs;
    if r in Refs(t) && r != hold.Ref() {
      OtherKey(t, hold, r);
    }
  }

  lemma StillbornSeats(t: Tables, hold: Hold, now: int)
    requires Sessions(t) && ProperSeat(hold.seat) && hold.expiresAt <= now && !t.Guards(KeyOf(hold), now)
    requires hold.session !in t.sessions
    ensures ViewSeats(Granted(t, hold), now) == ViewSeats(t, now)
  {
    hide SeatKey, ViewSeats, Granted;
    GrantedRefs(t, hold);
    var before, after := ViewSeats(t, now), ViewSeats(Granted(t, hold), now);
    forall r
      ensures r in after <==> r in before
      ensures r in after ==> after[r] == before[r]
    {
      StillbornSeat(t, hold, now, r);
    }
  }

  lemma StillbornSessions(t: Tables, hold: Hold, now: int)
    requires hold.expiresAt <= now && hold.session !in t.sessions
    ensures ViewSessions(Granted(t, hold), now) == ViewSessions(t, now) && hold.session !in ViewSessions(t, now)
  {
  }

  /** The abstract claim; a hold that was granted after it had expired has lost its keys at once. */
  function ClaimKeys(keys: Holds.Keys, max: int, hold: Hold, now: int): (Result<()>, Holds.Keys) {
    var (answer, after) := Holds.Claim(keys, max, hold);
    (answer, if answer.Ok? && hold.expiresAt <= now
             then Holds.LoseSession(Holds.LoseSeat(after, hold.Ref()), hold.session) else after)
  }

  lemma GrantedHasRecord(keys: Holds.Keys, hold: Hold)
    ensures hold.session in Holds.Granted(keys, hold).sessions
  {
  }

  lemma StillbornKeys(keys: Holds.Keys, hold: Hold)
    requires hold.Ref() !in keys.seats && hold.session !in keys.sessions
    ensures var after := Holds.LoseSession(Holds.LoseSeat(Holds.Granted(keys, hold), hold.Ref()), hold.session);
            after == Holds.Keys(keys.seats, keys.sessions,
                keys.slots[hold.user := keys.Slots(hold.user) + {hold.session}])
  {
    assert keys.seats[hold.Ref() := hold.token] - {hold.Ref()} == keys.seats;
    assert keys.sessions[hold.session := hold] - {hold.session} == keys.sessions;
  }

  /** Each claim is the abstract store's claim on the view of the same instant, followed, if the hold has expired
      on the way, by the loss of its seat key and its record; without that loss it is the plain claim exactly unless
      an expired hold is granted. */
  lemma ClaimRefines(t: Tables, max: int, hold: Hold, now: int)
    requires Sessions(t) && Matched(t, now) && Fresh(t, hold) && ProperSeat(hold.seat)
    ensures ClaimKeys(View(t, now), max, hold, now) ==
            (Claim(t, max, hold, now).0, View(Claim(t, max, hold, now).1, now))
    ensures Holds.Claim(View(t, now), max, hold) == (Claim(t, max, hold, now).0, View(Claim(t, max, hold, now).1, now))
            <==> !(Claim(t, max, hold, now).0.Ok? && hold.expiresAt <= now)
  {
    hide ViewSeats, ViewSessions, SeatKey, Holds.LoseSeat, Holds.LoseSession, Holds.Granted;
    ViewSeat(t, now, hold);
    if Claim(t, max, hold, now).0.Ok? {
      if now < hold.expiresAt {
        ViewOfGranted(t, hold, now);
      } else {
        StillbornSeats(t, hold, now);
        StillbornSessions(t, hold, now);
        StillbornKeys(View(t, now), hold);
        GrantedHasRecord(View(t, now), hold);
      }
    }
  }

  lemma DroppedRefs(t: Tables, session: Id, r: SeatRef)
    requires session in t.sessions
    ensures var u := Dropped(t, session, t.sessions[session]);
            && (r in Refs(u) ==> r in Refs(t))
            && (r in Refs(t) && r != t.sessions[session].Ref() ==> r in Refs(u))
  {
    var u := Dropped(t, session, t.sessions[session]);
    if r in Refs(t) && r != t.sessions[session].Ref() {
      var x :| x in t.sessions && t.sessions[x].Ref() == r;
      assert u.sessions[x] == t.sessions[x];
    }
  }

  lemma DroppedViewSeat(t: Tables, session: Id, now: int, r: SeatRef)
    requires Sessions(t) && Matched(t, now) && t.Live(session, now)
    ensures var u := Dropped(t, session, t.sessions[session]);
            && (r in ViewSeats(u, now) <==> r in ViewSeats(t, now) && r != t.sessions[session].Ref())
            && (r in ViewSeats(u, now) ==> ViewSeats(u, now)[r] == ViewSeats(t, now)[r])
  {
    hide SeatKey, Refs;
    var h := t.sessions[session];
    DroppedRefs(t, session, r);
    assert Dropped(t, session, h).seats == t.seats - {KeyOf(h)};
    if r in Refs(t) && r != h.Ref() {
      OtherKey(t, h, r);
    }
  }

  lemma DroppedViewSeats(t: Tables, session: Id, now: int)
    requires Sessions(t) && Matched(t, now) && t.Live(session, now)
    ensures var h := t.sessions[session];
            && h.Ref() in ViewSeats(t, now) && ViewSeats(t, now)[h.Ref()] == h.token
            && ViewSeats(Dropped(t, session, h), now) == ViewSeats(t, now) - {h.Ref()}
  {
    hide SeatKey, Dropped;
    var h := t.sessions[session];
    ViewSeat(t, now, h);
    var before, after := ViewSeats(t, now), ViewSeats(Dropped(t, session, h), now);
    forall r
      ensures r in after <==> r in before && r != h.Ref()
      ensures r in after ==> after[r] == before[r]
    {
      DroppedViewSeat(t, session, now, r);
    }
  }

  lemma DroppedViewSessions(t: Tables, session: Id, now: int)
    requires session in t.sessions
    ensures ViewSessions(Dropped(t, session, t.sessions[session]), now) == ViewSessions(t, now) - {session}
  {
  }

  lemma ViewOfDropped(t: Tables, session: Id, now: int)
    requires Sessions(t) && Matched(t, now) && t.Live(session, now) && t.sessions[session].user in t.users
    ensures View(Dropped(t, session, t.sessions[session]), now) ==
            Holds.Dropped(View(t, now), session, t.sessions[session])
  {
    DroppedViewSeats(t, session, now);
    DroppedViewSessions(t, session, now);
    hide ViewSeats, ViewSessions, SeatKey;
  }

  /** Each release is the abstract store's release, on the view of the same instant. */
  lemma GiveUpRefines(t: Tables, session: Id, user: Id, now: int)
    requires Inv(t, now)
    ensures Holds.Release(View(t, now), session, user) ==
            (GiveUp(t, session, user, now).0, View(GiveUp(t, session, user, now).1, now))
  {
    hide ViewSeats, Dropped, Holds.Dropped, SeatKey;
    if t.Live(session, now) {
      var user := t.sessions[session].user;
      assert t.Slots(user) == Owned(t.sessions, user) && session in Owned(t.sessions, user);
      ViewOfDropped(t, session, now);
    }
  }

  /** As time passes, keys vanish from the view and nothing else happens to it. */
  lemma TickOnlyLoses(t: Tables, now: int, later: int)
    requires now <= later
    ensures ViewSeats(t, later) == (map r | r in ViewSeats(t, now) && r in ViewSeats(t, later) :: ViewSeats(t, now)[r])
    ensures ViewSessions(t, later) ==
            map x | x in ViewSessions(t, now) && x in ViewSessions(t, later) :: ViewSessions(t, now)[x]
    ensures View(t, later).slots == View(t, now).slots
  {
  }
}
