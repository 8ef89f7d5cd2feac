/** The Redis hold store: string keys carrying tokens, session hashes, sorted sets for bookkeeping, scripts
    that run as one step, and keys that vanish on their own. */
module RedisHoldStores {
  import opened Domain
  import opened Decimal
  import opened SeatKeys
  import Holds

  /** The fields of a session hash, as Redis stores them. */
  datatype SessionHash = SessionHash(screening: string, row: string, num: string, user: Id, token: Id, expiresAt: int)

  function HashOf(hold: Hold): SessionHash {
    SessionHash(hold.screening, hold.seat.row, Itoa(hold.seat.number), hold.user, hold.token, hold.expiresAt / SECOND)
  }

  /** The seat key as the release script rebuilds it from a hash. */
  function RebuiltKey(hash: SessionHash): string {
    SEAT_PREFIX + hash.screening + ":" + hash.row + ":" + hash.num
  }

  function Seconds(d: int): int { if d >= 0 then d / SECOND else -(-d / SECOND) }

  /** What converting a duration to seconds through a floating-point number may truncate to: the whole
      seconds, or, when the fraction rounds up on the way, one more. */
  predicate Truncates(d: int, seconds: int) {
    seconds == Seconds(d) || (d > 0 && d % SECOND != 0 && seconds == Seconds(d) + 1)
  }

  /** The TTL is the duration rounded up to whole seconds. */
  predicate IsCeiling(d: int, seconds: int) { (seconds - 1) * SECOND < d <= seconds * SECOND }

  class HoldStore {
    const maxHolds: int
    var seatKeys: map<string, Id>
    var sessionKeys: map<Id, SessionHash>
    var userHolds: map<Id, map<Id, int>>
    var expiring: map<Id, int>

    constructor (maxHolds: int)
      ensures this.maxHolds == maxHolds && Mirrors(Holds.Keys(map[], map[], map[]))
    {
      this.maxHolds := maxHolds;
      seatKeys, sessionKeys, userHolds, expiring := map[], map[], map[], map[];
    }

    /** The keys of this store are those of the abstract hold store. */
    ghost predicate Mirrors(keys: Holds.Keys)
      reads this
    {
      && SeatsMirror(seatKeys, keys.seats)
      && SessionsMirror(sessionKeys, keys.sessions)
      && SlotsMirror(userHolds, keys.slots)
    }

    /** The session is listed under the second of its expiry, in its user's set and in the global one, and nothing else
        is there that was not. */
    ghost predicate Listed(users: map<Id, map<Id, int>>, global: map<Id, int>, hold: Hold)
      reads this
    {
      var mine := Members(users, hold.user);
      && userHolds == users[hold.user := mine[hold.session := hold.expiresAt / SECOND]]
      && expiring == global[hold.session := hold.expiresAt / SECOND]
    }

    ghost predicate Untouched(strings: map<string, Id>, hashes: map<Id, SessionHash>, users: map<Id, map<Id, int>>,
                              global: map<Id, int>)
      reads this
    {
      seatKeys == strings && sessionKeys == hashes && userHolds == users && expiring == global
    }

    /** The claim script, run with the key names and arguments Hold passes. */
    method HoldScript(hold: Hold, ghost keys: Holds.Keys) returns (r: Result<()>)
      requires Mirrors(keys) && ProperSeat(hold.seat)
      modifies this
      ensures r == Holds.Claim(keys, maxHolds, hold).0
      ensures Mirrors(Holds.Claim(keys, maxHolds, hold).1)
      ensures r.Ok? ==> Listed(old(userHolds), old(expiring), hold)
      ensures r.Err? ==> Untouched(old(seatKeys), old(sessionKeys), old(userHolds), old(expiring))
    {
      hide SeatKey, SeatsMirror, SessionsMirror, SlotsMirror, HashOf;
      var mine := Members(userHolds, hold.user);
      SlotCount(userHolds, keys.slots, hold.user);
      if |mine| >= maxHolds {
        return Err(HoldLimitExceeded);
      }
      ClaimMirrors(seatKeys, keys.seats, hold);
      var key := SeatKey(hold.screening, hold.seat);
      if key in seatKeys {
        return Err(SeatAlreadyHeld);
      }
      SessionClaimMirrors(sessionKeys, keys.sessions, hold);
      SlotClaimMirrors(userHolds, keys.slots, hold);
      seatKeys := seatKeys[key := hold.token];
      sessionKeys := sessionKeys[hold.session := HashOf(hold)];
      userHolds := userHolds[hold.user := mine[hold.session := hold.expiresAt / SECOND]];
      expiring := expiring[hold.session := hold.expiresAt / SECOND];
      r := Ok(());
    }

    /** Validates, derives the TTL from the hold's own expiry, rounds it up and runs the script. */
    method Hold(hold: Hold, validated: int, now: int, seconds: int, ghost keys: Holds.Keys)
      returns (r: Result<()>, ttl: int)
      requires Mirrors(keys) && ProperSeat(hold.seat)
      requires Truncates(hold.expiresAt - now, seconds)
      modifies this
      ensures hold.Validates(validated) && now < hold.expiresAt ==>
                r == Holds.Claim(keys, maxHolds, hold).0 && Mirrors(Holds.Claim(keys, maxHolds, hold).1)
      ensures !(hold.Validates(validated) && now < hold.expiresAt) ==> r == Err(InvalidHold) && Mirrors(keys)
      ensures r.Ok? ==> Listed(old(userHolds), old(expiring), hold)
      ensures r.Err? ==> Untouched(old(seatKeys), old(sessionKeys), old(userHolds), old(expiring))
      ensures r.Ok? ==> IsCeiling(hold.expiresAt - now, ttl) && ttl >= 1
    {
      ttl := 0;
      if !hold.Validates(validated) {
        return Err(InvalidHold), ttl;
      }
      var left := hold.expiresAt - now;
      ttl := seconds;
      if left > ttl * SECOND {
        ttl := ttl + 1;
      }
      if ttl < 1 {
        return Err(InvalidHold), ttl;
      }
      r := HoldScript(hold, keys);
    }

    method Release(session: Id, user: Id, ghost keys: Holds.Keys) returns (r: Result<()>)
      requires Mirrors(keys)
      modifies this
      ensures r == Holds.Release(keys, session, user).0
      ensures Mirrors(Holds.Release(keys, session, user).1)
      ensures r.Ok? ==>
                && expiring == old(expiring) - {session}
                && userHolds == (if user in old(userHolds)
                                 then old(userHolds)[user := old(userHolds)[user] - {session}] else old(userHolds))
      ensures r.Err? ==> Untouched(old(seatKeys), old(sessionKeys), old(userHolds), old(expiring))
    {
      hide SeatKey, RebuiltKey, HashOf, Members, ProperSeat, SeatsMirror, SessionsMirror, SlotsMirror;
      RecordMirrors(sessionKeys, keys.sessions, session);
      if session !in sessionKeys {
        return Err(HoldNotFound);
      }
      var hash := sessionKeys[session];
      if hash.user != user {
        return Err(NotHoldOwner);
      }
      DropMirrors(seatKeys, keys.seats, keys.sessions[session]);
      SessionDropMirrors(sessionKeys, keys.sessions, session);
      SlotDropMirrors(userHolds, keys.slots, user, session);
      var key := RebuiltKey(hash);
      if key in seatKeys && seatKeys[key] == hash.token {
        seatKeys := seatKeys - {key};
      }
      sessionKeys := sessionKeys - {session};
      if user in userHolds {
        userHolds := userHolds[user := userHolds[user] - {session}];
      }
      expiring := expiring - {session};
      r := Ok(());
    }

    /** The stored hold with its expiry floored to the second. */
    method Get(session: Id, ghost keys: Holds.Keys) returns (r: Result<Hold>)
      requires Mirrors(keys)
      ensures r == match Holds.Get(keys, session)
                   case Ok(hold) => Ok(Holds.WholeSecond(hold).(session := session))
                   case Err(e) => Err(e)
    {
      if session !in sessionKeys {
        return Err(HoldNotFound);
      }
      var hash := sessionKeys[session];
      ghost var hold := keys.sessions[session];
      AtoiItoa(hold.seat.number);
      NewSeatFixesValid(hold.seat);
      var num := Atoi(hash.num);
      if num.None? {
        return Err(Infra);
      }
      var seat := NewSeat(hash.row, num.value);
      if seat.None? {
        return Err(Infra);
      }
      r := Ok(Domain.Hold(session, hash.screening, seat.value, hash.user, hash.token, hash.expiresAt * SECOND));
    }

    /** A scan for the screening's prefix, which may return keys of other screenings. */
    method Scan(screening: string) returns (scanned: seq<string>)
      ensures forall k :: k in scanned ==> k in seatKeys
      ensures forall k :: k in seatKeys && SEAT_PREFIX + screening + ":" <= k ==> k in scanned
    {
      scanned := [];
      var todo := seatKeys.Keys;
      while todo != {}
        invariant todo <= seatKeys.Keys
        invariant forall k :: k in seatKeys && k !in todo <==> k in scanned
        decreases todo
      {
        var k :| k in todo;
        scanned := scanned + [k];
        todo := todo - {k};
      }
    }

    /** The cursor walk: batch after batch of keys, each a part of the keys there are at its own moment, between which
        keys come and go. What it promises of SCAN is that a key that stays throughout is in some batch. Keys that are
        no seat of this screening are skipped. Every seat held throughout is found, and every seat found was held at
        the moment of some batch; over keys that stay, the walk finds exactly the screening's held seats. */
    method HeldSeats(screening: string, batches: seq<seq<string>>,
                     ghost strings: seq<map<string, Id>>, ghost seats: seq<map<SeatRef, Id>>) returns (held: seq<Seat>)
      requires |batches| == |strings| == |seats| > 0
      requires forall i :: 0 <= i < |batches| ==> SeatsMirror(strings[i], seats[i])
      requires forall i, k :: 0 <= i < |batches| && k in batches[i] ==> k in strings[i]
      requires forall k :: Stays(strings, k) && SEAT_PREFIX + screening + ":" <= k ==> Returned(batches, k)
      ensures forall seat :: (forall i :: 0 <= i < |seats| ==> SeatRef(screening, seat) in seats[i]) ==> seat in held
      ensures forall seat :: seat in held ==> exists i :: 0 <= i < |seats| && SeatRef(screening, seat) in seats[i]
    {
      hide SeatKey, ParseSeatKey, SeatsMirror;
      held := [];
      for i := 0 to |batches|
        invariant forall seat :: seat in held <==> exists m :: 0 <= m < i && Yields(batches[m], screening, seat)
      {
        ghost var before := held;
        for j := 0 to |batches[i]|
          invariant forall seat :: seat in held <==> seat in before || Yields(batches[i][..j], screening, seat)
        {
          var seat := ParseSeatKey(screening, batches[i][j]);
          YieldsMore(batches[i], j, screening);
          if seat.Some? {
            held := held + [seat.value];
          }
        }
        assert batches[i][..|batches[i]|] == batches[i];
      }
      forall seat | seat in held ensures exists i :: 0 <= i < |seats| && SeatRef(screening, seat) in seats[i] {
        var m :| 0 <= m < |batches| && Yields(batches[m], screening, seat);
        YieldedIsHeld(strings[m], seats[m], screening, batches[m], seat);
      }
      forall seat | forall i :: 0 <= i < |seats| ==> SeatRef(screening, seat) in seats[i] ensures seat in held {
        forall i | 0 <= i < |strings| ensures SeatKey(screening, seat) in strings[i] {
          HeldHasKey(strings[i], seats[i], screening, seat);
        }
        KeyStartsWithPrefix(screening, seat);
        assert Stays(strings, SeatKey(screening, seat));
        var m :| 0 <= m < |batches| && SeatKey(screening, seat) in batches[m];
        HeldHasKey(strings[m], seats[m], screening, seat);
        KeyYields(batches[m], screening, seat);
      }
    }

    /** A seat key's TTL runs out, or the key is evicted. */
    method SeatKeyVanishes(ref: SeatRef, ghost keys: Holds.Keys)
      requires Mirrors(keys) && ProperSeat(ref.seat)
      modifies this
      ensures Mirrors(Holds.LoseSeat(keys, ref))
      ensures sessionKeys == old(sessionKeys) && userHolds == old(userHolds) && expiring == old(expiring)
    {
      VanishMirrors(seatKeys, keys.seats, ref);
      hide SeatKey, SeatsMirror, SessionsMirror, SlotsMirror;
      seatKeys := seatKeys - {SeatKey(ref.screening, ref.seat)};
    }

    method SessionKeyVanishes(session: Id, ghost keys: Holds.Keys)
      requires Mirrors(keys)
      modifies this
      ensures Mirrors(Holds.LoseSession(keys, session))
      ensures seatKeys == old(seatKeys) && userHolds == old(userHolds) && expiring == old(expiring)
    {
      SessionDropMirrors(sessionKeys, keys.sessions, session);
      sessionKeys := sessionKeys - {session};
    }
  }

  // ----- the correspondence of keys -----

  ghost predicate SeatsMirror(strings: map<string, Id>, seats: map<SeatRef, Id>) {
    && (forall r :: r in seats ==> ProperSeat(r.seat) && SeatKey(r.screening, r.seat) in strings &&
                                   strings[SeatKey(r.screening, r.seat)] == seats[r])
    && (forall k :: k in strings ==> exists r :: r in seats && SeatKey(r.screening, r.seat) == k)
  }

  ghost predicate SessionsMirror(hashes: map<Id, SessionHash>, sessions: map<Id, Hold>) {
    && hashes.Keys == sessions.Keys
    && (forall x :: x in sessions ==> ProperSeat(sessions[x].seat) && hashes[x] == HashOf(sessions[x]))
  }

  lemma RecordMirrors(hashes: map<Id, SessionHash>, sessions: map<Id, Hold>, session: Id)
    requires SessionsMirror(hashes, sessions)
    ensures session in hashes <==> session in sessions
    ensures session in sessions ==>
              var hold := sessions[session];
              && hashes[session] == HashOf(hold) && ProperSeat(hold.seat)
              && hashes[session].user == hold.user && hashes[session].token == hold.token
  {
  }

  ghost predicate SlotsMirror(users: map<Id, map<Id, int>>, slots: map<Id, set<Id>>) {
    forall u :: Members(users, u).Keys == Holds.SlotsOf(slots, u)
  }

  function Members(users: map<Id, map<Id, int>>, user: Id): map<Id, int> {
    if user in users then users[user] else map[]
  }

  lemma SlotCount(users: map<Id, map<Id, int>>, slots: map<Id, set<Id>>, user: Id)
    requires SlotsMirror(users, slots)
    ensures |Members(users, user)| == |Holds.SlotsOf(slots, user)|
  {
    assert |Members(users, user)| == |Members(users, user).Keys|;
  }

  lemma SlotClaimMirrors(users: map<Id, map<Id, int>>, slots: map<Id, set<Id>>, hold: Hold)
    requires SlotsMirror(users, slots)
    ensures SlotsMirror(users[hold.user := Members(users, hold.user)[hold.session := hold.expiresAt / SECOND]],
                        slots[hold.user := Holds.SlotsOf(slots, hold.user) + {hold.session}])
  {
    var mine := Members(users, hold.user);
    assert mine[hold.session := hold.expiresAt / SECOND].Keys == mine.Keys + {hold.session};
    var users', slots' := users[hold.user := mine[hold.session := hold.expiresAt / SECOND]],
                          slots[hold.user := Holds.SlotsOf(slots, hold.user) + {hold.session}];
    forall u ensures Members(users', u).Keys == Holds.SlotsOf(slots', u) {
      assert Members(users, u).Keys == Holds.SlotsOf(slots, u);
    }
  }

  lemma SlotDropMirrors(users: map<Id, map<Id, int>>, slots: map<Id, set<Id>>, user: Id, session: Id)
    requires SlotsMirror(users, slots)
    ensures SlotsMirror(if user in users then users[user := users[user] - {session}] else users,
                        slots[user := Holds.SlotsOf(slots, user) - {session}])
  {
    assert (Members(users, user) - {session}).Keys == Members(users, user).Keys - {session};
    var users' := if user in users then users[user := users[user] - {session}] else users;
    var slots' := slots[user := Holds.SlotsOf(slots, user) - {session}];
    forall u ensures Members(users', u).Keys == Holds.SlotsOf(slots', u) {
      assert Members(users, u).Keys == Holds.SlotsOf(slots, u);
    }
  }

  lemma SessionDropMirrors(hashes: map<Id, SessionHash>, sessions: map<Id, Hold>, session: Id)
    requires SessionsMirror(hashes, sessions)
    ensures SessionsMirror(hashes - {session}, sessions - {session})
  {
  }

  /** The key is there at every moment of the walk. */
  ghost predicate Stays(strings: seq<map<string, Id>>, k: string) { forall i :: 0 <= i < |strings| ==> k in strings[i] }

  predicate Returned(batches: seq<seq<string>>, k: string) { exists i :: 0 <= i < |batches| && k in batches[i] }

  /** Some key of the batch parses to the seat. */
  predicate Yields(batch: seq<string>, screening: string, seat: Seat) {
    exists j :: 0 <= j < |batch| && ParseSeatKey(screening, batch[j]) == Some(seat)
  }

  lemma YieldsMore(batch: seq<string>, j: nat, screening: string)
    requires j < |batch|
    ensures forall seat :: Yields(batch[..j + 1], screening, seat) <==>
              Yields(batch[..j], screening, seat) || ParseSeatKey(screening, batch[j]) == Some(seat)
  {
    hide ParseSeatKey;
    var shorter, longer := batch[..j], batch[..j + 1];
    assert longer == shorter + [batch[j]];
    forall seat
      ensures Yields(longer, screening, seat) <==>
              Yields(shorter, screening, seat) || ParseSeatKey(screening, batch[j]) == Some(seat)
    {
      assert longer[j] == batch[j];
      if m :| 0 <= m < |shorter| && ParseSeatKey(screening, shorter[m]) == Some(seat) {
        assert longer[m] == shorter[m];
      }
    }
  }

  /** A key of this store that parses to a seat is that seat's own key. */
  lemma YieldedIsHeld(strings: map<string, Id>, seats: map<SeatRef, Id>, screening: string, batch: seq<string>,
        seat: Seat)
    requires SeatsMirror(strings, seats) && (forall k :: k in batch ==> k in strings) && Yields(batch, screening, seat)
    ensures SeatRef(screening, seat) in seats
  {
    hide SeatKey, ParseSeatKey;
    var j :| 0 <= j < |batch| && ParseSeatKey(screening, batch[j]) == Some(seat);
    assert batch[j] in batch;
    var r :| r in seats && SeatKey(r.screening, r.seat) == batch[j];
    if r.screening != screening {
      ForeignKeyNeverParses(r.screening, r.seat, screening);
    }
    ParseUndoesKey(r.screening, r.seat);
  }

  lemma HeldHasKey(strings: map<string, Id>, seats: map<SeatRef, Id>, screening: string, seat: Seat)
    requires SeatsMirror(strings, seats) && SeatRef(screening, seat) in seats
    ensures SeatKey(screening, seat) in strings && ProperSeat(seat)
  {
  }

  lemma KeyYields(batch: seq<string>, screening: string, seat: Seat)
    requires SeatKey(screening, seat) in batch && ProperSeat(seat)
    ensures Yields(batch, screening, seat)
  {
    ParseUndoesKey(screening, seat);
    var j :| 0 <= j < |batch| && batch[j] == SeatKey(screening, seat);
  }

  lemma KeyStartsWithPrefix(screening: string, seat: Seat)
    ensures SEAT_PREFIX + screening + ":" <= SeatKey(screening, seat)
  {
    assert SeatKey(screening, seat) == (SEAT_PREFIX + screening + ":") + (seat.row + ":" + Itoa(seat.number));
  }

  lemma KeyMirrors(strings: map<string, Id>, seats: map<SeatRef, Id>, r: SeatRef)
    requires SeatsMirror(strings, seats) && ProperSeat(r.seat)
    ensures SeatKey(r.screening, r.seat) in strings <==> r in seats
  {
    if SeatKey(r.screening, r.seat) in strings {
      var q :| q in seats && SeatKey(q.screening, q.seat) == SeatKey(r.screening, r.seat);
      SeatKeyInjective(q, r);
    }
  }

  lemma SessionClaimMirrors(hashes: map<Id, SessionHash>, sessions: map<Id, Hold>, hold: Hold)
    requires SessionsMirror(hashes, sessions) && ProperSeat(hold.seat)
    ensures SessionsMirror(hashes[hold.session := HashOf(hold)], sessions[hold.session := hold])
  {
  }

  lemma ClaimMirrors(strings: map<string, Id>, seats: map<SeatRef, Id>, hold: Hold)
    requires SeatsMirror(strings, seats) && ProperSeat(hold.seat)
    ensures SeatKey(hold.screening, hold.seat) in strings <==> hold.Ref() in seats
    ensures SeatKey(hold.screening, hold.seat) !in strings ==>
              SeatsMirror(strings[SeatKey(hold.screening, hold.seat) := hold.token], seats[hold.Ref() := hold.token])
  {
    hide SeatKey;
    KeyMirrors(strings, seats, hold.Ref());
    var key := SeatKey(hold.screening, hold.seat);
    if key !in strings {
      var after := seats[hold.Ref() := hold.token];
      assert hold.Ref() in after;
      forall k | k in strings ensures exists r :: r in after && SeatKey(r.screening, r.seat) == k {
        var r :| r in seats && SeatKey(r.screening, r.seat) == k;
        assert r in after;
      }
    }
  }

  lemma VanishMirrors(strings: map<string, Id>, seats: map<SeatRef, Id>, ref: SeatRef)
    requires SeatsMirror(strings, seats) && ProperSeat(ref.seat)
    ensures SeatsMirror(strings - {SeatKey(ref.screening, ref.seat)}, seats - {ref})
  {
    hide SeatKey;
    var key := SeatKey(ref.screening, ref.seat);
    forall r | r in seats && r != ref ensures SeatKey(r.screening, r.seat) != key {
      if SeatKey(r.screening, r.seat) == key {
        SeatKeyInjective(r, ref);
      }
    }
    forall k | k in strings - {key} ensures exists r :: r in seats - {ref} && SeatKey(r.screening, r.seat) == k {
      var r :| r in seats && SeatKey(r.screening, r.seat) == k;
      assert r in seats - {ref};
    }
  }

  lemma DropMirrors(strings: map<string, Id>, seats: map<SeatRef, Id>, hold: Hold)
    requires SeatsMirror(strings, seats) && ProperSeat(hold.seat)
    ensures RebuiltKey(HashOf(hold)) == SeatKey(hold.screening, hold.seat)
    ensures var key := SeatKey(hold.screening, hold.seat);
            && (key in strings <==> hold.Ref() in seats)
            && (key in strings ==> strings[key] == seats[hold.Ref()])
            && SeatsMirror(strings - {key}, seats - {hold.Ref()})
  {
    KeyMirrors(strings, seats, hold.Ref());
    VanishMirrors(strings, seats, hold.Ref());
  }

  // ----- lifetimes -----

  /** A key written with the rounded-up TTL, `written` being no earlier than the clock reading the TTL was
      derived from, is alive until the hold's expiry and gone within a second, plus the delay, after it. */
  lemma KeyOutlivesHold(hold: Hold, now: int, written: int, ttl: int)
    requires IsCeiling(hold.expiresAt - now, ttl) && now <= written
    ensures hold.expiresAt <= written + ttl * SECOND < hold.expiresAt + SECOND + (written - now)
  {
  }

  /** A hold that reads back as confirmable is confirmable, and its key is still alive; what flooring costs
      is less than the last second of the window. */
  lemma ReadBackIsConservative(hold: Hold, now: int, written: int, ttl: int, at: int)
    requires IsCeiling(hold.expiresAt - now, ttl) && now <= written
    ensures Holds.WholeSecond(hold).CanBeConfirmed(at) ==> hold.CanBeConfirmed(at) && at < written + ttl * SECOND
    ensures hold.CanBeConfirmed(at) && at <= hold.expiresAt - SECOND ==> Holds.WholeSecond(hold).CanBeConfirmed(at)
    ensures Holds.WholeSecond(hold).CanBeConfirmed(at) <==>
            hold.CanBeConfirmed(at) && at < hold.expiresAt - hold.expiresAt % SECOND
  {
    KeyOutlivesHold(hold, now, written, ttl);
  }
}
