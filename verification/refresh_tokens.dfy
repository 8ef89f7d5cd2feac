/** The refresh-token ledger: rotation, theft revocation and logout over families of tokens. */
module RefreshTokens {
  import opened Domain

  datatype Token = Token(id: Id, user: Id, family: Id, hash: Id, expiresAt: int, revokedAt: Option<int>,
      replacedBy: Id) {
    predicate IsExpired(now: int) { !(now < expiresAt) }

    predicate IsRevoked() { revokedAt.Some? }

    predicate IsReplaced() { replacedBy != NoId }

    predicate IsActive(now: int) { !IsRevoked() && !IsReplaced() && !IsExpired(now) }

    predicate ReuseIsTheft() { IsReplaced() || IsRevoked() }
  }

  datatype Rotation = Rotated(token: Token) | Unknown | Reused | Expired

  type Tokens = map<Id, Token>

  function Revoked(row: Token, now: int): Token {
    if row.IsRevoked() then row else row.(revokedAt := Some(now))
  }

  function RevokeFamily(t: Tokens, family: Id, now: int): Tokens {
    map h | h in t :: if t[h].family == family then Revoked(t[h], now) else t[h]
  }

  /** The successor as stored: user and family are stamped from the consumed row. */
  function Successor(row: Token, next: Token): Token { next.(user := row.user, family := row.family) }

  function Rotate(t: Tokens, hash: Id, next: Token, now: int): (Rotation, Tokens) {
    if hash !in t then (Unknown, t)
    else
      var row := t[hash];
      if row.ReuseIsTheft() then (Reused, RevokeFamily(t, row.family, now))
      else if row.IsExpired(now) then (Expired, t)
      else
        var stored := Successor(row, next);
        (Rotated(stored), t[hash := row.(replacedBy := next.id)][next.hash := stored])
  }

  /** Every row of the family that was not revoked is revoked at this moment, and nothing else has changed. */
  ghost predicate OnlyRevoked(t: Tokens, u: Tokens, family: Id, now: int) {
    && u.Keys == t.Keys
    && forall h :: h in t ==>
         u[h] == if t[h].family == family && t[h].revokedAt.None? then t[h].(revokedAt := Some(now)) else t[h]
  }

  /** Which answer a rotation gives: reuse is told from expiry by what happened to the token, never by the clock, and
      only an unexpired token that is neither replaced nor revoked rotates, into a successor of its own user and
      family; reuse revokes the family; anything else changes nothing. */
  lemma RotationDecides(t: Tokens, hash: Id, next: Token, now: int)
    ensures var (answer, u) := Rotate(t, hash, next, now);
            && (answer.Unknown? <==> hash !in t)
            && (answer.Reused? <==> hash in t && (t[hash].replacedBy != NoId || t[hash].revokedAt.Some?))
            && (answer.Rotated? <==>
                  hash in t && t[hash].replacedBy == NoId && t[hash].revokedAt.None? && now < t[hash].expiresAt)
            && (answer.Expired? <==>
                  hash in t && t[hash].replacedBy == NoId && t[hash].revokedAt.None? && t[hash].expiresAt <= now)
            && (answer.Unknown? || answer.Expired? ==> u == t)
            && (answer.Rotated? ==>
                  answer.token == next.(user := t[hash].user, family := t[hash].family) &&
                  (next.hash != hash ==> u == t[hash := t[hash].(replacedBy := next.id)][next.hash := answer.token]))
            && (answer.Reused? ==> OnlyRevoked(t, u, t[hash].family, now))
  {
  }

  class RefreshTokenStore {
    var byHash: Tokens

    constructor ()
      ensures byHash == map[]
    {
      byHash := map[];
    }

    method Create(row: Token) returns (stored: Token)
      modifies this
      ensures stored == row && byHash == old(byHash)[row.hash := row]
    {
      stored := row;
      byHash := byHash[row.hash := stored];
    }

    method GetByHash(hash: Id) returns (r: Option<Token>)
      ensures r == if hash in byHash then Some(byHash[hash]) else None
    {
      r := if hash in byHash then Some(byHash[hash]) else None;
    }

    method RotateToken(hash: Id, next: Token, now: int) returns (r: Rotation)
      modifies this
      ensures (r, byHash) == Rotate(old(byHash), hash, next, now)
    {
      if hash !in byHash {
        return Unknown;
      }
      var row := byHash[hash];
      if row.ReuseIsTheft() {
        Revoke(row.family, now);
        return Reused;
      }
      if row.IsExpired(now) {
        return Expired;
      }
      var stored := next.(user := row.user, family := row.family);
      byHash := byHash[hash := row.(replacedBy := next.id)];
      byHash := byHash[next.hash := stored];
      r := Rotated(stored);
    }

    /** Marks every row of the family that is not revoked yet; rows keep an earlier revocation time. */
    method Revoke(family: Id, now: int)
      modifies this
      ensures byHash == RevokeFamily(old(byHash), family, now)
    {
      ghost var before := byHash;
      var todo := byHash.Keys;
      while todo != {}
        invariant todo <= before.Keys == byHash.Keys
        invariant forall h :: h in before ==>
                    byHash[h] == if h !in todo && before[h].family == family then Revoked(before[h], now) else before[h]
        decreases todo
      {
        var h :| h in todo;
        if byHash[h].family == family && byHash[h].revokedAt.None? {
          byHash := byHash[h := byHash[h].(revokedAt := Some(now))];
        }
        todo := todo - {h};
      }
    }
  }

  // ----- the callers: register and login, refresh, logout in two steps -----

  /** lookups holds the family each pending logout has found; chains and the rest are a record of the past. */
  datatype State = State(tokens: Tokens, now: int, lookups: map<nat, Id>, chains: map<Id, seq<Id>>)

  datatype Step =
    | NewSession(row: Token)
    | Refresh(hash: Id, next: Token)
    | LogoutLookup(r: nat, hash: Id)
    | LogoutRevoke(r: nat)
    | Tick(to: int)

  function Empty(now: int): State { State(map[], now, map[], map[]) }

  /** Identifiers, hashes and families are minted anew and tokens are born active; a logout revokes only what it
      looked up; time does not go back. */
  ghost predicate Allowed(s: State, step: Step) {
    match step
    case NewSession(row) => NewToken(s, row) && row.family !in s.chains
    case Refresh(_, next) => NewToken(s, next)
    case LogoutRevoke(r) => r in s.lookups
    case Tick(to) => s.now <= to
    case _ => true
  }

  ghost predicate NewToken(s: State, row: Token) {
    && row.hash !in s.tokens && row.id != NoId && (forall h :: h in s.tokens ==> s.tokens[h].id != row.id)
    && row.revokedAt.None? && row.replacedBy == NoId
  }

  function Outcome(s: State, step: Step): Rotation {
    if step.Refresh? then Rotate(s.tokens, step.hash, step.next, s.now).0 else Unknown
  }

  function Apply(s: State, step: Step): State {
    match step
    case NewSession(row) => s.(tokens := s.tokens[row.hash := row], chains := s.chains[row.family := [row.hash]])
    case Refresh(hash, next) =>
      var (answer, tokens) := Rotate(s.tokens, hash, next, s.now);
      s.(tokens := tokens,
         chains := if answer.Rotated? && answer.token.family in s.chains
                   then s.chains[answer.token.family := s.chains[answer.token.family] + [next.hash]] else s.chains)
    case LogoutLookup(r, hash) => if hash in s.tokens then s.(lookups := s.lookups[r := s.tokens[hash].family]) else s
    case LogoutRevoke(r) => if r in s.lookups then s.(tokens := RevokeFamily(s.tokens, s.lookups[r], s.now)) else s
    case Tick(to) => s.(now := to)
  }

  // ----- the invariant: families are chains -----

  /** The family's rows are exactly the chain's, each replaced by the next, the last by none, one user's all. */
  ghost predicate IsChain(t: Tokens, family: Id, chain: seq<Id>) {
    && |chain| > 0
    && (forall i :: 0 <= i < |chain| ==> chain[i] in t && t[chain[i]].family == family)
    && (forall i :: 0 <= i < |chain| ==> t[chain[i]].user == t[chain[0]].user)
    && (forall i, j :: 0 <= i < j < |chain| ==> chain[i] != chain[j])
    && (forall h :: h in t && t[h].family == family ==> h in chain)
    && (forall i :: 0 <= i < |chain| - 1 ==> t[chain[i]].replacedBy == t[chain[i + 1]].id)
    && t[chain[|chain| - 1]].replacedBy == NoId
  }

  ghost predicate Identified(t: Tokens) {
    && (forall h :: h in t ==> t[h].hash == h && t[h].id != NoId)
    && (forall h, g :: h in t && g in t && t[h].id == t[g].id ==> h == g)
  }

  ghost predicate Inv(s: State) {
    && Identified(s.tokens)
    && (forall h :: h in s.tokens ==> s.tokens[h].family in s.chains)
    && (forall f :: f in s.chains ==> IsChain(s.tokens, f, s.chains[f]))
  }

  /** Only the end of a chain is unreplaced, so only it can rotate. */
  lemma UnreplacedIsLast(t: Tokens, family: Id, chain: seq<Id>, h: Id)
    requires Identified(t) && IsChain(t, family, chain) && h in t && t[h].family == family && !t[h].IsReplaced()
    ensures h == chain[|chain| - 1]
  {
    forall i | 0 <= i < |chain| - 1 ensures t[chain[i]].IsReplaced() {
      assert t[chain[i]].replacedBy == t[chain[i + 1]].id;
    }
  }

  lemma RevocationKeepsChain(t: Tokens, family: Id, now: int, f: Id, chain: seq<Id>)
    requires IsChain(t, f, chain)
    ensures IsChain(RevokeFamily(t, family, now), f, chain)
  {
  }

  lemma RevocationInv(s: State, family: Id)
    requires Inv(s)
    ensures Inv(s.(tokens := RevokeFamily(s.tokens, family, s.now)))
  {
    hide IsChain;
    var u := RevokeFamily(s.tokens, family, s.now);
    assert Identified(u);
    forall f | f in s.chains ensures IsChain(u, f, s.chains[f]) {
      RevocationKeepsChain(s.tokens, family, s.now, f, s.chains[f]);
    }
  }

  lemma NewRowKeepsOthers(t: Tokens, row: Token, f: Id, chain: seq<Id>)
    requires IsChain(t, f, chain) && f != row.family && row.hash !in t
    ensures IsChain(t[row.hash := row], f, chain)
  {
  }

  lemma NewFamilyIsChain(t: Tokens, row: Token)
    requires (forall h :: h in t ==> t[h].family != row.family) && row.replacedBy == NoId
    ensures IsChain(t[row.hash := row], row.family, [row.hash])
  {
  }

  lemma NewSessionInv(s: State, row: Token)
    requires Inv(s) && Allowed(s, NewSession(row))
    ensures Inv(Apply(s, NewSession(row)))
  {
    hide IsChain;
    var t := Apply(s, NewSession(row));
    NewFamilyIsChain(s.tokens, row);
    forall f | f in s.chains ensures IsChain(t.tokens, f, s.chains[f]) {
      NewRowKeepsOthers(s.tokens, row, f, s.chains[f]);
    }
  }

  lemma RotationExtendsChain(t: Tokens, chain: seq<Id>, hash: Id, next: Token, now: int)
    requires Identified(t) && hash in t && IsChain(t, t[hash].family, chain)
    requires Rotate(t, hash, next, now).0.Rotated? && next.hash !in t && next.replacedBy == NoId && next.id != NoId
    ensures IsChain(Rotate(t, hash, next, now).1, t[hash].family, chain + [next.hash])
  {
    UnreplacedIsLast(t, t[hash].family, chain, hash);
    var u := Rotate(t, hash, next, now).1;
    var longer := chain + [next.hash];
    assert longer[|chain|] == next.hash;
    forall i | 0 <= i < |longer| - 1 ensures u[longer[i]].replacedBy == u[longer[i + 1]].id {
      if i < |chain| - 1 {
        assert t[chain[i]].replacedBy == t[chain[i + 1]].id;
      }
    }
    forall h | h in u && u[h].family == t[hash].family ensures h in longer {
      if h != next.hash {
        assert h in chain;
      }
    }
  }

  lemma RotationKeepsOthers(t: Tokens, hash: Id, next: Token, now: int, f: Id, chain: seq<Id>)
    requires hash in t && IsChain(t, f, chain) && f != t[hash].family
    requires Rotate(t, hash, next, now).0.Rotated? && next.hash !in t
    ensures IsChain(Rotate(t, hash, next, now).1, f, chain)
  {
  }

  lemma RotationIdentified(t: Tokens, hash: Id, next: Token, now: int)
    requires Identified(t) && Rotate(t, hash, next, now).0.Rotated?
    requires next.hash !in t && next.id != NoId && (forall h :: h in t ==> t[h].id != next.id)
    ensures var u := Rotate(t, hash, next, now).1;
            && Identified(u) && u.Keys == t.Keys + {next.hash}
            && (forall h :: h in t ==> u[h].family == t[h].family)
            && u[next.hash].family == t[hash].family
  {
  }

  lemma RotatedInv(s: State, hash: Id, next: Token)
    requires Inv(s) && NewToken(s, next) && Rotate(s.tokens, hash, next, s.now).0.Rotated?
    ensures var f := s.tokens[hash].family;
            Inv(s.(tokens := Rotate(s.tokens, hash, next, s.now).1, chains := s.chains[f := s.chains[f] + [next.hash]]))
  {
    hide IsChain;
    RotationIdentified(s.tokens, hash, next, s.now);
    var f := s.tokens[hash].family;
    RotationExtendsChain(s.tokens, s.chains[f], hash, next, s.now);
    forall g | g in s.chains && g != f ensures IsChain(Rotate(s.tokens, hash, next, s.now).1, g, s.chains[g]) {
      RotationKeepsOthers(s.tokens, hash, next, s.now, g, s.chains[g]);
    }
    hide Rotate, Identified;
  }

  lemma RefreshInv(s: State, hash: Id, next: Token)
    requires Inv(s) && Allowed(s, Refresh(hash, next))
    ensures Inv(Apply(s, Refresh(hash, next)))
  {
    hide IsChain, Identified, RevokeFamily;
    var answer := Rotate(s.tokens, hash, next, s.now).0;
    if answer.Reused? {
      RevocationInv(s, s.tokens[hash].family);
    } else if answer.Rotated? {
      RotatedInv(s, hash, next);
    }
  }

  lemma ApplyInv(s: State, step: Step)
    requires Inv(s) && Allowed(s, step)
    ensures Inv(Apply(s, step))
  {
    match step
    case NewSession(row) => NewSessionInv(s, row);
    case Refresh(hash, next) => RefreshInv(s, hash, next);
    case LogoutRevoke(r) => RevocationInv(s, s.lookups[r]);
    case _ =>
  }

  // ----- runs -----

  function ApplyAll(s: State, steps: seq<Step>): State
    decreases |steps|
  {
    if steps == [] then s else ApplyAll(Apply(s, steps[0]), steps[1..])
  }

  ghost predicate AllowedRun(s: State, steps: seq<Step>)
    decreases |steps|
  {
    steps == [] || (Allowed(s, steps[0]) && AllowedRun(Apply(s, steps[0]), steps[1..]))
  }

  predicate RotatesIn(s: State, step: Step, family: Id) {
    Outcome(s, step).Rotated? && Outcome(s, step).token.family == family
  }

  /** How often a run rotates a token of the family. */
  function Rotations(s: State, steps: seq<Step>, family: Id): nat
    decreases |steps|
  {
    if steps == [] then 0
    else (if RotatesIn(s, steps[0], family) then 1 else 0) + Rotations(Apply(s, steps[0]), steps[1..], family)
  }

  /** How often a run rotates this very token. */
  function RotationsOf(s: State, steps: seq<Step>, hash: Id): nat
    decreases |steps|
  {
    if steps == [] then 0
    else (if steps[0].Refresh? && steps[0].hash == hash && Outcome(s, steps[0]).Rotated? then 1 else 0)
         + RotationsOf(Apply(s, steps[0]), steps[1..], hash)
  }

  lemma ChainStep(s: State, step: Step, family: Id)
    requires Allowed(s, step) && family in s.chains
    ensures family in Apply(s, step).chains
    ensures |Apply(s, step).chains[family]| == |s.chains[family]| + if RotatesIn(s, step, family) then 1 else 0
  {
  }

  /** In every run each family stays one linear chain, longer by exactly its successful rotations. */
  lemma {:induction false} FamiliesAreChains(s: State, steps: seq<Step>, family: Id)
    requires Inv(s) && AllowedRun(s, steps)
    ensures Inv(ApplyAll(s, steps))
    ensures family in s.chains ==>
              family in ApplyAll(s, steps).chains &&
              |ApplyAll(s, steps).chains[family]| == |s.chains[family]| + Rotations(s, steps, family)
    decreases |steps|
  {
    if steps != [] {
      hide Inv, Allowed, Apply, RotatesIn;
      ApplyInv(s, steps[0]);
      if family in s.chains {
        ChainStep(s, steps[0], family);
      }
      FamiliesAreChains(Apply(s, steps[0]), steps[1..], family);
    }
  }

  function Family(t: Tokens, family: Id): set<Id> { set h | h in t && t[h].family == family }

  lemma ChainCovers(t: Tokens, family: Id, chain: seq<Id>)
    requires IsChain(t, family, chain)
    ensures |Family(t, family)| == |chain|
  {
    ChainCounts(chain);
    assert Family(t, family) == set h | h in chain;
  }

  /** A family created by a session has, after any run, one row plus one per successful rotation. */
  lemma FamilySize(s: State, row: Token, steps: seq<Step>)
    requires Inv(s) && Allowed(s, NewSession(row)) && AllowedRun(Apply(s, NewSession(row)), steps)
    ensures var born := Apply(s, NewSession(row));
            |Family(ApplyAll(born, steps).tokens, row.family)| == 1 + Rotations(born, steps, row.family)
  {
    hide IsChain, Identified;
    var born := Apply(s, NewSession(row));
    ApplyInv(s, NewSession(row));
    FamiliesAreChains(born, steps, row.family);
    var end := ApplyAll(born, steps);
    ChainCovers(end.tokens, row.family, end.chains[row.family]);
  }

  lemma {:induction false} ChainCounts(chain: seq<Id>)
    requires forall i, j :: 0 <= i < j < |chain| ==> chain[i] != chain[j]
    ensures |set h | h in chain| == |chain|
  {
    if chain != [] {
      var front := chain[..|chain| - 1];
      ChainCounts(front);
      assert (set h | h in chain) == (set h | h in front) + {chain[|chain| - 1]};
    } else {
      assert (set h | h in chain) == {};
    }
  }

  // ----- theft and logout -----

  /** The family exists and every one of its tokens is revoked. */
  ghost predicate Dead(s: State, family: Id) {
    family in s.chains && forall h :: h in s.tokens && s.tokens[h].family == family ==> s.tokens[h].IsRevoked()
  }

  lemma RevocationKills(s: State, family: Id)
    requires family in s.chains
    ensures var u := s.(tokens := RevokeFamily(s.tokens, family, s.now));
            Dead(u, family) && OnlyRevoked(s.tokens, u.tokens, family, s.now)
  {
  }

  /** A rotation answered as reuse, and a completed logout, revoke the whole family at that moment, keep the times of
      earlier revocations, and touch no other family. */
  lemma TheftAndLogoutKill(s: State, step: Step)
    requires Inv(s) && LookupsKnown(s) && Allowed(s, step)
    ensures Outcome(s, step) == Reused ==>
              step.Refresh? && step.hash in s.tokens &&
              var f := s.tokens[step.hash].family;
              Dead(Apply(s, step), f) && OnlyRevoked(s.tokens, Apply(s, step).tokens, f, s.now)
    ensures step.LogoutRevoke? ==>
              var f := s.lookups[step.r];
              Dead(Apply(s, step), f) && OnlyRevoked(s.tokens, Apply(s, step).tokens, f, s.now)
  {
    hide IsChain, Identified, Dead, OnlyRevoked, RevokeFamily;
    if step.LogoutRevoke? {
      RevocationKills(s, s.lookups[step.r]);
    } else if Outcome(s, step) == Reused {
      RevocationKills(s, s.tokens[step.hash].family);
      assert Apply(s, step) == s.(tokens := RevokeFamily(s.tokens, s.tokens[step.hash].family, s.now));
    }
  }

  /** What a pending logout has found is a family of the ledger, so its revocation kills it. */
  ghost predicate LookupsKnown(s: State) {
    forall r :: r in s.lookups ==> s.lookups[r] in s.chains
  }

  lemma LookupsStayKnown(s: State, step: Step)
    requires Inv(s) && Allowed(s, step) && LookupsKnown(s)
    ensures LookupsKnown(Apply(s, step))
  {
  }

  /** What a step may do to a row that exists: leave it, revoke it as of now, or replace it if this step rotates it. */
  lemma RowStep(s: State, step: Step, h: Id)
    requires Identified(s.tokens) && Allowed(s, step) && h in s.tokens
    ensures var u := Apply(s, step).tokens;
            && h in u
            && u[h] == s.tokens[h].(revokedAt := u[h].revokedAt, replacedBy := u[h].replacedBy)
            && (u[h].revokedAt == s.tokens[h].revokedAt ||
                (s.tokens[h].revokedAt.None? && u[h].revokedAt == Some(s.now)))
            && (u[h].replacedBy == s.tokens[h].replacedBy ||
                (step.Refresh? && step.hash == h && Outcome(s, step).Rotated? && u[h].replacedBy == step.next.id))
            && (s.tokens[h].ReuseIsTheft() ==> u[h].ReuseIsTheft())
  {
  }

  lemma {:induction false} RowOn(s: State, steps: seq<Step>, h: Id)
    requires Inv(s) && AllowedRun(s, steps) && h in s.tokens
    ensures var u := ApplyAll(s, steps).tokens;
            h in u && u[h] == s.tokens[h].(revokedAt := u[h].revokedAt, replacedBy := u[h].replacedBy)
    decreases |steps|
  {
    hide IsChain, Allowed, Apply;
    if steps != [] {
      ApplyInv(s, steps[0]);
      RowStep(s, steps[0], h);
      RowOn(Apply(s, steps[0]), steps[1..], h);
    }
  }

  /** After any run a token still rotates exactly if the expiry it was stored with lies ahead and the run has neither
      replaced nor revoked it; no step moves the expiry. */
  lemma RotatesUntilExpiry(s: State, steps: seq<Step>, h: Id, next: Token)
    requires Inv(s) && AllowedRun(s, steps) && h in s.tokens
    ensures var end := ApplyAll(s, steps);
            && h in end.tokens
            && (Outcome(end, Refresh(h, next)).Rotated? <==>
                  end.now < s.tokens[h].expiresAt && end.tokens[h].replacedBy == NoId &&
                  end.tokens[h].revokedAt.None?)
  {
    hide Inv, Allowed, Apply;
    RowOn(s, steps, h);
  }

  /** New rows join a family by rotation only. */
  lemma NewRowStep(s: State, step: Step, h: Id)
    requires Allowed(s, step) && h in Apply(s, step).tokens && h !in s.tokens
    ensures Apply(s, step).tokens[h].family !in s.chains || RotatesIn(s, step, Apply(s, step).tokens[h].family)
  {
  }

  lemma DeadNeverRotates(s: State, step: Step, family: Id)
    requires Dead(s, family)
    ensures !RotatesIn(s, step, family)
  {
  }

  lemma DeadStays(s: State, step: Step, family: Id)
    requires Inv(s) && Allowed(s, step) && Dead(s, family)
    ensures Dead(Apply(s, step), family) && !RotatesIn(s, step, family)
  {
    hide IsChain, Identified, Allowed, Apply, RotatesIn;
    DeadNeverRotates(s, step, family);
    ChainStep(s, step, family);
    var u := Apply(s, step).tokens;
    forall h | h in u && u[h].family == family ensures u[h].IsRevoked() {
      if h in s.tokens {
        RowStep(s, step, h);
      } else {
        NewRowStep(s, step, h);
      }
    }
  }

  /** A dead family stays dead in every run, and no token of it rotates again. */
  lemma {:induction false} DeadForGood(s: State, steps: seq<Step>, family: Id)
    requires Inv(s) && AllowedRun(s, steps) && Dead(s, family)
    ensures Dead(ApplyAll(s, steps), family) && Rotations(s, steps, family) == 0
    decreases |steps|
  {
    if steps != [] {
      hide Inv, Allowed, Apply, RotatesIn, Dead;
      ApplyInv(s, steps[0]);
      DeadStays(s, steps[0], family);
      DeadForGood(Apply(s, steps[0]), steps[1..], family);
    }
  }

  /** A token known to the ledger that may no longer rotate. */
  predicate Spent(s: State, hash: Id) { hash in s.tokens && s.tokens[hash].ReuseIsTheft() }

  lemma SpentStays(s: State, step: Step, hash: Id)
    requires Inv(s) && Allowed(s, step) && Spent(s, hash)
    ensures Spent(Apply(s, step), hash)
    ensures !(step.Refresh? && step.hash == hash && Outcome(s, step).Rotated?)
  {
    hide IsChain, Identified, Allowed, Apply;
    RowStep(s, step, hash);
  }

  lemma RotationSpends(s: State, hash: Id, next: Token)
    requires next.hash !in s.tokens && next.id != NoId && Outcome(s, Refresh(hash, next)).Rotated?
    ensures Spent(Apply(s, Refresh(hash, next)), hash)
  {
  }

  /** Each token rotates successfully at most once in any run, and never once it is spent. */
  lemma {:induction false} RotatesAtMostOnce(s: State, steps: seq<Step>, hash: Id)
    requires Inv(s) && AllowedRun(s, steps)
    ensures RotationsOf(s, steps, hash) <= if Spent(s, hash) then 0 else 1
    decreases |steps|
  {
    if steps != [] {
      hide Inv, Apply, Outcome, Spent;
      ApplyInv(s, steps[0]);
      RotatesAtMostOnce(Apply(s, steps[0]), steps[1..], hash);
      if Spent(s, hash) {
        SpentStays(s, steps[0], hash);
      } else if steps[0].Refresh? && steps[0].hash == hash && Outcome(s, steps[0]).Rotated? {
        RotationSpends(s, hash, steps[0].next);
      }
    }
  }

  lemma EmptyInv(now: int)
    ensures Inv(Empty(now)) && LookupsKnown(Empty(now))
  {
  }
}
