/** The token use cases as the service runs them on the refresh-token store: open a session, refresh, log out.
    Other requests act before each call of the store. */
module AuthServices {
  import opened Domain
  import opened RefreshTokens

  /** The ledger the run leads to from an empty one. */
  function Reached(epoch: int, run: seq<Step>): State { ApplyAll(Empty(epoch), run) }

  /** A lawful run reaches a lawful ledger, and so does each of its continuations from there. */
  lemma {:induction false} RunsOn(s: State, run: seq<Step>, more: seq<Step>)
    requires AllowedRun(s, run) && AllowedRun(ApplyAll(s, run), more)
    ensures AllowedRun(s, run + more) && ApplyAll(s, run + more) == ApplyAll(ApplyAll(s, run), more)
    decreases |run|
  {
    hide Allowed, Apply;
    if run == [] {
      assert run + more == more;
    } else {
      assert (run + more)[0] == run[0] && (run + more)[1..] == run[1..] + more;
      RunsOn(Apply(s, run[0]), run[1..], more);
    }
  }

  /** A token once stored stays, in its family. */
  lemma {:induction false} RunKeepsRow(s: State, run: seq<Step>, h: Id)
    requires Inv(s) && AllowedRun(s, run) && h in s.tokens
    ensures h in ApplyAll(s, run).tokens && ApplyAll(s, run).tokens[h].family == s.tokens[h].family
    decreases |run|
  {
    hide Allowed, Apply, IsChain;
    if run != [] {
      ApplyInv(s, run[0]);
      RowStep(s, run[0], h);
      RunKeepsRow(Apply(s, run[0]), run[1..], h);
    }
  }

  /** A pending logout's lookup is its own. */
  lemma {:induction false} RunKeepsLookup(s: State, run: seq<Step>, r: nat)
    requires r in s.lookups && (forall i :: 0 <= i < |run| ==> !(run[i].LogoutLookup? && run[i].r == r))
    ensures r in ApplyAll(s, run).lookups && ApplyAll(s, run).lookups[r] == s.lookups[r]
    decreases |run|
  {
    if run != [] {
      var next := Apply(s, run[0]);
      assert r in next.lookups && next.lookups[r] == s.lookups[r];
      RunKeepsLookup(next, run[1..], r);
    }
  }

  /** Every identifier, hash and family in use is numbered below the next one. */
  ghost predicate Below(s: State, nextId: nat) {
    && (forall n: nat :: Id(n) in s.tokens ==> n < nextId)
    && (forall h, n: nat :: h in s.tokens && s.tokens[h].id == Id(n) ==> n < nextId)
    && (forall n: nat :: Id(n) in s.chains ==> n < nextId)
  }

  class Service {
    const tokens: RefreshTokenStore
    const refreshTTL: int
    const epoch: int
    var clock: int
    var nextId: nat
    var nextLogout: nat
    ghost var run: seq<Step>

    ghost function Now(): State
      reads this
    {
      Reached(epoch, run)
    }

    ghost predicate Valid()
      reads this, tokens
    {
      && AllowedRun(Empty(epoch), run) && Inv(Now()) && LookupsKnown(Now())
      && Now().tokens == tokens.byHash && Now().now == clock
      && Below(Now(), nextId)
      && (forall i :: 0 <= i < |run| && run[i].LogoutLookup? ==> run[i].r < nextLogout)
    }

    constructor (refreshTTL: int, epoch: int)
      ensures Valid() && fresh(tokens) && run == []
    {
      tokens := new RefreshTokenStore();
      this.refreshTTL, this.epoch, clock, nextId, nextLogout, run := refreshTTL, epoch, epoch, 0, 0, [];
    }

    /** Any steps of other requests and of the clock, none of them a lookup in the name of this logout. Callers
        know the contract only; doing nothing is one way to meet it. */
    method Interfere(ghost logout: nat) returns (ghost others: seq<Step>)
      requires Valid()
      modifies this, tokens
      ensures Valid() && run == old(run) + others && nextLogout >= old(nextLogout)
      ensures AllowedRun(old(Now()), others) && Now() == ApplyAll(old(Now()), others)
      ensures forall i :: 0 <= i < |others| ==> !(others[i].LogoutLookup? && others[i].r == logout)
    {
      others := [];
    }

    /** The step goes into the record; the store has been brought to where it leads. */
    ghost method Record(step: Step)
      requires AllowedRun(Empty(epoch), run) && Inv(Now()) && LookupsKnown(Now()) && Allowed(Now(), step)
      modifies this`run
      ensures run == old(run) + [step] && AllowedRun(Empty(epoch), run) && Now() == Apply(old(Now()), step)
      ensures Inv(Now()) && LookupsKnown(Now())
    {
      hide Allowed, Apply, Inv, LookupsKnown;
      ApplyInv(Now(), step);
      LookupsStayKnown(Now(), step);
      RunsOn(Empty(epoch), run, [step]);
      run := run + [step];
    }

    /** Register and login: the first token of a fresh family. A lost reply leaves the row behind. */
    method NewSession(user: Id, store: Net) returns (r: Option<Token>)
      requires Valid()
      modifies this, tokens
      ensures Valid() && old(run) <= run && (r.Some? <==> store.Answered?)
      ensures !store.Dropped? ==>
                && old(run) < run && run[|run| - 1].NewSession?
                && run[|run| - 1].row.expiresAt == old(clock) + refreshTTL
      ensures r.Some? ==>
                && var row := r.value;
                && run[|run| - 1] == RefreshTokens.NewSession(row)
                && row.user == user && row.family !in old(Now().chains)
                && row.expiresAt == old(clock) + refreshTTL && row.revokedAt.None? && row.replacedBy == NoId
                && row.hash in Now().tokens && Now().tokens[row.hash] == row &&
                   Family(Now().tokens, row.family) == {row.hash}
    {
      hide Reached, ApplyAll, AllowedRun, Allowed, Apply, Below, Inv, LookupsKnown, Family;
      ghost var s0 := Now();
      var expiresAt := clock + refreshTTL;
      ghost var others := Interfere(0);
      if store.Dropped? {
        return None;
      }
      var row := Token(Id(nextId), user, Id(nextId + 1), Id(nextId + 2), expiresAt, None, NoId);
      NewSessionLands(Now(), row, nextId);
      NewFamily(s0, others, row.family);
      Record(RefreshTokens.NewSession(row));
      nextId := nextId + 3;
      var stored := tokens.Create(row);
      r := if store.Answered? then Some(stored) else None;
    }

    /** One rotation of the presented token, NoId being the empty credential, then the lookup of its user. Unless the
        store call fails, the rotation stands, whatever reply or lookup is lost: reuse leaves the whole family dead,
        and a success chains the new token to the presented one. */
    method Refresh(presented: Id, store: Net, users: Net) returns (r: Option<Rotation>)
      requires Valid()
      modifies this, tokens
      ensures Valid() && old(run) <= run
      ensures presented == NoId ==> r == Some(Unknown) && run == old(run)
      ensures store.Answered? && users.Answered? ==> r.Some?
      ensures presented != NoId && !store.Answered? ==> r.None?
      ensures presented != NoId && !store.Dropped? ==>
                && old(run) < run && run[|run| - 1].Refresh? && run[|run| - 1].hash == presented
                && run[|run| - 1].next.expiresAt == old(clock) + refreshTTL
                && var answer := Outcome(Reached(epoch, run[..|run| - 1]), run[|run| - 1]);
                && (r.Some? ==> r.value == answer) && (r.None? && store.Answered? ==> answer.Rotated?)
                && Settled(Now(), presented, answer)
      ensures r.Some? && r.value.Rotated? ==> r.value.token.expiresAt == old(clock) + refreshTTL
    {
      hide Reached, ApplyAll, AllowedRun, Allowed, Apply, Below, Inv, LookupsKnown, Outcome, Rotate, Settled,
           OnlyRevoked;
      if presented == NoId {
        return Some(Unknown);
      }
      var expiresAt := clock + refreshTTL;
      ghost var others := Interfere(0);
      if store.Dropped? {
        return None;
      }
      ghost var before, s := run, Now();
      var next := Token(Id(nextId), NoId, NoId, Id(nextId + 1), expiresAt, None, NoId);
      RefreshLands(s, presented, next, nextId);
      RotationDecides(s.tokens, presented, next, s.now);
      var answer := tokens.RotateToken(presented, next, clock);
      Record(RefreshTokens.Refresh(presented, next));
      nextId := nextId + 2;
      assert run[..|run| - 1] == before;
      RefreshSettles(s, presented, next);
      if !store.Answered? || (answer.Rotated? && !users.Answered?) {
        return None;
      }
      r := Some(answer);
    }

    /** Lookup, then revocation of whatever family was found. Once this succeeds, every token of the presented token's
        family is dead, whatever happened in between; an unknown token needs no revocation. */
    method Logout(presented: Id, lookup: Net, revoke: Net) returns (ok: bool)
      requires Valid()
      modifies this, tokens
      ensures Valid() && old(run) <= run
      ensures presented == NoId ==> ok && run == old(run)
      ensures lookup.Answered? && revoke.Answered? ==> ok
      ensures ok && presented != NoId ==> lookup.Answered?
      ensures presented != NoId && presented in old(Now().tokens) && lookup.Answered? && !revoke.Dropped? ==>
                Dead(Now(), old(Now().tokens[presented].family))
      ensures ok && presented != NoId && presented in old(Now().tokens) ==>
        Dead(Now(), old(Now().tokens[presented].family))
    {
      hide Reached, ApplyAll, AllowedRun, Allowed, Apply, Below, Inv, LookupsKnown, RevokeFamily, Dead;
      if presented == NoId {
        return true;
      }
      ghost var start := Now();
      ghost var first := Interfere(0);
      if !lookup.Answered? {
        return false;
      }
      if presented in start.tokens {
        RunKeepsRow(start, first, presented);
      }
      var logout := nextLogout;
      nextLogout := nextLogout + 1;
      LookupLands(Now(), logout, presented, nextId);
      Record(LogoutLookup(logout, presented));
      var row := tokens.GetByHash(presented);
      if row.None? {
        return true;
      }
      ghost var found := Now();
      ghost var second := Interfere(logout);
      if revoke.Dropped? {
        return false;
      }
      RunKeepsLookup(found, second, logout);
      RevokeLands(Now(), logout, nextId);
      Record(LogoutRevoke(logout));
      tokens.Revoke(row.value.family, clock);
      ok := revoke.Answered?;
    }
  }

  /** Families once opened stay. */
  lemma {:induction false} RunKeepsFamily(s: State, run: seq<Step>, f: Id)
    requires AllowedRun(s, run) && f in s.chains
    ensures f in ApplyAll(s, run).chains
    decreases |run|
  {
    hide Allowed, Apply, RotatesIn;
    if run != [] {
      ChainStep(s, run[0], f);
      RunKeepsFamily(Apply(s, run[0]), run[1..], f);
    }
  }

  lemma NewFamily(s0: State, others: seq<Step>, f: Id)
    requires AllowedRun(s0, others) && f !in ApplyAll(s0, others).chains
    ensures f !in s0.chains
  {
    hide AllowedRun, ApplyAll;
    if f in s0.chains {
      RunKeepsFamily(s0, others, f);
    }
  }

  lemma NewSessionLands(s: State, row: Token, nextId: nat)
    requires Inv(s) && Below(s, nextId)
    requires row.id == Id(nextId) && row.family == Id(nextId + 1) && row.hash == Id(nextId + 2)
    requires row.revokedAt.None? && row.replacedBy == NoId
    ensures var t := Apply(s, RefreshTokens.NewSession(row));
            && Allowed(s, RefreshTokens.NewSession(row)) && Below(t, nextId + 3)
            && row.family !in s.chains
            && t.tokens == s.tokens[row.hash := row] && t.now == s.now && Family(t.tokens, row.family) == {row.hash}
  {
    hide IsChain, Identified;
  }

  lemma RefreshLands(s: State, presented: Id, next: Token, nextId: nat)
    requires Inv(s) && Below(s, nextId) && next.id == Id(nextId) && next.hash == Id(nextId + 1)
    requires next.revokedAt.None? && next.replacedBy == NoId
    ensures var step := RefreshTokens.Refresh(presented, next);
            var t := Apply(s, step);
            && Allowed(s, step) && Below(t, nextId + 2) && t.now == s.now
            && (Outcome(s, step), t.tokens) == Rotate(s.tokens, presented, next, s.now)
  {
    hide IsChain, RevokeFamily;
    var step := RefreshTokens.Refresh(presented, next);
    var t := Apply(s, step);
    forall h | h in t.tokens ensures h == next.hash || h in s.tokens {
      if Outcome(s, step).Reused? {
        RevocationKeeps(s.tokens, s.tokens[presented].family, s.now, h);
      }
    }
    forall h, n: nat | h in t.tokens && t.tokens[h].id == Id(n) ensures n < nextId + 2 {
      if Outcome(s, step).Reused? {
        RevocationKeeps(s.tokens, s.tokens[presented].family, s.now, h);
      }
      assert h == next.hash || (h in s.tokens && s.tokens[h].id == Id(n));
    }
  }

  /** What a rotation leaves behind. */
  ghost predicate Settled(s: State, presented: Id, answer: Rotation) {
    && (answer.Reused? ==> presented in s.tokens && Dead(s, s.tokens[presented].family))
    && (answer.Rotated? ==>
          && presented in s.tokens && answer.token.hash in s.tokens && s.tokens[answer.token.hash] == answer.token
          && var row := s.tokens[presented];
          && row.replacedBy == answer.token.id && row.user == answer.token.user && row.family == answer.token.family
          && answer.token.revokedAt == None && answer.token.replacedBy == NoId)
  }

  lemma RefreshSettles(s: State, presented: Id, next: Token)
    requires Inv(s) && LookupsKnown(s) && Allowed(s, RefreshTokens.Refresh(presented, next))
    ensures var step := RefreshTokens.Refresh(presented, next);
            Settled(Apply(s, step), presented, Outcome(s, step))
  {
    hide Inv, LookupsKnown, Dead;
    TheftAndLogoutKill(s, RefreshTokens.Refresh(presented, next));
  }

  lemma LookupLands(s: State, r: nat, h: Id, nextId: nat)
    requires Below(s, nextId)
    ensures var t := Apply(s, LogoutLookup(r, h));
            && Allowed(s, LogoutLookup(r, h)) && Below(t, nextId) && t.tokens == s.tokens && t.now == s.now
            && (h in s.tokens ==> r in t.lookups && t.lookups[r] == s.tokens[h].family)
  {
  }

  lemma RevokeLands(s: State, r: nat, nextId: nat)
    requires Inv(s) && LookupsKnown(s) && Below(s, nextId) && r in s.lookups
    ensures var t := Apply(s, LogoutRevoke(r));
            && Allowed(s, LogoutRevoke(r)) && Below(t, nextId) && t.now == s.now && Dead(t, s.lookups[r])
            && t.tokens == RevokeFamily(s.tokens, s.lookups[r], s.now)
  {
    hide IsChain, Identified, Dead;
    TheftAndLogoutKill(s, LogoutRevoke(r));
  }

  lemma RevocationKeeps(t: Tokens, family: Id, now: int, h: Id)
    requires h in RevokeFamily(t, family, now)
    ensures h in t && RevokeFamily(t, family, now)[h].id == t[h].id
  {
  }
}
