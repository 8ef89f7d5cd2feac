/** What a hold protects: when a confirm can sell a seat whose key belongs to another session. */
module ProtocolSeats {
  import opened Domain
  import opened Protocol
  import opened ProtocolFacts
  import opened ProtocolRuns
  import opened ProtocolOrigins
  import Holds
  import Ledger
  import Sales

  // ----- every step of the protocol is at most one operation of the hold store -----

  /** The hold-store operation of a request's step. */
  function HoldsOp(op: Op, pc: Pc): Option<Holds.Op> {
    if op.OpHold? && pc.Claiming? then Some(Holds.ClaimOp(pc.hold))
    else if op.OpRelease? && pc.Start? then Some(Holds.ReleaseOp(op.session, op.user))
    else if op.OpConfirm? && pc.Cleaning? then Some(Holds.ReleaseOp(op.session, op.user))
    else None
  }

  lemma ExecHolds(w: World, me: nat, op: Op, pc: Pc, c: Choice)
    ensures var v := Exec(w, me, op, pc, c).0;
            v.holds == w.holds ||
            (HoldsOp(op, pc).Some? && v.holds == Holds.Apply(w.holds, w.max, HoldsOp(op, pc).value))
  {
    hide Holds.Apply, Holds.Answer, Sales.Commit, Ledger.Insert, Ledger.Capture, Ledger.MarkFailed, Ledger.GetActive,
         ReadHold;
  }

  /** The new store is the old one, or the old one after one operation under fresh identifiers. */
  ghost predicate Moves(s: Holds.Store, max: int, t: Holds.Store) {
    t == s || exists op :: Holds.FreshOp(s, op) && t == Holds.Apply(s, max, op)
  }

  lemma FreshClaim(w: World, me: nat, op: Op, pc: Pc)
    requires LocalOk(w, me, op, pc) && HoldsOp(op, pc).Some?
    ensures Holds.FreshOp(w.holds, HoldsOp(op, pc).value)
  {
  }

  lemma StepMoves(s: State, step: Step)
    requires Inv(s) && Enabled(s, step)
    ensures Moves(s.w.holds, s.w.max, Take(s, step).w.holds)
  {
    hide WorldOk, Holds.Apply;
    match step {
      case Act(r, c, net) =>
        var Request(op, pc) := s.reqs[r];
        hide Exec, OnError;
        ExecHolds(Mint(s.w, r, c), r, op, pc, c);
        if HoldsOp(op, pc).Some? {
          assert LocalOk(s.w, r, op, pc);
          FreshClaim(s.w, r, op, pc);
        }
      case SeatVanishes(ref) => assert Holds.FreshOp(s.w.holds, Holds.LoseSeatOp(ref));
      case SessionVanishes(x) => assert Holds.FreshOp(s.w.holds, Holds.LoseSessionOp(x));
      case _ =>
    }
  }

  // ----- what one operation does to one session -----

  /** A session that becomes granted finds its seat free, becomes the seat's latest, and is the only one to. */
  lemma GrantFindsSeatFree(s: Holds.Store, max: int, t: Holds.Store, y: Id)
    requires Holds.Inv(s, max) && Moves(s, max, t) && y !in s.granted && y in t.granted
    ensures var ref := t.granted[y].Ref();
            && ref !in s.keys.seats && ref in t.last && t.last[ref].session == y
            && (forall x :: x in t.granted && x != y ==> x in s.granted)
  {
    hide Holds.Sourced, Holds.Counted, Holds.SlotsOf;
  }

  /** Records of granted sessions only ever go. */
  lemma RecordsOnlyGo(s: Holds.Store, max: int, t: Holds.Store, x: Id)
    requires Moves(s, max, t) && x in s.granted && x in t.keys.sessions
    ensures x in s.keys.sessions
  {
    hide Holds.SlotsOf;
  }

  /** A seat's latest hold is never again one that was granted earlier. */
  lemma LatestMovesOn(s: Holds.Store, max: int, t: Holds.Store, y: Id, ref: SeatRef)
    requires Moves(s, max, t) && y in s.granted && ref in s.last && s.last[ref].session != y
    ensures ref in t.last && t.last[ref].session != y
  {
    hide Holds.SlotsOf;
  }

  // ----- over a run -----

  lemma RunMoves(run: seq<State>, i: nat)
    requires Run(run) && i + 1 < |run|
    ensures Holds.Inv(run[i].w.holds, run[i].w.max)
    ensures Moves(run[i].w.holds, run[i].w.max, run[i + 1].w.holds) && Later(run[i].w, run[i + 1].w)
  {
    hide Init, Take, Enabled, Moves, Later, Persists;
    var step := RunStep(run, i);
    StepMoves(run[i], step);
    assert HoldsOk(run[i].w);
  }

  lemma NothingGrantedYet(run: seq<State>)
    requires Run(run)
    ensures run[0].w.holds.granted == map[]
  {
    hide Take, Enabled, Next;
    assert Init(run[0]);
  }

  lemma {:induction false} WasGranted(run: seq<State>, j: nat, y: Id) returns (m: nat)
    requires Run(run) && j < |run| && y in run[j].w.holds.granted
    ensures m < j && y !in run[m].w.holds.granted && y in run[m + 1].w.holds.granted
    decreases j
  {
    hide Run;
    NothingGrantedYet(run);
    m := j - 1;
    if y in run[m].w.holds.granted {
      m := WasGranted(run, m, y);
    }
  }

  lemma GrantedStays(run: seq<State>, i: nat, j: nat, y: Id)
    requires Run(run) && i <= j < |run| && y in run[i].w.holds.granted
    ensures y in run[j].w.holds.granted && run[j].w.holds.granted[y] == run[i].w.holds.granted[y]
  {
    hide Init, Take, Enabled, Inv, Persists;
    RunLater(run, i, j);
  }

  lemma {:induction false} RecordStood(run: seq<State>, i: nat, j: nat, x: Id)
    requires Run(run) && i <= j < |run| && x in run[i].w.holds.granted && x in run[j].w.holds.keys.sessions
    ensures x in run[i].w.holds.keys.sessions
    decreases j
  {
    hide Run, Moves, Later;
    if i < j {
      GrantedStays(run, i, j - 1, x);
      RunMoves(run, j - 1);
      RecordsOnlyGo(run[j - 1].w.holds, run[j - 1].w.max, run[j].w.holds, x);
      RecordStood(run, i, j - 1, x);
    }
  }

  lemma {:induction false} NeverLatestAgain(run: seq<State>, i: nat, j: nat, y: Id, ref: SeatRef)
    requires Run(run) && i <= j < |run|
    requires var s := run[i].w.holds; y in s.granted && ref in s.last && s.last[ref].session != y
    ensures ref in run[j].w.holds.last && run[j].w.holds.last[ref].session != y
    decreases j
  {
    hide Run, Moves, Later;
    if i < j {
      NeverLatestAgain(run, i, j - 1, y, ref);
      GrantedStays(run, i, j - 1, y);
      RunMoves(run, j - 1);
      LatestMovesOn(run[j - 1].w.holds, run[j - 1].w.max, run[j].w.holds, y, ref);
    }
  }

  // ----- the read behind a commit -----

  /** A confirm that has its hold had it before the step, or reads it from a record that stands. */
  lemma StepRead(s: State, step: Step, r: nat, hold: Hold)
    requires Enabled(s, step)
    requires r in Take(s, step).reqs && Take(s, step).reqs[r].op.OpConfirm? && Take(s, step).reqs[r].pc == Read(hold)
    ensures r in s.reqs && s.reqs[r].op == Take(s, step).reqs[r].op
    ensures s.reqs[r].pc == Read(hold) || (s.reqs[r].pc == Start && s.reqs[r].op.session in s.w.holds.keys.sessions)
  {
    hide Sales.Commit, Holds.Apply, Holds.Answer, Ledger.HasCaptured, HoldExec, IntentExec, PayExec, HookExec, MapExec,
         ReleaseExec;
  }

  lemma {:induction false} HoldWasRead(run: seq<State>, j: nat, r: nat, hold: Hold) returns (i: nat)
    requires Run(run) && j < |run| && r in run[j].reqs && run[j].reqs[r].op.OpConfirm? &&
      run[j].reqs[r].pc == Read(hold)
    ensures i < j && r in run[i].reqs && run[i].reqs[r] == Request(run[j].reqs[r].op, Start)
    ensures run[j].reqs[r].op.session in run[i].w.holds.keys.sessions
    decreases j
  {
    hide Take, Enabled, Inv, Later, Persists;
    assert j > 0 by {
      assert Init(run[0]);
    }
    hide Init;
    i := j - 1;
    var step := RunStep(run, i);
    StepRead(run[i], step, r, hold);
    if run[i].reqs[r].pc == Read(hold) {
      i := HoldWasRead(run, i, r, hold);
    }
  }

  // ----- the theorem -----

  /** The seat's key carries the token of the hold granted to y. */
  ghost predicate Belongs(w: World, ref: SeatRef, y: Id) {
    && y in w.holds.granted && ref in w.holds.keys.seats && w.holds.keys.seats[ref] == w.holds.granted[y].token
  }

  lemma BelongsToLatest(w: World, ref: SeatRef, y: Id)
    requires HoldsOk(w) && Belongs(w, ref, y)
    ensures ref in w.holds.last && w.holds.last[ref].session == y && w.holds.granted[y].Ref() == ref
  {
    Holds.TokenNamesSession(w.holds, y, w.holds.last[ref].session);
  }

  /** If y was granted the seat x holds a record for, then x was granted first, its record stood at that moment and its
      seat key had vanished. */
  lemma KeyHadVanished(run: seq<State>, i: nat, j: nat, x: Id, y: Id, ref: SeatRef) returns (m: nat)
    requires Run(run) && i <= j < |run| && x != y
    requires x in run[i].w.holds.granted && x in run[i].w.holds.keys.sessions && run[i].w.holds.granted[x].Ref() == ref
    requires y in run[i].w.holds.granted && run[i].w.holds.granted[y].Ref() == ref
    requires ref in run[j].w.holds.last && run[j].w.holds.last[ref].session == y
    ensures m < i && y !in run[m].w.holds.granted && y in run[m + 1].w.holds.granted
    ensures x in run[m].w.holds.keys.sessions && ref !in run[m].w.holds.keys.seats
  {
    hide Run, Moves, Later;
    m := WasGranted(run, i, y);
    RunMoves(run, m);
    GrantFindsSeatFree(run[m].w.holds, run[m].w.max, run[m + 1].w.holds, y);
    GrantedStays(run, m + 1, i, y);
    if x in run[m].w.holds.granted {
      RecordStood(run, m, i, x);
    } else {
      var k := WasGranted(run, i, x);
      if k < m {
        GrantedStays(run, k + 1, m, x);
      } else if k > m {
        RunMoves(run, k);
        GrantFindsSeatFree(run[k].w.holds, run[k].w.max, run[k + 1].w.holds, x);
        GrantedStays(run, k + 1, i, x);
        GrantedStays(run, m + 1, k + 1, y);
        NeverLatestAgain(run, k + 1, j, y, ref);
      }
      assert false;
    }
  }

  /** A confirm past its gate may find its seat's key in the hands of another session y only in two cases: it read its
      hold before y was granted the seat, or y was granted the seat while the confirm's own record stood and its own
      seat key had vanished. Otherwise nobody else can hold the seat it is about to sell. */
  lemma HoldGuardsSeat(run: seq<State>, j: nat, r: nat, y: Id) returns (i: nat, m: nat)
    requires Run(run) && j < |run| && r in run[j].reqs && run[j].reqs[r].op.OpConfirm? && run[j].reqs[r].pc.Paid?
    requires Belongs(run[j].w, run[j].reqs[r].pc.hold.Ref(), y) && y != run[j].reqs[r].op.session
    ensures i < j && r in run[i].reqs && run[i].reqs[r] == Request(run[j].reqs[r].op, Start)
    ensures var x, ref := run[j].reqs[r].op.session, run[j].reqs[r].pc.hold.Ref();
            && x in run[i].w.holds.keys.sessions
            && (y !in run[i].w.holds.granted ||
                (m < i && y !in run[m].w.holds.granted && y in run[m + 1].w.holds.granted &&
                 x in run[m].w.holds.keys.sessions && ref !in run[m].w.holds.keys.seats))
  {
    hide Init, Take, Enabled, Belongs, HoldsOk, Later, Persists;
    var x, hold, ref := run[j].reqs[r].op.session, run[j].reqs[r].pc.hold, run[j].reqs[r].pc.hold.Ref();
    var g := GateWasPassed(run, j, r, hold, run[j].reqs[r].pc.at);
    i := HoldWasRead(run, g, r, hold);
    m := 0;
    RunInv(run, j);
    BelongsToLatest(run[j].w, ref, y);
    assert LocalOk(run[j].w, r, run[j].reqs[r].op, run[j].reqs[r].pc);
    if y in run[i].w.holds.granted {
      RecordIsGranted(run, i, x);
      GrantedStays(run, i, j, x);
      GrantedStays(run, i, j, y);
      BelongsGranted(run[j].w, ref, y);
      m := KeyHadVanished(run, i, j, x, y, ref);
    }
  }

  lemma BelongsGranted(w: World, ref: SeatRef, y: Id)
    requires Belongs(w, ref, y)
    ensures y in w.holds.granted
  {
  }

  lemma RecordIsGranted(run: seq<State>, i: nat, x: Id)
    requires Run(run) && i < |run| && x in run[i].w.holds.keys.sessions
    ensures x in run[i].w.holds.granted
  {
    RunInv(run, i);
    assert HoldsOk(run[i].w);
  }
}
