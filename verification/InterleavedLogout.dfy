/**
 Logout, logout-all and reuse detection as transactions that wait for row locks. What they promise
 under interleaving: exactly when no refresh of the family ever succeeds again.
 */
module InterleavedLogout {
  import opened RefreshTokens
  import opened RefreshChains
  import DeadFamilies

  predicate Uses(step: Step, tx: TxId) {
    !step.Issue? && step.tx == tx
  }

  /** The step is a refresh that succeeds with a token of the family. */
  ghost predicate Rotates(s: State, step: Step, family: FamilyId) {
    && step.Finish? && step.tx in s.txs && s.txs[step.tx].Locked? && s.txs[step.tx].seen.family == family
    && |Next(s, step).rotated| > |s.rotated|
  }

  /** No refresh with a token of the family succeeds in any continuation. */
  ghost predicate Over(s: State, family: FamilyId) {
    forall after: seq<Step>, step :: !Rotates(Run(s, after), step, family)
  }

  ghost predicate Dead(s: State, family: FamilyId) {
    DeadFamilies.Dead(s.rows, family)
  }

  /** A transaction that will revoke every token of the family that is live now. */
  ghost predicate Covers(s: State, tx: TxId, family: FamilyId) {
    && tx in s.txs && s.txs[tx].Sweeping? && FamilyLive(s.rows, family) <= s.txs[tx].targets
    && family < s.nextFamily
  }

  ghost predicate Unblocked(s: State, tx: TxId) {
    tx in s.txs && s.txs[tx].Sweeping? && forall id | id in s.txs[tx].targets :: Free(s, id, tx)
  }

  /** A logout of one of the family's tokens, a logout of its user everywhere, or the reuse of one of its tokens. */
  ghost predicate Begins(s: State, step: Step, family: FamilyId) {
    match step
    case SweepFamily(tx, f) => tx !in s.txs && f == family
    case SweepUser(tx, user) => tx !in s.txs && exists id :: id in s.rows && s.rows[id].family == family && s.rows[id].user == user
    case Finish(tx, _, _, _) => tx in s.txs && s.txs[tx].Locked? && s.txs[tx].seen.revoked && s.txs[tx].seen.family == family
    case _ => false
  }

  /**
   What can be said of a family from the schedule alone: whether some refresh of it succeeded with no
   later ending of the family finished since, and the endings that began since that refresh.
   */
  datatype Watch = Watch(renewed: bool, later: set<TxId>)

  ghost function Watched(s: State, steps: seq<Step>, family: FamilyId): Watch {
    if steps == [] then Watch(false, {})
    else
      var before, step := steps[..|steps| - 1], steps[|steps| - 1];
      Watching(Watched(s, before, family), Run(s, before), step, family)
  }

  ghost function Watching(w: Watch, s: State, step: Step, family: FamilyId): Watch {
    if Rotates(s, step, family) then Watch(true, {})
    else if Begins(s, step, family) then w.(later := w.later + {step.tx})
    else if Finishes(s, step) then Watch(w.renewed && step.tx !in w.later, w.later - {step.tx})
    else if step.Rollback? then w.(later := w.later - {step.tx})
    else w
  }

  ghost predicate Finishes(s: State, step: Step) {
    step.CommitSweep? && Unblocked(s, step.tx)
  }

  ghost predicate Renewed(s: State, steps: seq<Step>, family: FamilyId) {
    Watched(s, steps, family).renewed
  }

  /** A transaction finishes that picked a live token of the family. */
  ghost predicate Ends(s: State, step: Step, family: FamilyId) {
    Finishes(s, step) && Picked(s, step.tx, family)
  }

  ghost predicate Picked(s: State, tx: TxId, family: FamilyId) {
    tx in s.txs && s.txs[tx].Sweeping? && s.txs[tx].targets * FamilyLive(s.rows, family) != {}
  }

  /** `later` are the transactions that picked the family's live token. */
  ghost predicate PickedBy(s: State, later: set<TxId>, family: FamilyId) {
    forall tx :: Picked(s, tx, family) <==> tx in later
  }

  ghost predicate Sweepers(s: State, later: set<TxId>) {
    forall tx | tx in later :: tx in s.txs && s.txs[tx].Sweeping?
  }

  // ---- What one step does to a family ----

  ghost predicate OldIds(s: State) {
    forall id | id in s.rows :: id < s.next
  }

  ghost predicate OneLive(rows: Table, family: FamilyId) {
    forall a, b | a in FamilyLive(rows, family) && b in FamilyLive(rows, family) :: a == b
  }

  ghost predicate OneUser(rows: Table, family: FamilyId) {
    forall a, b | a in rows && b in rows && rows[a].family == rows[b].family == family :: rows[a].user == rows[b].user
  }

  /** What of the invariant matters to the fate of one family. */
  ghost predicate Plain(s: State, family: FamilyId) {
    OldIds(s) && Locks(s) && OneLive(s.rows, family) && OneUser(s.rows, family) && family < s.nextFamily
  }

  lemma InvIsPlain(s: State, family: FamilyId)
    requires Inv(s) && family < s.nextFamily
    ensures Plain(s, family)
  {
    PlacedIsOld(s);
    FamilyIsPlain(s, family);
  }

  lemma PlacedIsOld(s: State)
    requires Placed(s)
    ensures OldIds(s)
  {
    forall id | id in s.rows ensures id < s.next {
      assert OnPath(s, id);
    }
  }

  lemma FamilyIsPlain(s: State, family: FamilyId)
    requires Paths(s) && Placed(s)
    ensures OneLive(s.rows, family) && OneUser(s.rows, family)
  {
    if id :| id in s.rows && s.rows[id].family == family {
      InvGivesPath(s, id);
      PathIsPlain(s, family);
    }
  }

  lemma PathIsPlain(s: State, family: FamilyId)
    requires FamilyIsPath(s, family)
    ensures OneLive(s.rows, family) && OneUser(s.rows, family)
  {
    forall a, b | a in s.rows && b in s.rows && s.rows[a].family == s.rows[b].family == family
      ensures s.rows[a].user == s.rows[b].user
    {
      SameUser(s, family, a, b);
    }
  }

  lemma SameUser(s: State, family: FamilyId, a: TokenId, b: TokenId)
    requires family in s.chains && IsPath(s.rows, family, s.chains[family])
    requires a in s.chains[family] && b in s.chains[family]
    ensures a in s.rows && b in s.rows && s.rows[a].user == s.rows[b].user
  {
    var chain := s.chains[family];
    var i :| 0 <= i < |chain| && chain[i] == a;
    var j :| 0 <= j < |chain| && chain[j] == b;
    assert Member(s.rows, family, s.rows[chain[0]].user, chain[i]);
    assert Member(s.rows, family, s.rows[chain[0]].user, chain[j]);
  }

  lemma RotationIsLive(s: State, step: Step, family: FamilyId)
    requires OldIds(s) && Locks(s) && Rotates(s, step, family)
    ensures s.next in FamilyLive(Next(s, step).rows, family)
    ensures s.txs[step.tx].token in FamilyLive(s.rows, family)
  {
    var token := s.txs[step.tx].token;
    assert Next(s, step).rows == Rotate(s.rows, token, s.next, step.now + step.ttl);
  }

  lemma RevokedAreGone(rows: Table, ids: set<TokenId>, family: FamilyId)
    ensures FamilyLive(Revoke(rows, ids), family) == FamilyLive(rows, family) - ids
  {
  }

  lemma Disjoint(ids: set<TokenId>, live: set<TokenId>)
    requires ids * live == {}
    ensures live - ids == live
  {
    forall id | id in live ensures id !in ids {
      assert id !in ids * live;
    }
  }

  lemma OtherFamilyRotates(rows: Table, token: TokenId, newest: TokenId, expiresAt: int, family: FamilyId)
    requires token in rows && rows[token].family != family && newest !in rows
    ensures FamilyLive(Rotate(rows, token, newest, expiresAt), family) == FamilyLive(rows, family)
  {
  }

  lemma FinishKeepsLive(s: State, step: Step, family: FamilyId)
    requires OldIds(s) && Locks(s) && step.Finish? && !Rotates(s, step, family)
    ensures FamilyLive(Next(s, step).rows, family) == FamilyLive(s.rows, family)
  {
    var s' := FinishRefresh(s, step.tx, step.now, step.active, step.ttl);
    if s'.rows != s.rows {
      var token := s.txs[step.tx].token;
      OtherFamilyRotates(s.rows, token, s.next, step.now + step.ttl, family);
    }
  }

  /** Apart from rotations and finished sweeps, a step leaves the live tokens of the family as they are. */
  lemma LiveStays(s: State, step: Step, family: FamilyId)
    requires OldIds(s) && Locks(s) && family < s.nextFamily && !Rotates(s, step, family) && !Ends(s, step, family)
    ensures FamilyLive(Next(s, step).rows, family) == FamilyLive(s.rows, family)
  {
    if step.Finish? {
      FinishKeepsLive(s, step, family);
    } else if step.CommitSweep? && Unblocked(s, step.tx) {
      RevokedAreGone(s.rows, s.txs[step.tx].targets, family);
      Disjoint(s.txs[step.tx].targets, FamilyLive(s.rows, family));
    }
  }

  /** As only one token of a family is live, who picks any picks all. */
  lemma PicksAll(rows: Table, targets: set<TokenId>, family: FamilyId)
    requires OneLive(rows, family) && targets * FamilyLive(rows, family) != {}
    ensures FamilyLive(rows, family) <= targets
  {
    var id :| id in targets * FamilyLive(rows, family);
    forall other | other in FamilyLive(rows, family) ensures other in targets {
      assert other == id;
    }
  }

  lemma TxStays(s: State, step: Step, tx: TxId)
    requires tx in s.txs && !Uses(step, tx)
    ensures tx in Next(s, step).txs && Next(s, step).txs[tx] == s.txs[tx]
  {
  }

  lemma CountersGrow(s: State, step: Step)
    ensures s.next <= Next(s, step).next && s.nextFamily <= Next(s, step).nextFamily
  {
  }

  // ---- A dead family stays dead ----

  lemma {:induction false} DeadStaysDead(s: State, steps: seq<Step>, family: FamilyId)
    requires Inv(s) && Dead(s, family) && family < s.nextFamily
    ensures var s' := Run(s, steps); Inv(s') && Dead(s', family) && family < s'.nextFamily
  {
    if steps != [] {
      var before, step := steps[..|steps| - 1], steps[|steps| - 1];
      DeadStaysDead(s, before, family);
      var s1 := Run(s, before);
      InvIsPlain(s1, family);
      NextKeeps(s1, step);
      CountersGrow(s1, step);
      DeadIffNoneLive(s1, family);
      DeadRotatesNothing(s1, step, family);
      LiveStays(s1, step, family);
      DeadIffNoneLive(Next(s1, step), family);
    }
  }

  lemma DeadIffNoneLive(s: State, family: FamilyId)
    ensures Dead(s, family) <==> FamilyLive(s.rows, family) == {}
  {
    if FamilyLive(s.rows, family) == {} {
      forall id | id in s.rows && s.rows[id].family == family ensures s.rows[id].revoked {
        assert id !in FamilyLive(s.rows, family);
      }
    }
  }

  lemma FreshTx(txs: map<TxId, Tx>) returns (tx: TxId)
    ensures tx !in txs
  {
    var bound := Above(txs.Keys);
    tx := bound;
  }

  lemma {:induction false} Above(ids: set<TxId>) returns (n: nat)
    ensures forall id | id in ids :: id < n
  {
    if ids == {} {
      n := 0;
    } else {
      var id :| id in ids;
      var m := Above(ids - {id});
      n := if m > id then m else id + 1;
      assert forall other | other in ids :: other == id || other in ids - {id};
    }
  }

  /** A live token can always be refreshed by somebody: by the transaction that holds its lock, or by a new one. */
  lemma LiveCanRotate(s: State, token: TokenId) returns (after: seq<Step>, step: Step)
    requires Placed(s) && Locks(s) && token in s.rows && !s.rows[token].revoked
    ensures Rotates(Run(s, after), step, s.rows[token].family)
  {
    assert OnPath(s, token);
    var now := s.rows[token].expiresAt;
    if tx :| tx in s.txs && s.txs[tx].Locked? && s.txs[tx].token == token {
      after, step := [], Finish(tx, now, true, 0);
    } else {
      var tx := FreshTx(s.txs);
      after, step := [Lock(tx, token)], Finish(tx, now, true, 0);
      assert Run(s, []) == s && [Lock(tx, token)][..0] == [];
      assert Run(s, after) == LockRow(s, tx, token);
    }
  }

  lemma DeadIsOver(s: State, family: FamilyId)
    requires Inv(s) && Dead(s, family) && family < s.nextFamily
    ensures Over(s, family)
  {
    forall after: seq<Step>, step ensures !Rotates(Run(s, after), step, family) {
      DeadStaysDead(s, after, family);
      InvIsPlain(Run(s, after), family);
      DeadRotatesNothing(Run(s, after), step, family);
    }
  }

  lemma DeadRotatesNothing(s: State, step: Step, family: FamilyId)
    requires OldIds(s) && Locks(s) && Dead(s, family)
    ensures !Rotates(s, step, family)
  {
    if Rotates(s, step, family) {
      RotationIsLive(s, step, family);
      DeadIffNoneLive(s, family);
    }
  }

  /** In a reachable state, no refresh of a family ever succeeds again exactly when all its tokens are revoked. */
  lemma OverIffDead(s: State, family: FamilyId)
    requires Inv(s) && family < s.nextFamily
    ensures Over(s, family) <==> Dead(s, family)
  {
    if Dead(s, family) {
      DeadIsOver(s, family);
    } else {
      LiveIsNotOver(s, family);
    }
  }

  lemma LiveIsNotOver(s: State, family: FamilyId)
    requires Placed(s) && Locks(s) && !Dead(s, family)
    ensures !Over(s, family)
  {
    var token :| token in s.rows && s.rows[token].family == family && !s.rows[token].revoked;
    var after, step := LiveCanRotate(s, token);
  }

  // ---- What happens while a logout waits ----

  lemma SweepersStay(w: Watch, s: State, step: Step, family: FamilyId)
    requires Sweepers(s, w.later)
    ensures Sweepers(Next(s, step), Watching(w, s, step, family).later)
  {
  }

  /** A transaction that begins now picks the family's live token exactly when it is an ending of the family. */
  lemma BeginningPicks(s: State, step: Step, family: FamilyId)
    requires Plain(s, family) && FamilyLive(s.rows, family) != {}
    requires step.SweepFamily? || step.SweepUser? || step.Finish?
    requires !Rotates(s, step, family) && !Picked(s, step.tx, family)
    ensures Picked(Next(s, step), step.tx, family) <==> Begins(s, step, family)
  {
    LiveStays(s, step, family);
    if Begins(s, step, family) {
      BeginningCovers(s, step, family);
    } else if step.SweepUser? && step.tx !in s.txs {
      OtherUser(s, step.user, family);
    }
  }

  lemma OtherUser(s: State, user: UserId, family: FamilyId)
    requires forall id | id in s.rows && s.rows[id].family == family :: s.rows[id].user != user
    ensures UserLive(s.rows, user) * FamilyLive(s.rows, family) == {}
  {
  }

  lemma PickedStays(s: State, step: Step, family: FamilyId, tx: TxId)
    requires tx in s.txs && !Uses(step, tx)
    requires FamilyLive(Next(s, step).rows, family) == FamilyLive(s.rows, family)
    ensures Picked(Next(s, step), tx, family) <==> Picked(s, tx, family)
  {
    TxStays(s, step, tx);
  }

  lemma NobodyPickedNewest(s: State, step: Step, family: FamilyId, tx: TxId)
    requires Plain(s, family) && OneLive(Next(s, step).rows, family) && Rotates(s, step, family)
    ensures !Picked(Next(s, step), tx, family)
  {
    var s' := Next(s, step);
    RotationIsLive(s, step, family);
    if tx in s'.txs && s'.txs[tx].Sweeping? {
      assert tx in s.txs && s'.txs[tx] == s.txs[tx];
      TargetsAreOld(s, tx);
      forall id | id in FamilyLive(s'.rows, family) ensures id !in s'.txs[tx].targets {
        assert id == s.next;
      }
    }
  }

  /** As long as the family stays renewed, the endings that began since are those that picked its live token. */
  lemma WatchingPicks(w: Watch, s: State, step: Step, family: FamilyId)
    requires Plain(s, family) && OneLive(Next(s, step).rows, family) && Sweepers(s, w.later)
    requires w.renewed ==> FamilyLive(s.rows, family) != {} && PickedBy(s, w.later, family)
    requires Watching(w, s, step, family).renewed
    ensures PickedBy(Next(s, step), Watching(w, s, step, family).later, family)
  {
    var w' := Watching(w, s, step, family);
    forall tx ensures Picked(Next(s, step), tx, family) <==> tx in w'.later {
      if Rotates(s, step, family) {
        NobodyPickedNewest(s, step, family, tx);
      } else {
        StillPicks(w, s, step, family, tx);
      }
    }
  }

  lemma StillPicks(w: Watch, s: State, step: Step, family: FamilyId, tx: TxId)
    requires Plain(s, family) && Sweepers(s, w.later)
    requires FamilyLive(s.rows, family) != {} && PickedBy(s, w.later, family)
    requires !Rotates(s, step, family) && Watching(w, s, step, family).renewed
    ensures Picked(Next(s, step), tx, family) <==> tx in Watching(w, s, step, family).later
  {
    assert Picked(s, tx, family) <==> tx in w.later;
    LiveStays(s, step, family);
    if !Uses(step, tx) {
      if tx in s.txs {
        PickedStays(s, step, family, tx);
      }
    } else if (step.SweepFamily? || step.SweepUser? || step.Finish?) && !Picked(s, tx, family) {
      BeginningPicks(s, step, family);
    }
  }

  /** The live tokens of the family escape the waiting transaction exactly when the family was renewed. */
  lemma {:induction false} WaitingLogout(s: State, tx: TxId, family: FamilyId, during: seq<Step>)
    requires Inv(s) && Covers(s, tx, family) && (forall step | step in during :: !Uses(step, tx))
    ensures var s' := Run(s, during);
            var w := Watched(s, during, family);
            && Inv(s') && s.next <= s'.next && family < s'.nextFamily && Sweepers(s', w.later)
            && tx in s'.txs && s'.txs[tx] == s.txs[tx]
            && (FamilyLive(s'.rows, family) <= s.txs[tx].targets <==> !w.renewed)
            && (w.renewed ==> PickedBy(s', w.later, family))
  {
    if during != [] {
      var before, step := during[..|during| - 1], during[|during| - 1];
      WaitingLogout(s, tx, family, before);
      var s1, w := Run(s, before), Watched(s, before, family);
      NextKeeps(s1, step);
      CountersGrow(s1, step);
      InvIsPlain(s, family);
      InvIsPlain(s1, family);
      InvIsPlain(Next(s1, step), family);
      TxStays(s1, step, tx);
      TargetsAreOld(s, tx);
      SweepersStay(w, s1, step, family);
      EscapesIff(w, s1, step, family, s.txs[tx].targets);
      if Watching(w, s1, step, family).renewed {
        WatchingPicks(w, s1, step, family);
      }
    }
  }

  lemma EscapesIff(w: Watch, s: State, step: Step, family: FamilyId, targets: set<TokenId>)
    requires Plain(s, family) && (forall id | id in targets :: id < s.next)
    requires FamilyLive(s.rows, family) <= targets <==> !w.renewed
    requires w.renewed ==> PickedBy(s, w.later, family)
    ensures FamilyLive(Next(s, step).rows, family) <= targets <==> !Watching(w, s, step, family).renewed
  {
    if Rotates(s, step, family) {
      RotationIsLive(s, step, family);
    } else if Ends(s, step, family) {
      PicksAll(s.rows, s.txs[step.tx].targets, family);
      CommitKillsIff(s, step.tx, family);
      DeadIffNoneLive(Next(s, step), family);
    } else {
      LiveStays(s, step, family);
    }
  }

  lemma TargetsAreOld(s: State, tx: TxId)
    requires OldIds(s) && Locks(s) && tx in s.txs && s.txs[tx].Sweeping?
    ensures forall id | id in s.txs[tx].targets :: id < s.next
  {
    assert s.txs[tx].targets <= s.rows.Keys;
  }

  lemma BeginningCovers(s: State, step: Step, family: FamilyId)
    requires OneUser(s.rows, family) && Begins(s, step, family) && family < s.nextFamily
    ensures Covers(Next(s, step), step.tx, family)
  {
    if step.SweepUser? {
      UserCovers(s, step.user, family);
    }
  }

  lemma UserCovers(s: State, user: UserId, family: FamilyId)
    requires OneUser(s.rows, family)
    requires exists id :: id in s.rows && s.rows[id].family == family && s.rows[id].user == user
    ensures FamilyLive(s.rows, family) <= UserLive(s.rows, user)
  {
    var id :| id in s.rows && s.rows[id].family == family && s.rows[id].user == user;
    assert forall other | other in FamilyLive(s.rows, family) :: s.rows[other].user == s.rows[id].user;
  }

  /**
   The exact condition: after a logout, logout-all or reuse detection that waited while other
   transactions ran, no refresh of the family ever succeeds again if and only if the family was not
   renewed during the wait: no refresh of it succeeded, or another ending of it that began after the
   last one that did has finished.
   */
  lemma LogoutHoldsIff(before: seq<Step>, start: Step, during: seq<Step>, family: FamilyId)
    requires var s := Run(INITIAL, before); Begins(s, start, family) && family < s.nextFamily
    requires forall step | step in during :: !Uses(step, start.tx)
    requires Unblocked(Run(Next(Run(INITIAL, before), start), during), start.tx)
    ensures var waiting := Next(Run(INITIAL, before), start);
            Over(Next(Run(waiting, during), CommitSweep(start.tx)), family) <==> !Renewed(waiting, during, family)
  {
    RunKeeps(before);
    var s := Run(INITIAL, before);
    BeginningWaits(s, start, family);
    WaitHoldsIff(Next(s, start), start.tx, during, family);
  }

  lemma BeginningWaits(s: State, start: Step, family: FamilyId)
    requires Inv(s) && Begins(s, start, family) && family < s.nextFamily
    ensures Inv(Next(s, start)) && Covers(Next(s, start), start.tx, family)
  {
    FamilyIsPlain(s, family);
    BeginningCovers(s, start, family);
    NextKeeps(s, start);
  }

  lemma WaitHoldsIff(s: State, tx: TxId, during: seq<Step>, family: FamilyId)
    requires Inv(s) && Covers(s, tx, family) && (forall step | step in during :: !Uses(step, tx))
    requires Unblocked(Run(s, during), tx)
    ensures Over(Next(Run(s, during), CommitSweep(tx)), family) <==> !Renewed(s, during, family)
  {
    WaitingLogout(s, tx, family, during);
    CommitHoldsIff(Run(s, during), tx, family);
  }

  lemma CommitHoldsIff(s: State, tx: TxId, family: FamilyId)
    requires Inv(s) && Unblocked(s, tx) && family < s.nextFamily
    ensures Over(Next(s, CommitSweep(tx)), family) <==> FamilyLive(s.rows, family) <= s.txs[tx].targets
  {
    NextKeeps(s, CommitSweep(tx));
    CommitKillsIff(s, tx, family);
    OverIffDead(Next(s, CommitSweep(tx)), family);
  }

  lemma CommitKillsIff(s: State, tx: TxId, family: FamilyId)
    requires Unblocked(s, tx)
    ensures Dead(Next(s, CommitSweep(tx)), family) <==> FamilyLive(s.rows, family) <= s.txs[tx].targets
    ensures Next(s, CommitSweep(tx)).nextFamily == s.nextFamily
  {
    var live, targets := FamilyLive(s.rows, family), s.txs[tx].targets;
    RevokedAreGone(s.rows, targets, family);
    DeadIffNoneLive(Next(s, CommitSweep(tx)), family);
    if live - targets == {} {
      forall id | id in live ensures id in targets {
        assert id !in live - targets;
      }
    }
  }

  ghost predicate RotatesAt(s: State, steps: seq<Step>, k: nat, family: FamilyId) {
    k < |steps| && Rotates(Run(s, steps[..k]), steps[k], family)
  }

  /** At step `k` another ending of the family finishes, which began after the last refresh that succeeded. */
  ghost predicate EndsAt(s: State, steps: seq<Step>, k: nat, family: FamilyId) {
    k < |steps| && Finishes(Run(s, steps[..k]), steps[k]) && steps[k].tx in Watched(s, steps[..k], family).later
  }

  /** Without a rotation there is no renewal; with one there is, unless another ending finishes meanwhile. */
  lemma {:induction false} RenewedIffRotated(s: State, steps: seq<Step>, family: FamilyId)
    ensures Renewed(s, steps, family) ==> exists k :: RotatesAt(s, steps, k, family)
    ensures (forall k :: !EndsAt(s, steps, k, family)) ==>
              (Renewed(s, steps, family) <==> exists k :: RotatesAt(s, steps, k, family))
  {
    if steps != [] {
      var last := |steps| - 1;
      var before := steps[..last];
      RenewedIffRotated(s, before, family);
      forall k: nat | k < last
        ensures RotatesAt(s, before, k, family) <==> RotatesAt(s, steps, k, family)
        ensures EndsAt(s, before, k, family) <==> EndsAt(s, steps, k, family)
      {
        SamePrefix(s, steps, k, family);
      }
      assert RotatesAt(s, steps, last, family) <==> Rotates(Run(s, before), steps[last], family);
      assert EndsAt(s, steps, last, family)
        <==> Finishes(Run(s, before), steps[last]) && steps[last].tx in Watched(s, before, family).later;
    }
  }

  lemma SamePrefix(s: State, steps: seq<Step>, k: nat, family: FamilyId)
    requires k < |steps| - 1
    ensures var before := steps[..|steps| - 1];
            && (RotatesAt(s, before, k, family) <==> RotatesAt(s, steps, k, family))
            && (EndsAt(s, before, k, family) <==> EndsAt(s, steps, k, family))
  {
    assert steps[..|steps| - 1][..k] == steps[..k];
  }

  // ---- Both ways it can go ----

  /** The refresh of a live token rotates while a logout of its family has already picked its rows. */
  ghost function Overtaking(s: State, token: TokenId, now: int, ttl: int): State
    requires token in s.rows
  {
    Next(Next(Next(s, Lock(1, token)), SweepFamily(2, s.rows[token].family)), Finish(1, now, true, ttl))
  }

  lemma OvertakingRotates(s: State, token: TokenId, now: int, ttl: int)
    requires Placed(s) && s.txs == map[]
    requires token in s.rows && Honoured(s.rows[token], now, true)
    ensures var family := s.rows[token].family;
            var s' := Overtaking(s, token, now, ttl);
            && s'.rows == Rotate(s.rows, token, s.next, now + ttl)
            && s'.txs == map[2 := Sweeping(FamilyLive(s.rows, family))] && s.next !in s.rows
  {
    assert OnPath(s, token);
    assert !(s.next in s.rows && OnPath(s, s.next));
    var s1 := LockRow(s, 1, token);
    assert s1.txs == map[1 := Locked(token, s.rows[token])];
    var s2 := StartSweep(s1, 2, FamilyLive(s.rows, s.rows[token].family));
    var s3 := FinishRefresh(s2, 1, now, true, ttl);
    assert s3.txs == map[2 := Sweeping(FamilyLive(s.rows, s.rows[token].family))];
  }

  /**
   From every state with a live token, a refresh that rotates while a logout of its family waits for
   the row lock leaves a live token behind the committed logout.
   */
  lemma LogoutRace(s: State, token: TokenId, now: int, ttl: int)
    requires Placed(s) && s.txs == map[]
    requires token in s.rows && Honoured(s.rows[token], now, true)
    ensures var s' := Next(Overtaking(s, token, now, ttl), CommitSweep(2));
            s'.txs == map[] && s.next in FamilyLive(s'.rows, s.rows[token].family)
  {
    OvertakingRotates(s, token, now, ttl);
    var s3 := Overtaking(s, token, now, ttl);
    RevokedAreGone(s3.rows, FamilyLive(s.rows, s.rows[token].family), s.rows[token].family);
  }

  /** If a second logout starts after that refresh and finishes before the first, the family is dead all the same. */
  lemma SecondLogoutKills(s: State, token: TokenId, now: int, ttl: int)
    requires Placed(s) && s.txs == map[]
    requires token in s.rows && Honoured(s.rows[token], now, true)
    ensures var family := s.rows[token].family;
            Dead(Next(Next(Next(Overtaking(s, token, now, ttl), SweepFamily(3, family)), CommitSweep(3)), CommitSweep(2)), family)
  {
    var family := s.rows[token].family;
    OvertakingRotates(s, token, now, ttl);
    var s3 := Overtaking(s, token, now, ttl);
    var s4 := StartSweep(s3, 3, FamilyLive(s3.rows, family));
    assert Unblocked(s4, 3);
    CommitKillsIff(s4, 3, family);
  }
}
