/** A refresh token is worth nothing after its expiry, nor to a user who is not active, in every interleaving. */
module RefreshExpiry {
  import opened Prelude
  import opened RefreshTokens
  import opened RefreshChains
  import opened InterleavedLogout

  /** What of the invariant matters here: identifiers are fresh, locks are sound and families are known. */
  ghost predicate Ready(s: State) {
    OldIds(s) && Locks(s) && forall id | id in s.rows :: s.rows[id].family in s.chains
  }

  lemma InvIsReady(s: State)
    requires Inv(s)
    ensures Ready(s)
  {
    PlacedIsOld(s);
    forall id | id in s.rows ensures s.rows[id].family in s.chains {
      assert OnPath(s, id);
    }
  }

  /** A step that finishes a refresh succeeds exactly for an unrevoked token, in time, of an active user. */
  lemma RotatesIff(s: State, step: Step, family: FamilyId)
    requires Ready(s)
    ensures Rotates(s, step, family) <==>
              && step.Finish? && step.tx in s.txs && s.txs[step.tx].Locked?
              && var token := s.txs[step.tx].token;
                 && token in s.rows && s.rows[token].family == family && !s.rows[token].revoked
                 && step.now <= s.rows[token].expiresAt && step.active
  {
  }

  /** The token that replaces it is one of the same user and family, and lives for the configured time. */
  lemma RotationRenews(s: State, step: Step, family: FamilyId)
    requires Ready(s) && Rotates(s, step, family)
    ensures var token, s' := s.txs[step.tx].token, Next(s, step);
            && s.next !in s.rows && s.next in s'.rows && token in s.rows && token in s'.rows
            && s'.rows[s.next] == Row(s.rows[token].user, family, step.now + step.ttl, false, None)
            && s'.rows[token].revoked
  {
    RotatesIff(s, step, family);
    assert Next(s, step).rows == Rotate(s.rows, s.txs[step.tx].token, s.next, step.now + step.ttl);
  }

  /** In every run, no refresh succeeds after the expiry of its token or for a user who is not active. */
  lemma NoLateRefresh(before: seq<Step>, step: Step, family: FamilyId)
    requires Rotates(Run(INITIAL, before), step, family)
    ensures var s := Run(INITIAL, before);
            var token := s.txs[step.tx].token;
            token in s.rows && step.now <= s.rows[token].expiresAt && step.active
  {
    RunKeeps(before);
    InvIsReady(Run(INITIAL, before));
    RotatesIff(Run(INITIAL, before), step, family);
  }

  /** No token of the family can be used at time `t` or later. */
  ghost predicate Lapsed(s: State, family: FamilyId, t: int) {
    forall id | id in s.rows && s.rows[id].family == family && !s.rows[id].revoked :: s.rows[id].expiresAt < t
  }

  /**
   A family whose live token has expired before `t` is over for every refresh from then on: whatever
   else happens in between, no step that finishes a refresh at `t` or later succeeds for it.
   */
  lemma {:induction false} LapsedForever(s: State, steps: seq<Step>, family: FamilyId, t: int)
    requires Inv(s) && Lapsed(s, family, t) && family < s.nextFamily
    requires forall step | step in steps && step.Finish? :: step.now >= t
    ensures var s' := Run(s, steps);
            && Inv(s') && Lapsed(s', family, t) && family < s'.nextFamily
            && (forall step: Step | step.Finish? && step.now >= t :: !Rotates(s', step, family))
  {
    if steps != [] {
      var before, step := steps[..|steps| - 1], steps[|steps| - 1];
      LapsedForever(s, before, family, t);
      var s1 := Run(s, before);
      NextKeeps(s1, step);
      InvIsReady(s1);
      LapsedStays(s1, step, family, t);
    }
    InvIsReady(Run(s, steps));
    LapsedRotatesNothing(Run(s, steps), family, t);
  }

  lemma LapsedRotatesNothing(s: State, family: FamilyId, t: int)
    requires Ready(s) && Lapsed(s, family, t)
    ensures forall step: Step | step.Finish? && step.now >= t :: !Rotates(s, step, family)
  {
    forall step: Step | step.Finish? && step.now >= t ensures !Rotates(s, step, family) {
      RotatesIff(s, step, family);
    }
  }

  lemma LapsedStays(s: State, step: Step, family: FamilyId, t: int)
    requires Ready(s) && Lapsed(s, family, t) && family < s.nextFamily && !Rotates(s, step, family)
    ensures Lapsed(Next(s, step), family, t) && family < Next(s, step).nextFamily
  {
    CountersGrow(s, step);
    var s' := Next(s, step);
    forall id | id in s'.rows && s'.rows[id].family == family && !s'.rows[id].revoked ensures s'.rows[id].expiresAt < t {
      StillLive(s, step, family, id);
    }
  }

  lemma StillLive(s: State, step: Step, family: FamilyId, id: TokenId)
    requires OldIds(s) && Locks(s) && family < s.nextFamily && !Rotates(s, step, family)
    requires id in Next(s, step).rows && Next(s, step).rows[id].family == family && !Next(s, step).rows[id].revoked
    ensures id in s.rows && s.rows[id] == Next(s, step).rows[id]
  {
  }
}
