/** What administrators rely on: revoking ends an invitation, delivery is recorded, and an address is invited once. */
module InvitationEnds {
  import opened Prelude
  import opened Text
  import opened Invitations
  import opened InvitationRuns
  import opened InvitationLaws

  // ---- Revoked for good ----

  /** The row keeps its token, or it is gone and nobody holds the token any more. */
  ghost predicate HeldOrGone(db: Db, id: InvId, token: Token) {
    && token < db.nextToken && id < db.nextInvitation
    && (if id in db.invitations then db.invitations[id].token == token && db.invitations[id].status != Pending
        else forall other :: !Holds(db, other, token))
  }

  lemma HeldOrGoneStays(db: Db, db': Db, id: InvId, token: Token)
    requires Unique(db) && Evolves(db, db') && HeldOrGone(db, id, token)
    ensures HeldOrGone(db', id, token)
  {
    if id !in db.invitations {
      TokenStaysGone(db, db', token);
    } else if id !in db'.invitations {
      forall other ensures !Holds(db', other, token) {
        if other in db.invitations && other in db'.invitations {
          assert RowEvolves(db, db.invitations[other], db'.invitations[other]);
        }
      }
    } else {
      assert RowEvolves(db, db.invitations[id], db'.invitations[id]);
    }
  }

  /** An acceptance touches one row at most, and of it only the status and the accepter; it joins a pending one only. */
  lemma AcceptanceIsNarrow(db: Db, r: Reading, caller: Option<UserId>)
    requires Unique(db)
    ensures var (db', answer) := AcceptTx(db, r.token, r.found, r.now, caller);
            && db'.invitations.Keys == db.invitations.Keys
            && (forall id | id in db.invitations :: db'.invitations[id]
                  == db.invitations[id].(status := db'.invitations[id].status, acceptedBy := db'.invitations[id].acceptedBy))
            && (answer.Joined? && ByToken(db, r.token).Some? ==> db.invitations[ByToken(db, r.token).value].status == Pending)
  {
    var id := ByToken(db, r.token);
    if id.Some? {
      AcceptEndings(db, id.value, r.now, caller);
    }
  }

  lemma JoiningsStay(s: State, step: Step, id: InvId, token: Token)
    requires Unique(s.db) && HeldOrGone(s.db, id, token) && id !in s.joinings
    ensures id !in Next(s, step).joinings
  {
    if step.AcceptCommit? && step.tx in s.readings {
      AcceptanceIsNarrow(s.db, s.readings[step.tx], step.caller);
    }
  }

  lemma {:induction false} EndedStaysEnded(s: State, steps: seq<Step>, id: InvId, token: Token)
    requires Inv(s) && HeldOrGone(s.db, id, token) && id !in s.joinings
    ensures var s' := Run(s, steps); Inv(s') && HeldOrGone(s'.db, id, token) && id !in s'.joinings
  {
    if steps != [] {
      var before, step := steps[..|steps| - 1], steps[|steps| - 1];
      EndedStaysEnded(s, before, id, token);
      var s1 := Run(s, before);
      NextKeeps(s1, step);
      StepEvolves(s1, step);
      HeldOrGoneStays(s1.db, Next(s1, step).db, id, token);
      JoiningsStay(s1, step, id, token);
    }
  }

  /** Revoking a pending row of the organization stores the end state and touches nothing else. */
  lemma RevokeEnds(s: State, org: OrgId, id: InvId)
    requires Inv(s) && id in s.db.invitations && s.db.invitations[id].org == org && s.db.invitations[id].status == Pending
    ensures var s', inv := Next(s, Revoke(org, id)), s.db.invitations[id];
            && s'.db == s.db.(invitations := s.db.invitations[id := inv.(status := Revoked)])
            && s'.joinings == s.joinings && id !in s.joinings && HeldOrGone(s'.db, id, inv.token)
  {
    assert RowMatches(s.db, s.joinings, id);
  }

  /**
   Once a pending invitation is revoked, in every continuation no membership comes from it, and every
   acceptance with its token, also one that had read the row before, is told that it was revoked, or
   that there is no such invitation once the row is gone.
   */
  lemma RevokedForGood(before: seq<Step>, org: OrgId, id: InvId, after: seq<Step>, found: Invitation, now: int, caller: Option<UserId>)
    requires var db := Run(INITIAL, before).db;
             id in db.invitations && db.invitations[id].org == org && db.invitations[id].status == Pending
    ensures var s := Run(INITIAL, before);
            var later := Run(Next(s, Revoke(org, id)), after);
            && (forall key | key in later.db.members :: later.db.members[key].source != ViaInvitation(id))
            && (id in later.db.invitations ==> later.db.invitations[id].status == Revoked)
            && AcceptTx(later.db, s.db.invitations[id].token, found, now, caller)
               == (later.db, if id in later.db.invitations then WasRevoked else NotFound)
  {
    RunKeeps(INITIAL, before);
    var s := Run(INITIAL, before);
    var token, s1 := s.db.invitations[id].token, Next(s, Revoke(org, id));
    RevokeEnds(s, org, id);
    NextKeeps(s, Revoke(org, id));
    EndedStaysEnded(s1, after, id, token);
    var later := Run(s1, after);
    NobodyFrom(later.db, later.joinings, id);
    if id in later.db.invitations {
      EndStatesAbsorb(s1, after, id);
    }
    RevokedAnswer(later.db, id, token, found, now, caller);
  }

  lemma NobodyFrom(db: Db, joinings: Joinings, id: InvId)
    requires Memberships(db, joinings) && id !in joinings
    ensures forall key | key in db.members :: db.members[key].source != ViaInvitation(id)
  {
    forall key | key in db.members ensures db.members[key].source != ViaInvitation(id) {
      assert SourceKnown(db, joinings, key);
    }
  }

  lemma RevokedAnswer(db: Db, id: InvId, token: Token, found: Invitation, now: int, caller: Option<UserId>)
    requires Unique(db) && HeldOrGone(db, id, token) && (id in db.invitations ==> db.invitations[id].status == Revoked)
    ensures AcceptTx(db, token, found, now, caller) == (db, if id in db.invitations then WasRevoked else NotFound)
  {
    if id in db.invitations {
      assert Holds(db, id, token);
    }
  }

  // ---- Recorded delivery ----

  /** No step forgets that an invitation was delivered. */
  lemma NotifiedStep(s: State, step: Step, id: InvId)
    requires Unique(s.db) && id in s.db.invitations && s.db.invitations[id].notified && id in Next(s, step).db.invitations
    ensures Next(s, step).db.invitations[id].notified
  {
    SurroundingsEvolve(s.db, step);
    NotifiedAdministration(s.db, step, id);
    if step.AcceptCommit? && step.tx in s.readings {
      AcceptanceIsNarrow(s.db, s.readings[step.tx], step.caller);
    }
  }

  lemma NotifiedAdministration(db: Db, step: Step, id: InvId)
    requires Unique(db) && id in db.invitations && db.invitations[id].notified
    ensures id in Administration(db, step).invitations ==> Administration(db, step).invitations[id].notified
  {
  }

  lemma {:induction false} NotifiedStays(s: State, steps: seq<Step>, id: InvId)
    requires Inv(s) && id in s.db.invitations && s.db.invitations[id].notified && id in Run(s, steps).db.invitations
    ensures Run(s, steps).db.invitations[id].notified
  {
    if steps != [] {
      var before, step := steps[..|steps| - 1], steps[|steps| - 1];
      RunKeeps(s, before);
      IdentifiersStay(s, before);
      StepEvolves(Run(s, before), step);
      NotifiedStays(s, before, id);
      NotifiedStep(Run(s, before), step, id);
    }
  }

  /** Once the delivery of an invitation is recorded, the sweep leaves it alone in every continuation. */
  lemma SweepSparesDelivered(before: seq<Step>, org: OrgId, id: InvId, after: seq<Step>, sweeper: OrgId)
    requires id in Run(INITIAL, before).db.invitations && Run(INITIAL, before).db.invitations[id].org == org
    ensures var later := Run(Next(Run(INITIAL, before), MarkNotified(org, id)), after);
            Next(later, Redeliver(sweeper, id)) == later
  {
    RunKeeps(INITIAL, before);
    var s := Run(INITIAL, before);
    var s1 := Next(s, MarkNotified(org, id));
    MarkRecords(s, org, id);
    NextKeeps(s, MarkNotified(org, id));
    if id in Run(s1, after).db.invitations {
      NotifiedStays(s1, after, id);
    }
    NotifiedIsSpared(Run(s1, after), sweeper, id);
  }

  lemma MarkRecords(s: State, org: OrgId, id: InvId)
    requires id in s.db.invitations && s.db.invitations[id].org == org
    ensures id in Next(s, MarkNotified(org, id)).db.invitations && Next(s, MarkNotified(org, id)).db.invitations[id].notified
  {
  }

  lemma NotifiedIsSpared(s: State, sweeper: OrgId, id: InvId)
    requires id in s.db.invitations ==> s.db.invitations[id].notified
    ensures Next(s, Redeliver(sweeper, id)) == s
  {
  }

  /** The sweep gives every listed row that is pending and undelivered a new token and keeps its expiry; other rows stay. */
  lemma {:induction false} SweepRotatesListed(db: Db, org: OrgId, ids: seq<InvId>, id: InvId)
    requires id in db.invitations
    ensures var db' := RedeliverAll(db, org, ids);
            && id in db'.invitations && db'.nextToken >= db.nextToken
            && db'.invitations[id].expiresAt == db.invitations[id].expiresAt
            && db'.invitations[id].status == db.invitations[id].status
            && db'.invitations[id].org == db.invitations[id].org && db'.invitations[id].notified == db.invitations[id].notified
            && (if id in ids && db.invitations[id].org == org && db.invitations[id].status == Pending && !db.invitations[id].notified
                then db.nextToken <= db'.invitations[id].token < db'.nextToken
                else db'.invitations[id] == db.invitations[id])
  {
    if ids != [] {
      SweepRotatesListed(db, org, ids[..|ids| - 1], id);
      assert id in ids <==> id in ids[..|ids| - 1] || id == ids[|ids| - 1];
    }
  }

  // ---- One open invitation ----

  ghost predicate OneOpen(db: Db) {
    forall a, b | a in db.invitations && b in db.invitations && db.invitations[a].status == Pending && db.invitations[b].status == Pending
                  && db.invitations[a].org == db.invitations[b].org && db.invitations[a].email.folded == db.invitations[b].email.folded :: a == b
  }

  lemma NoNewRows(s: State, step: Step)
    requires Unique(s.db) && !step.Create?
    ensures forall id | id in Next(s, step).db.invitations :: id in s.db.invitations
  {
    SurroundingsEvolve(s.db, step);
    if step.AcceptCommit? && step.tx in s.readings {
      AcceptanceIsNarrow(s.db, s.readings[step.tx], step.caller);
    }
  }

  lemma OneOpenStays(db: Db, db': Db)
    requires OneOpen(db) && Evolves(db, db') && (forall id | id in db'.invitations :: id in db.invitations)
    ensures OneOpen(db')
  {
    forall a, b | a in db'.invitations && b in db'.invitations && db'.invitations[a].status == Pending && db'.invitations[b].status == Pending
                  && db'.invitations[a].org == db'.invitations[b].org && db'.invitations[a].email.folded == db'.invitations[b].email.folded
      ensures a == b
    {
      assert RowEvolves(db, db.invitations[a], db'.invitations[a]) && RowEvolves(db, db.invitations[b], db'.invitations[b]);
    }
  }

  lemma CreateKeepsOneOpen(db: Db, asOwner: bool, org: OrgId, email: Email, role: RoleId, expiresAt: int)
    requires OneOpen(db)
    ensures OneOpen(CreateTx(db, asOwner, org, email, role, expiresAt).0)
  {
  }

  /** In every run, an organization has at most one pending invitation per address. */
  lemma {:induction false} OneOpenInvitation(steps: seq<Step>)
    ensures OneOpen(Run(INITIAL, steps).db)
  {
    if steps != [] {
      var before, step := steps[..|steps| - 1], steps[|steps| - 1];
      OneOpenInvitation(before);
      RunKeeps(INITIAL, before);
      var s := Run(INITIAL, before);
      if step.Create? {
        CreateKeepsOneOpen(s.db, step.asOwner, step.org, step.email, step.role, step.expiresAt);
      } else {
        StepEvolves(s, step);
        NoNewRows(s, step);
        OneOpenStays(s.db, Next(s, step).db);
      }
    }
  }
}
