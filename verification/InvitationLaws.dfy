/** What holds of invitations in every run: single use, only the newest token, and a truthful expiry verdict. */
module InvitationLaws {
  import opened Prelude
  import opened Text
  import opened Invitations
  import opened InvitationRuns

  lemma SurroundingsKeep(s: State, step: Step)
    requires Inv(s)
    ensures Inv(s.(db := Surroundings(s.db, step)))
  {
    var db' := Surroundings(s.db, step);
    SurroundingsKeepUnique(s.db, step);
    SurroundingsKeepMemberships(s.db, s.joinings, step);
    SurroundingsEvolve(s.db, step);
    SurroundingsKeepOwned(s.db, step);
    ReadingsStay(s, db');
  }

  lemma ReadingsStay(s: State, db': Db)
    requires Evolves(s.db, db') && forall tx | tx in s.readings :: ReadingHolds(s.db, s.readings[tx])
    ensures forall tx | tx in s.readings :: ReadingHolds(db', s.readings[tx])
  {
    forall tx | tx in s.readings ensures ReadingHolds(db', s.readings[tx]) {
      ReadingStays(s.db, db', s.readings[tx]);
    }
  }

  lemma SurroundingsKeepOwned(db: Db, step: Step)
    requires Owned(db)
    ensures Owned(Surroundings(db, step))
  {
  }

  lemma AdministrationKeepsOwned(db: Db, step: Step)
    requires Owned(db)
    ensures Owned(Administration(db, step))
  {
  }

  lemma AdministrationKeeps(s: State, step: Step)
    requires Inv(s)
    ensures Inv(s.(db := Administration(s.db, step)))
  {
    var db' := Administration(s.db, step);
    AdministrationKeepsUnique(s.db, step);
    AdministrationKeepsMemberships(s.db, s.joinings, step);
    AdministrationEvolves(s.db, step);
    AdministrationKeepsOwned(s.db, step);
    ReadingsStay(s, db');
  }

  lemma ReadKeeps(s: State, tx: TxId, token: Token, now: int)
    requires Inv(s)
    ensures Inv(Read(s, tx, token, now))
  {
    var id := ByToken(s.db, token);
    if tx !in s.readings && id.Some? {
      var r := Reading(token, id.value, s.db.invitations[id.value], now);
      assert ReadingHolds(s.db, r);
    }
  }

  ghost predicate Sound(db: Db, joinings: Joinings) {
    Unique(db) && Addresses(db) && Owned(db) && Memberships(db, joinings)
  }

  lemma ExpirySound(db: Db, db': Db, joinings: Joinings, id: InvId, now: int)
    requires Sound(db, joinings) && Expires(db, db', id, now)
    ensures Sound(db', joinings)
  {
    ExpiryKeepsMemberships(db, db', joinings, id, now);
  }

  lemma JoinSound(db: Db, db': Db, joinings: Joinings, id: InvId, user: UserId)
    requires Sound(db, joinings) && Joins(db, db', id, user)
    ensures var inv := db.invitations[id];
            Sound(db', joinings[id := Joining(inv.org, user, inv.role, inv.email)])
  {
    JoinKeepsUnique(db, db', id, user);
    JoinKeepsMemberships(db, db', joinings, id, user);
  }

  lemma SettleKeeps(db: Db, joinings: Joinings, r: Reading, caller: Option<UserId>)
    requires Sound(db, joinings)
    ensures Sound(Settle(db, joinings, r, caller).0, Settle(db, joinings, r, caller).1)
  {
    var settled := Settle(db, joinings, r, caller);
    var id := ByToken(db, r.token);
    if id.None? {
      assert settled == (db, joinings);
      return;
    }
    AcceptEndings(db, id.value, r.now, caller);
    var (db', ending) := AcceptLocked(db, id.value, r.now, caller);
    if ending.MarkedExpired? {
      assert settled == (db', joinings);
      ExpirySound(db, db', joinings, id.value, r.now);
    } else if ending.answer.Joined? {
      JoinSound(db, db', joinings, id.value, ending.answer.user);
    } else {
      assert settled == (db, joinings);
    }
  }

  lemma CommitKeeps(s: State, tx: TxId, caller: Option<UserId>)
    requires Inv(s)
    ensures Inv(Commit(s, tx, caller))
  {
    if tx in s.readings {
      var s', r := Commit(s, tx, caller), s.readings[tx];
      SettleKeeps(s.db, s.joinings, r, caller);
      AcceptEvolves(s.db, r.token, r.found, r.now, caller);
      forall other | other in s'.readings ensures ReadingHolds(s'.db, s'.readings[other]) {
        ReadingStays(s.db, s'.db, s.readings[other]);
      }
    }
  }

  lemma NextKeeps(s: State, step: Step)
    requires Inv(s)
    ensures Inv(Next(s, step))
  {
    SurroundingsKeep(s, step);
    AdministrationKeeps(s, step);
    match step
    case AcceptRead(tx, token, now) => ReadKeeps(s, tx, token, now);
    case AcceptCommit(tx, caller) => CommitKeeps(s, tx, caller);
    case _ =>
  }

  lemma {:induction false} RunKeeps(s: State, steps: seq<Step>)
    requires Inv(s)
    ensures Inv(Run(s, steps))
  {
    if steps != [] {
      RunKeeps(s, steps[..|steps| - 1]);
      NextKeeps(Run(s, steps[..|steps| - 1]), steps[|steps| - 1]);
    }
  }

  /** Stored end states are absorbing: an accepted, revoked or expired row never changes status again. */
  lemma {:induction false} EndStatesAbsorb(s: State, steps: seq<Step>, id: InvId)
    requires Inv(s) && id in s.db.invitations && s.db.invitations[id].status != Pending
    requires id in Run(s, steps).db.invitations
    ensures Run(s, steps).db.invitations[id].status == s.db.invitations[id].status
    ensures Run(s, steps).db.invitations[id].acceptedBy == s.db.invitations[id].acceptedBy
    ensures Run(s, steps).db.invitations[id].token == s.db.invitations[id].token
  {
    if steps != [] {
      var before := steps[..|steps| - 1];
      RunKeeps(s, before);
      StepEvolves(Run(s, before), steps[|steps| - 1]);
      IdentifiersStay(s, before);
      EndStatesAbsorb(s, before, id);
      var db, db' := Run(s, before).db, Run(s, steps).db;
      assert RowEvolves(db, db.invitations[id], db'.invitations[id]);
    }
  }

  lemma {:induction false} IdentifiersStay(s: State, steps: seq<Step>)
    requires Inv(s)
    ensures s.db.nextInvitation <= Run(s, steps).db.nextInvitation && s.db.nextToken <= Run(s, steps).db.nextToken
  {
    if steps != [] {
      var before := steps[..|steps| - 1];
      IdentifiersStay(s, before);
      RunKeeps(s, before);
      StepEvolves(Run(s, before), steps[|steps| - 1]);
    }
  }

  /**
   Single use: a stored invitation is accepted exactly when some membership came from it, and then
   that is one membership, in its organization, granted with its role, of the `accepted_by` account
   whose normalised address is the invitation's.
   */
  lemma AcceptedIffJoined(steps: seq<Step>, id: InvId)
    requires id in Run(INITIAL, steps).db.invitations
    ensures var db := Run(INITIAL, steps).db;
            var inv := db.invitations[id];
            && (inv.status == Accepted <==> exists key :: key in db.members && db.members[key].source == ViaInvitation(id))
            && (forall key | key in db.members && db.members[key].source == ViaInvitation(id) ::
                  && key.org == inv.org && inv.acceptedBy == Some(key.user)
                  && db.members[key].granted == inv.role
                  && key.user in db.users && Normalized(db.users[key.user].email) == Normalized(inv.email))
  {
    RunKeeps(INITIAL, steps);
    var s := Run(INITIAL, steps);
    assert RowMatches(s.db, s.joinings, id);
    if s.db.invitations[id].status == Accepted {
      assert Accounted(s.db, s.joinings, id);
    }
    forall key | key in s.db.members && s.db.members[key].source == ViaInvitation(id)
      ensures id in s.joinings && s.joinings[id].org == key.org && s.joinings[id].user == key.user && Accounted(s.db, s.joinings, id)
    {
      assert SourceKnown(s.db, s.joinings, key);
    }
  }

  /** Every membership belongs to a founder or came from one acceptance, and no two share an invitation. */
  lemma MembershipSources(steps: seq<Step>, key: MemberKey, other: MemberKey)
    requires key in Run(INITIAL, steps).db.members && other in Run(INITIAL, steps).db.members
    ensures var s := Run(INITIAL, steps);
            && (s.db.members[key].source.Founder? || s.db.members[key].source.id in s.joinings)
            && (s.db.members[key].source.ViaInvitation? && s.db.members[key].source == s.db.members[other].source ==> key == other)
  {
    RunKeeps(INITIAL, steps);
    var s := Run(INITIAL, steps);
    assert SourceKnown(s.db, s.joinings, key) && SourceKnown(s.db, s.joinings, other);
  }

  /** A token no row holds any more stays that way in every continuation. */
  lemma {:induction false} GoneForever(s: State, steps: seq<Step>, token: Token)
    requires Inv(s) && token < s.db.nextToken
    requires forall id :: !Holds(s.db, id, token)
    ensures forall id :: !Holds(Run(s, steps).db, id, token)
  {
    if steps != [] {
      var before := steps[..|steps| - 1];
      GoneForever(s, before, token);
      RunKeeps(s, before);
      IdentifiersStay(s, before);
      StepEvolves(Run(s, before), steps[|steps| - 1]);
      TokenStaysGone(Run(s, before).db, Run(s, steps).db, token);
    }
  }

  /**
   Only the newest token opens an invitation. Once a resend or a redelivery has rotated the token
   of a row, the old token is answered "not found" in every later state, also by an acceptance
   whose unlocked read still saw it.
   */
  lemma SupersededNeverOpens(before: seq<Step>, rotation: Step, after: seq<Step>, id: InvId, found: Invitation, now: int, caller: Option<UserId>)
    requires rotation.Resend? || rotation.Redeliver?
    requires var s := Run(INITIAL, before);
             && id in s.db.invitations && id in Next(s, rotation).db.invitations
             && Next(s, rotation).db.invitations[id].token != s.db.invitations[id].token
    ensures var s := Run(INITIAL, before);
            var superseded := s.db.invitations[id].token;
            var later := Run(Next(s, rotation), after);
            AcceptTx(later.db, superseded, found, now, caller) == (later.db, NotFound)
  {
    RunKeeps(INITIAL, before);
    var s := Run(INITIAL, before);
    NextKeeps(s, rotation);
    StepEvolves(s, rotation);
    RotationDropsToken(s.db, Next(s, rotation).db, id);
    GoneForever(Next(s, rotation), after, s.db.invitations[id].token);
  }

  lemma RotationDropsToken(db: Db, db': Db, id: InvId)
    requires Unique(db) && Evolves(db, db') && id in db.invitations && id in db'.invitations
    requires db'.invitations[id].token != db.invitations[id].token
    ensures forall other :: !Holds(db', other, db.invitations[id].token)
  {
    forall other ensures !Holds(db', other, db.invitations[id].token) {
    }
  }

  /**
   The verdict built from the stale read is right: whenever the locked transaction marks the row
   expired, the answer is that the invitation has expired.
   */
  lemma ExpiredVerdictIsRight(steps: seq<Step>, tx: TxId, caller: Option<UserId>)
    requires tx in Run(INITIAL, steps).readings
    ensures var s := Run(INITIAL, steps);
            var r := s.readings[tx];
            var id := ByToken(s.db, r.token);
            (id.Some? && AcceptLocked(s.db, id.value, r.now, caller).1.MarkedExpired?
             ==> AcceptTx(s.db, r.token, r.found, r.now, caller).1 == HasExpired)
  {
    RunKeeps(INITIAL, steps);
    var s := Run(INITIAL, steps);
    assert ReadingHolds(s.db, s.readings[tx]);
  }
}
