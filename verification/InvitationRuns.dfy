/**
 Invitations over whole runs. Transactions are atomic steps; acceptance takes two, an unlocked read
 and a locked transaction, with anything in between.
 */
module InvitationRuns {
  import opened Prelude
  import opened Text
  import opened Invitations

  type TxId = nat

  /** What the unlocked read of an acceptance returned, and the clock reading taken after it. */
  datatype Reading = Reading(token: Token, id: InvId, found: Invitation, now: int)

  /** Which membership an accepted invitation created; kept when the invitation row is deleted. */
  datatype Joining = Joining(org: OrgId, user: UserId, role: RoleId, email: Email)

  type Joinings = map<InvId, Joining>

  datatype State = State(db: Db, readings: map<TxId, Reading>, joinings: Joinings)

  const INITIAL := State(Db(map[], map[], map[], map[], {}, 0, 0, 0, 0, 0), map[], map[])

  datatype Step =
    | Register(email: Email)
    | FoundOrganization(user: UserId)
    | AddRole(org: OrgId)
    | DeleteRole(role: RoleId)
    | AssignRole(key: MemberKey, role: RoleId)
    | SetActive(user: UserId, active: bool)
    | Create(asOwner: bool, org: OrgId, email: Email, role: RoleId, expiresAt: int)
    | Resend(org: OrgId, id: InvId, expiresAt: int)
    | Redeliver(org: OrgId, id: InvId)
    | MarkNotified(org: OrgId, id: InvId)
    | Revoke(org: OrgId, id: InvId)
    | AcceptRead(tx: TxId, token: Token, now: int)
    | AcceptCommit(tx: TxId, caller: Option<UserId>)

  function RegisterTx(db: Db, email: Email): Db {
    db.(users := db.users[db.nextUser := User(email, true)], nextUser := db.nextUser + 1)
  }

  /** A new organization: its owner role and the founder's membership. */
  function FoundTx(db: Db, user: UserId): Db {
    db.(roles := db.roles[db.nextRole := db.nextOrg], owners := db.owners + {db.nextRole},
        members := db.members[MemberKey(db.nextOrg, user) := Membership(db.nextRole, db.nextRole, Founder)],
        nextOrg := db.nextOrg + 1, nextRole := db.nextRole + 1)
  }

  /** The steps that touch neither invitations nor the source of a membership. */
  ghost function Surroundings(db: Db, step: Step): Db {
    match step
    case Register(email) => if AccountOf(db, email).Some? then db else RegisterTx(db, email)
    case FoundOrganization(user) => if user !in db.users then db else FoundTx(db, user)
    case AddRole(org) =>
      if org >= db.nextOrg then db else db.(roles := db.roles[db.nextRole := org], nextRole := db.nextRole + 1)
    case AssignRole(key, role) =>
      if key !in db.members || role !in db.roles || db.roles[role] != key.org then db
      else db.(members := db.members[key := db.members[key].(role := role)])
    case SetActive(user, active) =>
      if user !in db.users then db else db.(users := db.users[user := db.users[user].(active := active)])
    case _ => db
  }

  ghost function Administration(db: Db, step: Step): Db {
    match step
    case DeleteRole(role) => DeleteRoleTx(db, role)
    case Create(asOwner, org, email, role, expiresAt) => CreateTx(db, asOwner, org, email, role, expiresAt).0
    case Resend(org, id, expiresAt) => ResendTx(db, org, id, expiresAt).0
    case Redeliver(org, id) => RedeliverTx(db, org, id)
    case MarkNotified(org, id) => MarkNotifiedTx(db, org, id)
    case Revoke(org, id) => RevokeTx(db, org, id).0
    case _ => db
  }

  ghost function Read(s: State, tx: TxId, token: Token, now: int): State {
    var id := ByToken(s.db, token);
    if tx in s.readings || id.None? then s
    else s.(readings := s.readings[tx := Reading(token, id.value, s.db.invitations[id.value], now)])
  }

  /** The locked transaction of an acceptance, with the record of who joined. */
  ghost function Settle(db: Db, joinings: Joinings, r: Reading, caller: Option<UserId>): (Db, Joinings) {
    var (db', answer) := AcceptTx(db, r.token, r.found, r.now, caller);
    var id := ByToken(db, r.token);
    if answer.Joined? && id.Some? then
      var inv := db.invitations[id.value];
      (db', joinings[id.value := Joining(inv.org, answer.user, inv.role, inv.email)])
    else (db', joinings)
  }

  ghost function Commit(s: State, tx: TxId, caller: Option<UserId>): State {
    if tx !in s.readings then s
    else
      var (db', joinings') := Settle(s.db, s.joinings, s.readings[tx], caller);
      State(db', s.readings - {tx}, joinings')
  }

  ghost function Next(s: State, step: Step): State {
    match step
    case AcceptRead(tx, token, now) => Read(s, tx, token, now)
    case AcceptCommit(tx, caller) => Commit(s, tx, caller)
    case Register(_) => s.(db := Surroundings(s.db, step))
    case FoundOrganization(_) => s.(db := Surroundings(s.db, step))
    case AddRole(_) => s.(db := Surroundings(s.db, step))
    case AssignRole(_, _) => s.(db := Surroundings(s.db, step))
    case SetActive(_, _) => s.(db := Surroundings(s.db, step))
    case _ => s.(db := Administration(s.db, step))
  }

  ghost function Run(s: State, steps: seq<Step>): State {
    if steps == [] then s else Next(Run(s, steps[..|steps| - 1]), steps[|steps| - 1])
  }

  /** How a database may change in one step, as far as invitations are concerned. */
  ghost predicate Evolves(db: Db, db': Db) {
    && db.nextInvitation <= db'.nextInvitation && db.nextToken <= db'.nextToken
    && (forall id | id in db'.invitations && id !in db.invitations ::
          id >= db.nextInvitation && db'.invitations[id].token >= db.nextToken)
    && (forall id | id in db.invitations && id in db'.invitations :: RowEvolves(db, db.invitations[id], db'.invitations[id]))
  }

  /** A stored end state stays; the expiry only changes together with the token, and a new token is fresh. */
  ghost predicate RowEvolves(db: Db, inv: Invitation, inv': Invitation) {
    && inv'.org == inv.org && inv'.email == inv.email && inv'.role == inv.role
    && (inv.status != Pending ==> inv'.status == inv.status && inv'.acceptedBy == inv.acceptedBy && inv'.token == inv.token)
    && (inv'.token == inv.token ==> inv'.expiresAt == inv.expiresAt)
    && (inv'.token != inv.token ==> inv'.token >= db.nextToken && inv'.status == Pending)
  }

  /** A membership and its invitation change together. */
  ghost predicate Joins(db: Db, db': Db, id: InvId, user: UserId) {
    && id in db.invitations && db.invitations[id].status == Pending
    && var inv := db.invitations[id];
       var key := MemberKey(inv.org, user);
       && key !in db.members
       && db'.members == db.members[key := Membership(inv.role, inv.role, ViaInvitation(id))]
       && db'.invitations == db.invitations[id := inv.(status := Accepted, acceptedBy := Some(user))]
       && user in db'.users && Normalized(db'.users[user].email) == Normalized(inv.email)
       && (db'.users == db.users
           || (user == db.nextUser && db'.users == db.users[user := db'.users[user]] && db'.nextUser == user + 1
               && AccountOf(db, inv.email).None? && db'.users[user].email == Normalized(inv.email)))
       && db' == db.(members := db'.members, invitations := db'.invitations, users := db'.users, nextUser := db'.nextUser)
       && (db'.users == db.users ==> db'.nextUser == db.nextUser)
  }

  ghost predicate Expires(db: Db, db': Db, id: InvId, now: int) {
    && id in db.invitations && db.invitations[id].status == Pending && now > db.invitations[id].expiresAt
    && db' == db.(invitations := db.invitations[id := db.invitations[id].(status := Expired)])
  }

  /** Every ending of the locked transaction: nothing, a row marked expired, or a joined member. */
  lemma AcceptEndings(db: Db, id: InvId, now: int, caller: Option<UserId>)
    requires Unique(db) && id in db.invitations
    ensures var (db', ending) := AcceptLocked(db, id, now, caller);
            match ending
            case MarkedExpired => Expires(db, db', id, now)
            case Answered(answer) => if answer.Joined? then Joins(db, db', id, answer.user) else db' == db
  {
  }

  lemma JoinEvolves(db: Db, db': Db, id: InvId, user: UserId)
    requires Joins(db, db', id, user)
    ensures Evolves(db, db')
  {
  }

  lemma AcceptEvolves(db: Db, token: Token, found: Invitation, now: int, caller: Option<UserId>)
    requires Unique(db)
    ensures Evolves(db, AcceptTx(db, token, found, now, caller).0)
  {
    var id := ByToken(db, token);
    if id.Some? {
      AcceptEndings(db, id.value, now, caller);
      var (db', ending) := AcceptLocked(db, id.value, now, caller);
      if ending.Answered? && ending.answer.Joined? {
        JoinEvolves(db, db', id.value, ending.answer.user);
      }
    }
  }

  lemma SurroundingsEvolve(db: Db, step: Step)
    ensures Evolves(db, Surroundings(db, step))
    ensures Surroundings(db, step).invitations == db.invitations
  {
  }

  lemma CreateEvolves(db: Db, asOwner: bool, org: OrgId, email: Email, role: RoleId, expiresAt: int)
    requires Unique(db)
    ensures Evolves(db, CreateTx(db, asOwner, org, email, role, expiresAt).0)
  {
  }

  lemma AdministrationEvolves(db: Db, step: Step)
    requires Unique(db)
    ensures Evolves(db, Administration(db, step))
  {
    match step
    case Create(asOwner, org, email, role, expiresAt) => CreateEvolves(db, asOwner, org, email, role, expiresAt);
    case Resend(org, id, expiresAt) => ResendEvolves(db, org, id, expiresAt);
    case Redeliver(org, id) => RedeliverEvolves(db, org, id);
    case _ => OtherEvolves(db, step);
  }

  lemma ResendEvolves(db: Db, org: OrgId, id: InvId, expiresAt: int)
    requires Unique(db)
    ensures Evolves(db, ResendTx(db, org, id, expiresAt).0)
  {
  }

  lemma RedeliverEvolves(db: Db, org: OrgId, id: InvId)
    requires Unique(db)
    ensures Evolves(db, RedeliverTx(db, org, id))
  {
  }

  lemma OtherEvolves(db: Db, step: Step)
    requires !step.Create? && !step.Resend? && !step.Redeliver?
    ensures Evolves(db, Administration(db, step))
  {
  }

  lemma StepEvolves(s: State, step: Step)
    requires Unique(s.db)
    ensures Evolves(s.db, Next(s, step).db)
  {
    SurroundingsEvolve(s.db, step);
    AdministrationEvolves(s.db, step);
    if step.AcceptCommit? && step.tx in s.readings {
      var r := s.readings[step.tx];
      AcceptEvolves(s.db, r.token, r.found, r.now, step.caller);
    }
  }

  /** An accepted invitation and the membership it created, for the account with its address. */
  ghost predicate Accounted(db: Db, joinings: Joinings, id: InvId) {
    && id in joinings && id < db.nextInvitation
    && var j := joinings[id];
       var key := MemberKey(j.org, j.user);
       && key in db.members && db.members[key].source == ViaInvitation(id) && db.members[key].granted == j.role
       && j.user in db.users && Normalized(db.users[j.user].email) == Normalized(j.email)
  }

  ghost predicate RowMatches(db: Db, joinings: Joinings, id: InvId) {
    && id in db.invitations
    && var inv := db.invitations[id];
       && (inv.status == Accepted <==> id in joinings)
       && (id in joinings ==> joinings[id] == Joining(inv.org, joinings[id].user, inv.role, inv.email))
       && (id in joinings ==> inv.acceptedBy == Some(joinings[id].user))
       && (inv.acceptedBy.Some? ==> inv.status == Accepted)
  }

  ghost predicate SourceKnown(db: Db, joinings: Joinings, key: MemberKey) {
    && key in db.members && key.org < db.nextOrg
    && (db.members[key].source.ViaInvitation? ==>
          && db.members[key].source.id in joinings
          && joinings[db.members[key].source.id].org == key.org
          && joinings[db.members[key].source.id].user == key.user)
  }

  ghost predicate Memberships(db: Db, joinings: Joinings) {
    && (forall id | id in joinings :: Accounted(db, joinings, id))
    && (forall id | id in db.invitations :: RowMatches(db, joinings, id))
    && (forall key | key in db.members :: SourceKnown(db, joinings, key))
  }

  /** What an acceptance read without a lock still says about the row, as long as the token is current. */
  ghost predicate ReadingHolds(db: Db, r: Reading) {
    && r.found.token == r.token && r.token < db.nextToken
    && forall id | Holds(db, id, r.token) ::
         && id == r.id
         && db.invitations[id].expiresAt == r.found.expiresAt
         && (db.invitations[id].status == Pending ==> r.found.status == Pending)
  }

  ghost predicate Inv(s: State) {
    && Unique(s.db) && Addresses(s.db) && Owned(s.db)
    && Memberships(s.db, s.joinings)
    && forall tx | tx in s.readings :: ReadingHolds(s.db, s.readings[tx])
  }

  /** Roles, and so the invitations that name them, belong to organizations that exist. */
  ghost predicate Owned(db: Db) {
    && (forall role | role in db.roles :: db.roles[role] < db.nextOrg)
    && (forall id | id in db.invitations :: db.invitations[id].org < db.nextOrg)
  }

  lemma TokenStaysGone(db: Db, db': Db, token: Token)
    requires Evolves(db, db') && token < db.nextToken
    requires forall id :: !Holds(db, id, token)
    ensures forall id :: !Holds(db', id, token)
  {
    forall id ensures !Holds(db', id, token) {
      assert !Holds(db, id, token);
    }
  }

  lemma ReadingStays(db: Db, db': Db, r: Reading)
    requires Evolves(db, db') && ReadingHolds(db, r)
    ensures ReadingHolds(db', r)
  {
    forall id | Holds(db', id, r.token)
      ensures id == r.id && db'.invitations[id].expiresAt == r.found.expiresAt
           && (db'.invitations[id].status == Pending ==> r.found.status == Pending)
    {
      assert Holds(db, id, r.token);
      assert RowEvolves(db, db.invitations[id], db'.invitations[id]);
    }
  }

  ghost predicate Addresses(db: Db) {
    forall id | id in db.invitations :: db.invitations[id].email == Normalized(db.invitations[id].email)
  }

  lemma RegisterKeepsUnique(db: Db, email: Email)
    requires Unique(db) && AccountOf(db, email).None?
    ensures Unique(RegisterTx(db, email))
  {
    assert forall u | u in db.users :: !IsAccountOf(db, u, email);
  }

  lemma SurroundingsKeepUnique(db: Db, step: Step)
    requires Unique(db)
    ensures Unique(Surroundings(db, step))
  {
    if step.Register? && AccountOf(db, step.email).None? {
      RegisterKeepsUnique(db, step.email);
    }
  }

  lemma AdministrationKeepsUnique(db: Db, step: Step)
    requires Unique(db) && Addresses(db)
    ensures Unique(Administration(db, step)) && Addresses(Administration(db, step))
  {
    if step.Create? {
      CreateKeepsUnique(db, step.asOwner, step.org, step.email, step.role, step.expiresAt);
      CreateKeepsAddresses(db, step.asOwner, step.org, step.email, step.role, step.expiresAt);
    }
  }

  lemma CreateKeepsAddresses(db: Db, asOwner: bool, org: OrgId, email: Email, role: RoleId, expiresAt: int)
    requires Addresses(db)
    ensures Addresses(CreateTx(db, asOwner, org, email, role, expiresAt).0)
  {
  }

  lemma JoinKeepsUnique(db: Db, db': Db, id: InvId, user: UserId)
    requires Unique(db) && Addresses(db) && Joins(db, db', id, user)
    ensures Unique(db') && Addresses(db')
  {
    assert db'.users != db.users ==> forall u | u in db.users :: !IsAccountOf(db, u, db.invitations[id].email);
  }

  /** Accounts and memberships stay, with their addresses and sources; a new membership is a founder's. */
  ghost predicate KeepsPeople(db: Db, db': Db) {
    && db'.invitations == db.invitations
    && db.nextInvitation <= db'.nextInvitation && db.nextOrg <= db'.nextOrg
    && (forall u | u in db.users :: u in db'.users && db'.users[u].email == db.users[u].email)
    && (forall k | k in db.members :: k in db'.members && db'.members[k].source == db.members[k].source && db'.members[k].granted == db.members[k].granted)
    && (forall k | k in db'.members && k !in db.members :: db'.members[k].source == Founder && k.org < db'.nextOrg)
  }

  lemma SurroundingsKeepPeople(db: Db, step: Step)
    requires db.nextUser !in db.users
    requires forall user :: MemberKey(db.nextOrg, user) !in db.members
    ensures KeepsPeople(db, Surroundings(db, step))
  {
  }

  lemma PeopleKeepMemberships(db: Db, db': Db, joinings: Joinings)
    requires Memberships(db, joinings) && KeepsPeople(db, db')
    ensures Memberships(db', joinings)
  {
    forall id | id in joinings ensures Accounted(db', joinings, id) {
      assert Accounted(db, joinings, id);
    }
    forall id | id in db'.invitations ensures RowMatches(db', joinings, id) {
      assert RowMatches(db, joinings, id);
    }
    forall key | key in db'.members ensures SourceKnown(db', joinings, key) {
      assert key in db.members ==> SourceKnown(db, joinings, key);
    }
  }

  lemma SurroundingsKeepMemberships(db: Db, joinings: Joinings, step: Step)
    requires Unique(db) && Memberships(db, joinings)
    ensures Memberships(Surroundings(db, step), joinings)
  {
    forall user ensures MemberKey(db.nextOrg, user) !in db.members {
      assert MemberKey(db.nextOrg, user) in db.members ==> SourceKnown(db, joinings, MemberKey(db.nextOrg, user));
    }
    SurroundingsKeepPeople(db, step);
    PeopleKeepMemberships(db, Surroundings(db, step), joinings);
  }

  lemma AdministrationKeepsMemberships(db: Db, joinings: Joinings, step: Step)
    requires Memberships(db, joinings)
    ensures Memberships(Administration(db, step), joinings)
  {
    var db' := Administration(db, step);
    AdministrationKeepsPeople(db, step);
    forall id | id in joinings ensures Accounted(db', joinings, id) {
      assert Accounted(db, joinings, id);
    }
    forall id | id in db'.invitations ensures RowMatches(db', joinings, id) {
      AdministrationKeepsRow(db, joinings, step, id);
    }
    forall key | key in db'.members ensures SourceKnown(db', joinings, key) {
      assert SourceKnown(db, joinings, key);
    }
  }

  lemma AdministrationKeepsPeople(db: Db, step: Step)
    ensures var db' := Administration(db, step);
            db'.users == db.users && db'.members == db.members && db'.nextOrg == db.nextOrg && db.nextInvitation <= db'.nextInvitation
  {
  }

  lemma AdministrationKeepsRow(db: Db, joinings: Joinings, step: Step, id: InvId)
    requires Memberships(db, joinings) && id in Administration(db, step).invitations
    ensures RowMatches(Administration(db, step), joinings, id)
  {
    assert id in db.invitations ==> RowMatches(db, joinings, id);
    assert id in joinings ==> Accounted(db, joinings, id);
  }

  lemma ExpiryKeepsMemberships(db: Db, db': Db, joinings: Joinings, id: InvId, now: int)
    requires Memberships(db, joinings) && Expires(db, db', id, now)
    ensures Memberships(db', joinings)
  {
    forall other | other in joinings ensures Accounted(db', joinings, other) {
      assert Accounted(db, joinings, other);
    }
    forall other | other in db'.invitations ensures RowMatches(db', joinings, other) {
      assert RowMatches(db, joinings, other);
    }
    forall key | key in db'.members ensures SourceKnown(db', joinings, key) {
      assert SourceKnown(db, joinings, key);
    }
  }

  lemma JoinKeepsMemberships(db: Db, db': Db, joinings: Joinings, id: InvId, user: UserId)
    requires Unique(db) && Owned(db) && Memberships(db, joinings) && Joins(db, db', id, user)
    ensures var inv := db.invitations[id];
            Memberships(db', joinings[id := Joining(inv.org, user, inv.role, inv.email)])
  {
    var inv := db.invitations[id];
    var joinings' := joinings[id := Joining(inv.org, user, inv.role, inv.email)];
    assert RowMatches(db, joinings, id);
    forall other | other in joinings' ensures Accounted(db', joinings', other) {
      assert other != id ==> Accounted(db, joinings, other);
    }
    forall other | other in db'.invitations ensures RowMatches(db', joinings', other) {
      assert RowMatches(db, joinings, other);
    }
    forall key | key in db'.members ensures SourceKnown(db', joinings', key) {
      assert key in db.members ==> SourceKnown(db, joinings, key);
    }
  }
}
