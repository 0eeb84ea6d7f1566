/** Organization invitations: creation, token rotation, revocation and the two reads of acceptance. */
module Invitations {
  import opened Prelude
  import opened Text

  type InvId = nat
  type OrgId = nat
  type RoleId = nat
  type UserId = nat

  /** A raw invitation token. Only its hash is stored; hashing is injective, so the token stands for it. */
  type Token = nat

  datatype Status = Pending | Accepted | Revoked | Expired

  datatype Invitation = Invitation(
    org: OrgId,
    email: Email,
    role: RoleId,
    status: Status,
    token: Token,
    expiresAt: int,
    acceptedBy: Option<UserId>,
    notified: bool,
    attempts: nat)

  datatype User = User(email: Email, active: bool)

  datatype Source = Founder | ViaInvitation(id: InvId)

  /** `granted` is the role at creation; `role` may be reassigned later. */
  datatype Membership = Membership(role: RoleId, granted: RoleId, source: Source)

  /** Memberships are unique per organization and user, and every one of them is active. */
  datatype MemberKey = MemberKey(org: OrgId, user: UserId)

  /** `owners` are the roles called Owner. */
  datatype Db = Db(
    invitations: map<InvId, Invitation>,
    users: map<UserId, User>,
    members: map<MemberKey, Membership>,
    roles: map<RoleId, OrgId>,
    owners: set<RoleId>,
    nextInvitation: InvId,
    nextToken: Token,
    nextUser: UserId,
    nextOrg: OrgId,
    nextRole: RoleId)

  datatype Answer =
    | Joined(user: UserId)
    | NotFound
    | AlreadyAccepted
    | WasRevoked
    | HasExpired
    | RoleNotFound
    | NotAuthorized
    | EmailMismatch
    | AccountExists
    | AlreadyMember
    | AlreadyPending
    | NotActive
    | Forbidden
    | Done

  function EffectiveStatus(inv: Invitation, now: int): Status {
    if inv.status == Pending && now > inv.expiresAt then Expired else inv.status
  }

  predicate IsUsable(inv: Invitation, now: int) {
    inv.status == Pending && now <= inv.expiresAt
  }

  /** The answer for an invitation that can no longer be accepted. */
  function Unusable(inv: Invitation, now: int): Answer {
    match EffectiveStatus(inv, now)
    case Accepted => AlreadyAccepted
    case Revoked => WasRevoked
    case Expired => HasExpired
    case Pending => NotFound
  }

  /** Equality of addresses in a CITEXT column. */
  predicate SameAddress(a: Email, b: Email) {
    a.folded == b.folded
  }

  ghost predicate Holds(db: Db, id: InvId, token: Token) {
    id in db.invitations && db.invitations[id].token == token
  }

  ghost predicate IsAccountOf(db: Db, user: UserId, email: Email) {
    user in db.users && SameAddress(db.users[user].email, email)
  }

  /** The unique indexes on token hashes and on user addresses, and the freshness of identifiers. */
  ghost predicate Unique(db: Db) {
    && (forall a, b | a in db.invitations && b in db.invitations && a != b :: db.invitations[a].token != db.invitations[b].token)
    && (forall u, v | u in db.users && v in db.users && u != v :: !SameAddress(db.users[u].email, db.users[v].email))
    && (forall id | id in db.invitations :: id < db.nextInvitation && db.invitations[id].token < db.nextToken)
    && (forall u | u in db.users :: u < db.nextUser)
  }

  ghost function ByToken(db: Db, token: Token): (r: Option<InvId>)
    ensures r.Some? ==> Holds(db, r.value, token)
    ensures r.None? ==> forall id :: !Holds(db, id, token)
  {
    if id :| Holds(db, id, token) then Some(id) else None
  }

  ghost function AccountOf(db: Db, email: Email): (r: Option<UserId>)
    ensures r.Some? ==> IsAccountOf(db, r.value, email)
    ensures r.None? ==> forall u :: !IsAccountOf(db, u, email)
  {
    if u :| IsAccountOf(db, u, email) then Some(u) else None
  }

  /** The account that accepts: the authenticated caller, or a new one. Its address must be the invitation's. */
  ghost function ResolveUser(db: Db, inv: Invitation, caller: Option<UserId>): Result<(Db, UserId), Answer> {
    match caller
    case Some(u) =>
      if u !in db.users || !db.users[u].active then Err(NotAuthorized)
      else if Normalized(db.users[u].email) != Normalized(inv.email) then Err(EmailMismatch)
      else Ok((db, u))
    case None =>
      var existing := AccountOf(db, inv.email);
      if existing.Some? then Err(if db.users[existing.value].active then AccountExists else NotAuthorized)
      else Ok((db.(users := db.users[db.nextUser := User(Normalized(inv.email), true)], nextUser := db.nextUser + 1), db.nextUser))
  }

  /** What the locked transaction of `Accept` ends with: an answer, or the row marked expired. */
  datatype Ending = Answered(answer: Answer) | MarkedExpired

  /** The locked transaction of `Accept` on the row that holds the token. An error rolls everything back. */
  ghost function AcceptLocked(db: Db, id: InvId, now: int, caller: Option<UserId>): (Db, Ending)
    requires id in db.invitations
  {
    var inv := db.invitations[id];
    if !IsUsable(inv, now) then
      if inv.status != Pending then (db, Answered(Unusable(inv, now)))
      else (db.(invitations := db.invitations[id := inv.(status := Expired)]), MarkedExpired)
    else if inv.role !in db.roles || db.roles[inv.role] != inv.org then (db, Answered(RoleNotFound))
    else
      match ResolveUser(db, inv, caller)
      case Err(answer) => (db, Answered(answer))
      case Ok((db1, user)) =>
        if MemberKey(inv.org, user) in db1.members then (db, Answered(AlreadyMember))
        else
          (db1.(members := db1.members[MemberKey(inv.org, user) := Membership(inv.role, inv.role, ViaInvitation(id))],
                invitations := db1.invitations[id := inv.(status := Accepted, acceptedBy := Some(user))]),
           Answered(Joined(user)))
  }

  /** `Accept` after its unlocked read `found`: the answer for a row marked expired is built from that read. */
  ghost function AcceptTx(db: Db, token: Token, found: Invitation, now: int, caller: Option<UserId>): (Db, Answer) {
    var id := ByToken(db, token);
    if id.None? then (db, NotFound)
    else
      var (db', ending) := AcceptLocked(db, id.value, now, caller);
      (db', if ending.MarkedExpired? then Unusable(found, now) else ending.answer)
  }

  ghost predicate HasPending(db: Db, org: OrgId, email: Email) {
    exists id :: id in db.invitations && db.invitations[id].status == Pending && db.invitations[id].org == org
                 && SameAddress(db.invitations[id].email, email)
  }

  /** `asOwner` tells whether the inviting person holds the Owner role; only then may the invitation carry it. */
  ghost function CreateTx(db: Db, asOwner: bool, org: OrgId, email: Email, role: RoleId, expiresAt: int): (Db, Answer) {
    var address := Normalized(email);
    var account := AccountOf(db, address);
    if account.Some? && MemberKey(org, account.value) in db.members then (db, AlreadyMember)
    else if role !in db.roles || db.roles[role] != org then (db, RoleNotFound)
    else if role in db.owners && !asOwner then (db, Forbidden)
    else if HasPending(db, org, address) then (db, AlreadyPending)
    else
      (db.(invitations := db.invitations[db.nextInvitation :=
             Invitation(org, address, role, Pending, db.nextToken, expiresAt, None, false, 0)],
           nextInvitation := db.nextInvitation + 1, nextToken := db.nextToken + 1),
       Done)
  }

  lemma CreateKeepsUnique(db: Db, asOwner: bool, org: OrgId, email: Email, role: RoleId, expiresAt: int)
    requires Unique(db)
    ensures Unique(CreateTx(db, asOwner, org, email, role, expiresAt).0)
  {
  }

  predicate InOrg(db: Db, id: InvId, org: OrgId) {
    id in db.invitations && db.invitations[id].org == org
  }

  /** `Resend`: a fresh token and expiry for a pending invitation. */
  function ResendTx(db: Db, org: OrgId, id: InvId, expiresAt: int): (Db, Answer) {
    if !InOrg(db, id, org) then (db, NotFound)
    else if db.invitations[id].status != Pending then (db, NotActive)
    else if db.invitations[id].role !in db.roles || db.roles[db.invitations[id].role] != org then (db, RoleNotFound)
    else
      (db.(invitations := db.invitations[id := db.invitations[id].(token := db.nextToken, expiresAt := expiresAt)],
           nextToken := db.nextToken + 1),
       Done)
  }

  predicate Undelivered(db: Db, org: OrgId, id: InvId) {
    InOrg(db, id, org) && db.invitations[id].status == Pending && !db.invitations[id].notified
  }

  /** One row of the redelivery sweep: a fresh token, the same expiry, if nothing was delivered meanwhile. */
  function RedeliverTx(db: Db, org: OrgId, id: InvId): Db {
    if !Undelivered(db, org, id) then db
    else
      db.(invitations := db.invitations[id := db.invitations[id].(token := db.nextToken, attempts := db.invitations[id].attempts + 1)],
          nextToken := db.nextToken + 1)
  }

  function RedeliverAll(db: Db, org: OrgId, ids: seq<InvId>): Db {
    if ids == [] then db else RedeliverTx(RedeliverAll(db, org, ids[..|ids| - 1]), org, ids[|ids| - 1])
  }

  function RevokeTx(db: Db, org: OrgId, id: InvId): (Db, Answer) {
    if !InOrg(db, id, org) || db.invitations[id].status != Pending then (db, NotFound)
    else (db.(invitations := db.invitations[id := db.invitations[id].(status := Revoked)]), Done)
  }

  function MarkNotifiedTx(db: Db, org: OrgId, id: InvId): Db {
    if !InOrg(db, id, org) then db
    else db.(invitations := db.invitations[id := db.invitations[id].(notified := true)])
  }

  /** DELETE of a role without members; the foreign key cascades to its invitations. */
  ghost function DeleteRoleTx(db: Db, role: RoleId): Db {
    if exists k :: k in db.members && db.members[k].role == role then db
    else
      db.(roles := db.roles - {role},
          invitations := map id | id in db.invitations && db.invitations[id].role != role :: db.invitations[id])
  }
}
