/** Every run of serialised transactions keeps an active Owner and an untouched Owner role in each organization. */
module OwnerRetention {
  import opened Prelude
  import opened Organizations

  /** `tenants` holds every caller ever resolved. */
  datatype State = State(db: Db, tenants: set<Tenant>)

  const START := State(Db(map[], map[], map[], [], 0, 0, 0, 0), {})

  /** A caller may act on a tenant that was resolved long before and has since changed. */
  datatype Step =
    | Found(user: UserId)
    | Resolve(member: MemberId)
    | CreateRole(org: OrgId, name: string, permissions: seq<string>)
    | UpdateRole(org: OrgId, role: RoleId, name: string, permissions: seq<string>)
    | DeleteRole(org: OrgId, role: RoleId)
    | Assign(tenant: Tenant, member: MemberId, role: RoleId)
    | Offer(tenant: Tenant, role: RoleId)
    | Join(invite: InviteId, user: UserId)

  /** `ResolveTenant` of an active member, in a transaction of its own. */
  function Resolved(s: State, member: MemberId): State {
    if member !in s.db.members || !s.db.members[member].active then s
    else
      var m := s.db.members[member];
      if !RoleIn(s.db, m.role, m.org) then s
      else s.(tenants := s.tenants + {Tenant(m.org, m.user, s.db.roles[m.role].name, m.grant)})
  }

  /** What is known of a caller: the organization, the role held there at that moment and the grant behind it. */
  lemma ResolvedExactly(s: State, member: MemberId)
    requires member in s.db.members && s.db.members[member].active
    requires s.db.members[member].role in s.db.roles && s.db.roles[s.db.members[member].role].org == s.db.members[member].org
    ensures var m := s.db.members[member];
            Resolved(s, member) == State(s.db, s.tenants + {Tenant(m.org, m.user, s.db.roles[m.role].name, m.grant)})
  {
  }

  ghost function Next(s: State, step: Step): State {
    match step
    case Found(user) => s.(db := FoundTx(s.db, user))
    case Resolve(member) => Resolved(s, member)
    case CreateRole(org, name, permissions) =>
      if org >= s.db.nextOrg then s else s.(db := CreateRoleTx(s.db, org, name, permissions).0)
    case UpdateRole(org, role, name, permissions) => s.(db := UpdateRoleTx(s.db, org, role, name, permissions).0)
    case DeleteRole(org, role) => s.(db := DeleteRoleTx(s.db, org, role).0)
    case Assign(tenant, member, role) => if tenant !in s.tenants then s else s.(db := AssignTx(s.db, tenant, member, role).0)
    case Offer(tenant, role) => if tenant !in s.tenants then s else s.(db := InviteTx(s.db, tenant, role).0)
    case Join(invite, user) => s.(db := JoinTx(s.db, invite, user).0)
  }

  ghost function Run(s: State, steps: seq<Step>): State {
    if steps == [] then s else Next(Run(s, steps[..|steps| - 1]), steps[|steps| - 1])
  }

  // ---- The invariant of one organization ----

  /** An organization, its Owner role and the set of all permissions. */
  datatype Org = Org(id: OrgId, owner: RoleId, full: set<string>)

  /** A role of the organization called Owner is the one it was founded with. */
  predicate Titled(c: Org, id: RoleId, role: Role) {
    role.org == c.id && role.name == OWNER ==> id == c.owner
  }

  ghost predicate RolesOk(c: Org, roles: map<RoleId, Role>) {
    && c.owner in roles && roles[c.owner] == Role(c.id, OWNER, true, c.full)
    && (forall r | r in roles :: Titled(c, r, roles[r]))
  }

  /** The member's role belongs to the organization, and their last grant explains it. */
  predicate MemberOk(c: Org, roles: map<RoleId, Role>, log: seq<Grant>, m: Member) {
    m.org == c.id ==>
      && m.role in roles && roles[m.role].org == c.id
      && m.grant < |log| && log[m.grant].org == c.id && log[m.grant].user == m.user && log[m.grant].role == m.role
  }

  ghost predicate MembersOk(c: Org, db: Db) {
    forall m | m in db.members :: MemberOk(c, db.roles, db.log, db.members[m])
  }

  /** Grant number `i` made its receiver an Owner of the organization. */
  predicate MadeOwner(c: Org, log: seq<Grant>, i: nat) {
    i < |log| && log[i].org == c.id && log[i].role == c.owner
  }

  predicate Sourced(c: Org, log: seq<Grant>, i: nat) {
    MadeOwner(c, log, i) && !log[i].source.Founding? ==> log[i].source.under < i && MadeOwner(c, log, log[i].source.under)
  }

  ghost predicate LogOk(c: Org, log: seq<Grant>) {
    forall i: nat | i < |log| :: Sourced(c, log, i)
  }

  predicate TenantOk(c: Org, log: seq<Grant>, t: Tenant) {
    t.org == c.id && t.roleName == OWNER ==> MadeOwner(c, log, t.grant) && log[t.grant].user == t.user
  }

  ghost predicate TenantsOk(c: Org, log: seq<Grant>, tenants: set<Tenant>) {
    forall t | t in tenants :: TenantOk(c, log, t)
  }

  predicate InviteOk(c: Org, log: seq<Grant>, i: Invite) {
    i.org == c.id && i.role == c.owner ==> MadeOwner(c, log, i.under)
  }

  ghost predicate InvitesOk(c: Org, db: Db) {
    forall i | i in db.invites :: InviteOk(c, db.log, db.invites[i])
  }

  ghost predicate Seated(c: Org, db: Db) {
    exists m :: IsOwner(db, m, c.id)
  }

  /** Everything but the seat: the Owner role is untouched and every Owner grant is explained. */
  ghost predicate Sound(c: Org, s: State) {
    && RolesOk(c, s.db.roles) && MembersOk(c, s.db)
    && LogOk(c, s.db.log) && TenantsOk(c, s.db.log, s.tenants) && InvitesOk(c, s.db)
  }

  ghost predicate Inv(c: Org, s: State) {
    Sound(c, s) && Seated(c, s.db)
  }

  /** Whoever was an Owner of the organization still is one. */
  ghost predicate Keeps(c: Org, db: Db, db': Db) {
    forall m | IsOwner(db, m, c.id) :: IsOwner(db', m, c.id)
  }

  /** Identifiers are fresh. */
  ghost predicate Counted(s: State) {
    && (forall r | r in s.db.roles :: r < s.db.nextRole && s.db.roles[r].org < s.db.nextOrg)
    && (forall m | m in s.db.members :: m < s.db.nextMember && s.db.members[m].org < s.db.nextOrg)
    && (forall t | t in s.tenants :: t.org < s.db.nextOrg)
    && (forall i | i in s.db.invites :: s.db.invites[i].org < s.db.nextOrg)
    && (forall i | 0 <= i < |s.db.log| :: s.db.log[i].org < s.db.nextOrg)
  }

  // ---- What steps have in common ----

  /** One more grant in the history keeps what it already proves. */
  lemma LogGrows(c: Org, s: State, grant: Grant)
    requires LogOk(c, s.db.log) && TenantsOk(c, s.db.log, s.tenants) && InvitesOk(c, s.db)
    requires Sourced(c, s.db.log + [grant], |s.db.log|)
    ensures LogOk(c, s.db.log + [grant]) && TenantsOk(c, s.db.log + [grant], s.tenants)
    ensures forall i | i in s.db.invites :: InviteOk(c, s.db.log + [grant], s.db.invites[i])
  {
    var log' := s.db.log + [grant];
    forall i: nat | i < |log'| ensures Sourced(c, log', i) {
      if i < |s.db.log| {
        assert Sourced(c, s.db.log, i);
      }
    }
    forall i | i in s.db.invites ensures InviteOk(c, log', s.db.invites[i]) {
      assert InviteOk(c, s.db.log, s.db.invites[i]);
    }
    forall t | t in s.tenants ensures TenantOk(c, log', t) {
      assert TenantOk(c, s.db.log, t);
    }
  }

  /** Members keep a valid role while the roles they hold stay. */
  lemma RolesChange(c: Org, db: Db, roles': map<RoleId, Role>)
    requires MembersOk(c, db)
    requires forall m | m in db.members && db.members[m].org == c.id && RoleIn(db, db.members[m].role, c.id) ::
      db.members[m].role in roles' && roles'[db.members[m].role].org == c.id
    ensures MembersOk(c, db.(roles := roles'))
  {
    forall m | m in db.members ensures MemberOk(c, roles', db.log, db.members[m]) {
      assert MemberOk(c, db.roles, db.log, db.members[m]);
    }
  }

  lemma OwnerStays(c: Org, db: Db, db': Db)
    requires MembersOk(c, db)
    requires forall m | m in db.members :: m in db'.members && db'.members[m] == db.members[m]
    requires forall r | r in db.roles && db.roles[r].org == c.id && db.roles[r].name == OWNER :: r in db'.roles && db'.roles[r] == db.roles[r]
    ensures Keeps(c, db, db')
  {
    forall m | IsOwner(db, m, c.id) ensures IsOwner(db', m, c.id) {
      assert MemberOk(c, db.roles, db.log, db.members[m]);
    }
  }

  /** A new membership comes with its grant. */
  lemma MemberJoins(c: Org, db: Db, org: OrgId, user: UserId, role: RoleId, source: Source)
    requires MembersOk(c, db) && RoleIn(db, role, org)
    ensures MembersOk(c, AddMember(db, org, user, role, source))
  {
    var db' := AddMember(db, org, user, role, source);
    forall m | m in db'.members ensures MemberOk(c, db'.roles, db'.log, db'.members[m]) {
      if m != db.nextMember {
        assert MemberOk(c, db.roles, db.log, db.members[m]);
      }
    }
  }

  lemma JoinIn(c: Org, s: State, org: OrgId, user: UserId, role: RoleId, source: Source)
    requires Sound(c, s) && s.db.nextMember !in s.db.members && RoleIn(s.db, role, org)
    requires Sourced(c, s.db.log + [Grant(org, user, role, source)], |s.db.log|)
    ensures Sound(c, s.(db := AddMember(s.db, org, user, role, source))) && Keeps(c, s.db, AddMember(s.db, org, user, role, source))
  {
    LogGrows(c, s, Grant(org, user, role, source));
    MemberJoins(c, s.db, org, user, role, source);
    OwnerStays(c, s.db, AddMember(s.db, org, user, role, source));
  }

  // ---- Founding ----

  /** The rows are the new roles, in order, and no other role is touched. */
  ghost predicate StoredIn(roles: map<RoleId, Role>, next: RoleId, rows: seq<Role>, roles': map<RoleId, Role>) {
    && (forall id | id in roles' && id < next :: id in roles)
    && (forall id | id in roles && id < next :: id in roles' && roles'[id] == roles[id])
    && (forall id | id in roles' && id >= next :: id < next + |rows| && roles'[id] == rows[id - next])
    && (forall id | next <= id < next + |rows| :: id in roles')
  }

  lemma {:induction false} StoredRows(roles: map<RoleId, Role>, next: RoleId, rows: seq<Role>)
    requires forall id | id in roles :: id < next
    ensures StoredIn(roles, next, rows, Store(roles, next, rows))
  {
    if rows != [] {
      StoredRows(roles, next, rows[..|rows| - 1]);
    }
  }

  /** The database after `n` roles are seeded and before the founder is seated. */
  function Seeding(db: Db, roles': map<RoleId, Role>, n: nat): Db {
    db.(roles := roles', nextRole := db.nextRole + n, nextOrg := db.nextOrg + 1)
  }

  function Founded(s: State, user: UserId, roles': map<RoleId, Role>, n: nat): State {
    s.(db := AddMember(Seeding(s.db, roles', n), s.db.nextOrg, user, s.db.nextRole, Founding))
  }

  lemma FoundKeepsRoles(c: Org, db: Db, rows: seq<Role>, roles': map<RoleId, Role>)
    requires RolesOk(c, db.roles) && MembersOk(c, db) && (forall r | r in db.roles :: r < db.nextRole) && (forall r | r in rows :: r.org != c.id)
    requires StoredIn(db.roles, db.nextRole, rows, roles')
    ensures RolesOk(c, roles') && MembersOk(c, db.(roles := roles'))
  {
    forall r | r in roles' ensures Titled(c, r, roles'[r]) {
      assert r in db.roles ==> Titled(c, r, db.roles[r]);
    }
    RolesChange(c, db, roles');
  }

  /** Founding another organization leaves this one alone. */
  lemma FoundKeeps(c: Org, s: State, user: UserId, rows: seq<Role>, roles': map<RoleId, Role>)
    requires Sound(c, s) && Counted(s) && rows != [] && (forall r | r in rows :: r.org == s.db.nextOrg)
    requires StoredIn(s.db.roles, s.db.nextRole, rows, roles')
    ensures Sound(c, Founded(s, user, roles', |rows|)) && Keeps(c, s.db, Founded(s, user, roles', |rows|).db)
  {
    FoundKeepsRoles(c, s.db, rows, roles');
    var db1 := Seeding(s.db, roles', |rows|);
    assert MembersOk(c, db1);
    OwnerStays(c, s.db, db1);
    JoinIn(c, s.(db := db1), s.db.nextOrg, user, s.db.nextRole, Founding);
  }

  /** The new organization starts with one Owner role and with its founder in the seat. */
  lemma FoundStarts(s: State, user: UserId, rows: seq<Role>, roles': map<RoleId, Role>, full: set<string>)
    requires Counted(s) && rows != [] && (forall r | r in rows :: r.org == s.db.nextOrg)
    requires forall i | 0 < i < |rows| :: rows[i].name != OWNER
    requires rows[0] == Role(s.db.nextOrg, OWNER, true, full)
    requires StoredIn(s.db.roles, s.db.nextRole, rows, roles')
    ensures Inv(Org(s.db.nextOrg, s.db.nextRole, full), Founded(s, user, roles', |rows|))
  {
    var c, db' := Org(s.db.nextOrg, s.db.nextRole, full), Founded(s, user, roles', |rows|).db;
    assert IsOwner(db', s.db.nextMember, c.id);
    assert MembersOk(c, Seeding(s.db, roles', |rows|));
    MemberJoins(c, Seeding(s.db, roles', |rows|), c.id, user, c.owner, Founding);
    forall i: nat | i < |db'.log| ensures Sourced(c, db'.log, i) {
      assert i < |s.db.log| ==> s.db.log[i].org != c.id;
    }
  }

  lemma FoundCounts(s: State, user: UserId, rows: seq<Role>, roles': map<RoleId, Role>)
    requires Counted(s) && (forall r | r in rows :: r.org == s.db.nextOrg) && StoredIn(s.db.roles, s.db.nextRole, rows, roles')
    ensures Counted(Founded(s, user, roles', |rows|))
  {
  }

  lemma SeedRowsFit(org: OrgId, templates: seq<Template>)
    requires templates != [] && (forall i | 0 < i < |templates| :: templates[i].name != OWNER)
    ensures var rows := SeedRows(org, templates);
            && rows[0] == Seeded(org, templates[0])
            && (forall r | r in rows :: r.org == org)
            && (forall i | 0 < i < |rows| :: rows[i].name != OWNER)
  {
    forall i | 0 <= i < |templates| ensures SeedRows(org, templates)[i] == Seeded(org, templates[i]) {
      SeedRowsAt(org, templates, i);
    }
  }

  // ---- Steps that change a role ----

  /** The unique name constraint keeps every other role of the organization from being called Owner. */
  lemma NewNameIsNotOwner(c: Org, db: Db, name: string, except: Option<RoleId>)
    requires RolesOk(c, db.roles) && except != Some(c.owner) && !Taken(db, c.id, name, except)
    ensures name != OWNER
  {
    assert RoleIn(db, c.owner, c.id);
  }

  lemma AddRoleKeeps(c: Org, s: State, role: Role)
    requires Sound(c, s) && s.db.nextRole !in s.db.roles && !Taken(s.db, role.org, role.name, None)
    ensures Sound(c, s.(db := AddRole(s.db, role))) && Keeps(c, s.db, AddRole(s.db, role))
  {
    if role.org == c.id {
      NewNameIsNotOwner(c, s.db, role.name, None);
    }
    RolesChange(c, s.db, AddRole(s.db, role).roles);
    OwnerStays(c, s.db, AddRole(s.db, role));
  }

  lemma ChangeRoleKeeps(c: Org, s: State, role: RoleId, name: string, permissions: set<string>)
    requires Sound(c, s) && role in s.db.roles && !s.db.roles[role].system
    requires !Taken(s.db, s.db.roles[role].org, name, Some(role))
    ensures Sound(c, s.(db := ChangeRole(s.db, role, name, permissions))) && Keeps(c, s.db, ChangeRole(s.db, role, name, permissions))
  {
    if s.db.roles[role].org == c.id {
      NewNameIsNotOwner(c, s.db, name, Some(role));
    }
    RolesChange(c, s.db, ChangeRole(s.db, role, name, permissions).roles);
    OwnerStays(c, s.db, ChangeRole(s.db, role, name, permissions));
  }

  lemma DropRoleKeeps(c: Org, s: State, role: RoleId)
    requires Sound(c, s) && role in s.db.roles && !s.db.roles[role].system
    requires forall m | m in s.db.members && s.db.members[m].org == s.db.roles[role].org :: s.db.members[m].role != role
    ensures Sound(c, s.(db := DropRole(s.db, role))) && Keeps(c, s.db, DropRole(s.db, role))
  {
    RolesChange(c, s.db, DropRole(s.db, role).roles);
    OwnerStays(c, s.db, DropRole(s.db, role));
  }

  // ---- Steps that hand out a role ----

  lemma ResolveKeeps(c: Org, s: State, member: MemberId)
    requires Sound(c, s)
    ensures Sound(c, Resolved(s, member)) && Keeps(c, s.db, Resolved(s, member).db)
  {
    if member in s.db.members {
      assert MemberOk(c, s.db.roles, s.db.log, s.db.members[member]);
    }
  }

  lemma Another(owners: set<MemberId>, m: MemberId)
    requires |owners| > 1
    ensures exists other :: other in owners && other != m
  {
    assert owners == (owners - {m}) + (owners * {m});
    assert owners * {m} == {} || owners * {m} == {m};
    var other :| other in owners - {m};
  }

  /** The count of active Owners guards the last seat. */
  lemma AssignKeepsSeat(c: Org, db: Db, t: Tenant, member: MemberId, role: RoleId)
    requires Seated(c, db) && AssignCheck(db, t, member, role).Done?
    ensures Seated(c, AssignWrite(db, t, member, role))
  {
    var db' := AssignWrite(db, t, member, role);
    if IsOwner(db, member, c.id) && !IsOwner(db', member, c.id) {
      Another(ActiveOwners(db, c.id), member);
      var m :| m in ActiveOwners(db, c.id) && m != member;
      assert IsOwner(db', m, c.id);
    } else {
      var m :| IsOwner(db, m, c.id);
      assert m == member || IsOwner(db', m, c.id);
    }
  }

  lemma AssignKeepsMembers(c: Org, db: Db, t: Tenant, member: MemberId, role: RoleId)
    requires MembersOk(c, db) && member in db.members && db.members[member].org == t.org && RoleIn(db, role, t.org)
    ensures MembersOk(c, AssignWrite(db, t, member, role))
  {
    var db' := AssignWrite(db, t, member, role);
    forall m | m in db'.members ensures MemberOk(c, db'.roles, db'.log, db'.members[m]) {
      assert MemberOk(c, db.roles, db.log, db.members[m]);
    }
  }

  /** A write keeps all but the seat, even when its checks are out of date. */
  lemma WriteKeeps(c: Org, s: State, t: Tenant, member: MemberId, role: RoleId)
    requires Sound(c, s) && t in s.tenants
    requires member in s.db.members && s.db.members[member].org == t.org && RoleIn(s.db, role, t.org)
    requires t.org == c.id && role == c.owner ==> t.roleName == OWNER
    ensures Sound(c, s.(db := AssignWrite(s.db, t, member, role)))
  {
    AssignKeepsMembers(c, s.db, t, member, role);
    assert TenantOk(c, s.db.log, t);
    LogGrows(c, s, Grant(t.org, s.db.members[member].user, role, Assigned(t.grant)));
  }

  lemma AssignKeeps(c: Org, s: State, t: Tenant, member: MemberId, role: RoleId)
    requires Inv(c, s) && t in s.tenants && AssignCheck(s.db, t, member, role).Done?
    ensures Inv(c, s.(db := AssignWrite(s.db, t, member, role)))
  {
    AssignKeepsSeat(c, s.db, t, member, role);
    WriteKeeps(c, s, t, member, role);
  }

  lemma OfferKeeps(c: Org, s: State, t: Tenant, role: RoleId)
    requires Sound(c, s) && t in s.tenants && InviteTx(s.db, t, role).1.Done?
    ensures Sound(c, s.(db := InviteTx(s.db, t, role).0)) && Keeps(c, s.db, InviteTx(s.db, t, role).0)
  {
    assert TenantOk(c, s.db.log, t);
    OwnerStays(c, s.db, InviteTx(s.db, t, role).0);
  }

  lemma JoinKeeps(c: Org, s: State, invite: InviteId, user: UserId)
    requires Sound(c, s) && s.db.nextMember !in s.db.members && JoinTx(s.db, invite, user).1.Done?
    ensures Sound(c, s.(db := JoinTx(s.db, invite, user).0)) && Keeps(c, s.db, JoinTx(s.db, invite, user).0)
  {
    var i := s.db.invites[invite];
    assert InviteOk(c, s.db.log, i);
    JoinIn(c, s, i.org, user, i.role, Accepted(i.under));
  }

  // ---- Every run ----

  /** Every step but an assignment keeps all of the invariant and every Owner in the seat. */
  lemma QuietKeeps(c: Org, s: State, step: Step)
    requires Sound(c, s) && Counted(s) && !step.Assign?
    ensures Sound(c, Next(s, step)) && Keeps(c, s.db, Next(s, step).db)
  {
    if Next(s, step) != s {
      match step
      case Found(user) =>
        var rows, roles' := SystemRoles(s);
        FoundKeeps(c, s, user, rows, roles');
      case Resolve(member) => ResolveKeeps(c, s, member);
      case CreateRole(org, name, permissions) => AddRoleKeeps(c, s, Role(org, name, false, Keys(permissions)));
      case UpdateRole(org, role, name, permissions) => ChangeRoleKeeps(c, s, role, name, Keys(permissions));
      case DeleteRole(org, role) => DropRoleKeeps(c, s, role);
      case Offer(t, role) => OfferKeeps(c, s, t, role);
      case Join(invite, user) => JoinKeeps(c, s, invite, user);
    }
  }

  lemma StepKeeps(c: Org, s: State, step: Step)
    requires Inv(c, s) && Counted(s)
    ensures Inv(c, Next(s, step))
  {
    if !step.Assign? {
      QuietKeeps(c, s, step);
      var m :| IsOwner(s.db, m, c.id);
      assert IsOwner(Next(s, step).db, m, c.id);
    } else if Next(s, step) != s {
      AssignKeeps(c, s, step.tenant, step.member, step.role);
    }
  }

  /** The roles of the organization being founded. */
  lemma SystemRoles(s: State) returns (rows: seq<Role>, roles': map<RoleId, Role>)
    requires Counted(s)
    ensures |rows| == |SYSTEM_ROLES| && rows[0] == Role(s.db.nextOrg, OWNER, true, Keys(ALL))
    ensures (forall r | r in rows :: r.org == s.db.nextOrg) && (forall i | 0 < i < |rows| :: rows[i].name != OWNER)
    ensures StoredIn(s.db.roles, s.db.nextRole, rows, roles')
    ensures forall user :: Next(s, Found(user)) == Founded(s, user, roles', |rows|)
  {
    SystemRolesAreKnown();
    SeedRowsFit(s.db.nextOrg, SYSTEM_ROLES);
    rows := SeedRows(s.db.nextOrg, SYSTEM_ROLES);
    roles' := Store(s.db.roles, s.db.nextRole, rows);
    StoredRows(s.db.roles, s.db.nextRole, rows);
  }

  lemma StepCounts(s: State, step: Step)
    requires Counted(s)
    ensures Counted(Next(s, step)) && s.db.nextOrg <= Next(s, step).db.nextOrg
    ensures !step.Found? ==> Next(s, step).db.nextOrg == s.db.nextOrg
  {
    if step.Found? {
      var rows, roles' := SystemRoles(s);
      FoundCounts(s, step.user, rows, roles');
    }
  }

  /** Any organization that satisfies the invariant keeps doing so, with the same Owner role. */
  lemma {:induction false} RunKeeps(c: Org, s: State, steps: seq<Step>)
    requires Inv(c, s) && Counted(s)
    ensures Inv(c, Run(s, steps)) && Counted(Run(s, steps))
  {
    if steps != [] {
      RunKeeps(c, s, steps[..|steps| - 1]);
      StepKeeps(c, Run(s, steps[..|steps| - 1]), steps[|steps| - 1]);
      StepCounts(Run(s, steps[..|steps| - 1]), steps[|steps| - 1]);
    }
  }

  lemma SystemStarts(s: State, user: UserId)
    requires Counted(s)
    ensures Inv(Org(s.db.nextOrg, s.db.nextRole, Keys(ALL)), Next(s, Found(user)))
    ensures Next(s, Found(user)).db.nextOrg == s.db.nextOrg + 1
  {
    var rows, roles' := SystemRoles(s);
    FoundStarts(s, user, rows, roles', Keys(ALL));
  }

  lemma {:induction false} EveryOrg(steps: seq<Step>, org: OrgId)
    requires org < Run(START, steps).db.nextOrg
    ensures Counted(Run(START, steps))
    ensures exists owner :: Inv(Org(org, owner, Keys(ALL)), Run(START, steps))
  {
    if steps != [] {
      var s, step := Run(START, steps[..|steps| - 1]), steps[|steps| - 1];
      RunCounts(steps[..|steps| - 1]);
      StepCounts(s, step);
      if org < s.db.nextOrg {
        EveryOrg(steps[..|steps| - 1], org);
        var owner :| Inv(Org(org, owner, Keys(ALL)), s);
        StepKeeps(Org(org, owner, Keys(ALL)), s, step);
      } else {
        SystemStarts(s, step.user);
      }
    }
  }

  lemma {:induction false} RunCounts(steps: seq<Step>)
    ensures Counted(Run(START, steps))
  {
    if steps != [] {
      RunCounts(steps[..|steps| - 1]);
      StepCounts(Run(START, steps[..|steps| - 1]), steps[|steps| - 1]);
    }
  }

  /** The role is the one and only Owner role of the organization, with everything in it. */
  ghost predicate SoleOwnerRole(db: Db, org: OrgId, owner: RoleId) {
    && owner in db.roles && db.roles[owner] == Role(org, OWNER, true, Keys(ALL))
    && (forall r | RoleIn(db, r, org) && db.roles[r].name == OWNER :: r == owner)
  }

  lemma SoundHasSoleRole(s: State, org: OrgId, owner: RoleId)
    requires Sound(Org(org, owner, Keys(ALL)), s)
    ensures SoleOwnerRole(s.db, org, owner)
    ensures forall role | SoleOwnerRole(s.db, org, role) :: role == owner
  {
    forall r | RoleIn(s.db, r, org) && s.db.roles[r].name == OWNER ensures r == owner {
      assert Titled(Org(org, owner, Keys(ALL)), r, s.db.roles[r]);
    }
    assert RoleIn(s.db, owner, org);
  }

  /** In every run every organization has an active Owner and exactly one role called Owner. */
  lemma OwnerRetained(steps: seq<Step>, org: OrgId)
    requires org < Run(START, steps).db.nextOrg
    ensures ActiveOwners(Run(START, steps).db, org) != {}
    ensures exists owner :: SoleOwnerRole(Run(START, steps).db, org, owner)
  {
    EveryOrg(steps, org);
    var s := Run(START, steps);
    var owner :| Inv(Org(org, owner, Keys(ALL)), s);
    SoundHasSoleRole(s, org, owner);
    var m :| IsOwner(s.db, m, org);
    assert m in ActiveOwners(s.db, org);
  }

  /** What is once an organization's Owner role stays so, unchanged, whatever happens next. */
  lemma OwnerRoleImmutable(before: seq<Step>, org: OrgId, owner: RoleId, after: seq<Step>)
    requires SoleOwnerRole(Run(START, before).db, org, owner) && org < Run(START, before).db.nextOrg
    ensures SoleOwnerRole(Run(Run(START, before), after).db, org, owner)
  {
    EveryOrg(before, org);
    var s := Run(START, before);
    var role :| Inv(Org(org, role, Keys(ALL)), s);
    SoundHasSoleRole(s, org, role);
    RunKeeps(Org(org, role, Keys(ALL)), s, after);
    SoundHasSoleRole(Run(s, after), org, role);
  }

  /** The grants behind grant number `i`, oldest first. */
  function Lineage(log: seq<Grant>, i: nat): seq<nat>
    decreases i
  {
    if i < |log| && !log[i].source.Founding? && log[i].source.under < i then Lineage(log, log[i].source.under) + [i] else [i]
  }

  /** The lineage starts when the organization is founded, and everybody in it was made an Owner by the one before. */
  ghost predicate OwnerLineage(log: seq<Grant>, org: OrgId, owner: RoleId, path: seq<nat>) {
    && path != []
    && (forall j | 0 <= j < |path| :: path[j] < |log| && log[path[j]].org == org && log[path[j]].role == owner)
    && log[path[0]].source.Founding?
    && (forall j, k | 0 <= j < |path| && 0 <= k < |path| && k == j + 1 ::
          path[j] < path[k] < |log| && !log[path[k]].source.Founding? && log[path[k]].source.under == path[j])
  }

  lemma {:induction false} LineageIsOwned(c: Org, log: seq<Grant>, i: nat)
    requires LogOk(c, log) && MadeOwner(c, log, i)
    ensures OwnerLineage(log, c.id, c.owner, Lineage(log, i))
    ensures var path := Lineage(log, i); path[|path| - 1] == i
    decreases i
  {
    assert Sourced(c, log, i);
    if !log[i].source.Founding? {
      LineageIsOwned(c, log, log[i].source.under);
    }
  }

  /** The member's grant ends an unbroken line of Owners, each made one by the one before, back to the founder. */
  ghost predicate Descends(db: Db, m: MemberId, org: OrgId)
    requires m in db.members
  {
    var path := Lineage(db.log, db.members[m].grant);
    && OwnerLineage(db.log, org, db.members[m].role, path)
    && path[|path| - 1] < |db.log| && db.log[path[|path| - 1]].user == db.members[m].user
  }

  lemma SoundTraces(s: State, c: Org, m: MemberId)
    requires Sound(c, s) && IsOwner(s.db, m, c.id)
    ensures Descends(s.db, m, c.id)
  {
    assert MemberOk(c, s.db.roles, s.db.log, s.db.members[m]);
    assert Titled(c, s.db.members[m].role, s.db.roles[s.db.members[m].role]);
    LineageIsOwned(c, s.db.log, s.db.members[m].grant);
  }

  /** Every Owner of every reachable state owes the role to an unbroken line of Owners back to the founder. */
  lemma OwnerGrantsTrace(steps: seq<Step>, m: MemberId, org: OrgId)
    requires org < Run(START, steps).db.nextOrg && IsOwner(Run(START, steps).db, m, org)
    ensures Descends(Run(START, steps).db, m, org)
  {
    EveryOrg(steps, org);
    var owner :| Inv(Org(org, owner, Keys(ALL)), Run(START, steps));
    SoundTraces(Run(START, steps), Org(org, owner, Keys(ALL)), m);
  }

  // ---- The guard is exact ----

  lemma OwnersAfter(db: Db, t: Tenant, member: MemberId, role: RoleId)
    requires member in db.members && db.members[member].org == t.org && db.members[member].active && RoleIn(db, role, t.org)
    ensures ActiveOwners(AssignWrite(db, t, member, role), t.org)
         == if db.roles[role].name == OWNER then ActiveOwners(db, t.org) + {member} else ActiveOwners(db, t.org) - {member}
  {
    var db' := AssignWrite(db, t, member, role);
    forall m | m != member ensures IsOwner(db', m, t.org) <==> IsOwner(db, m, t.org) {
    }
  }

  /** Taking the role from a member leaves no active Owner exactly in the case that `AssignMemberRole` refuses. */
  lemma GuardIsExact(db: Db, t: Tenant, member: MemberId, role: RoleId)
    requires member in db.members && db.members[member].org == t.org && db.members[member].active
    requires RoleIn(db, db.members[member].role, t.org) && RoleIn(db, role, t.org)
    requires t.roleName == OWNER && ActiveOwners(db, t.org) != {}
    ensures ActiveOwners(AssignWrite(db, t, member, role), t.org) == {} <==> AssignCheck(db, t, member, role).LastOwner?
  {
    OwnersAfter(db, t, member, role);
    var owners := ActiveOwners(db, t.org);
    assert member in owners <==> db.roles[db.members[member].role].name == OWNER;
    if |owners| > 1 {
      Another(owners, member);
    } else {
      var m :| m in owners;
      assert |owners - {m}| == 0;
      assert owners == {m};
    }
  }

  /** Of two changes that together demote the only two Owners, the second is refused when it is checked after the first. */
  lemma SerialSecondIsRefused(db: Db, t: Tenant, a: MemberId, ra: RoleId, u: Tenant, b: MemberId, rb: RoleId)
    requires t.org == u.org && a != b && ActiveOwners(db, t.org) == {a, b}
    requires AssignCheck(db, t, a, ra).Done? && AssignCheck(db, u, b, rb).Done?
    requires db.roles[ra].name != OWNER && db.roles[rb].name != OWNER
    ensures AssignCheck(AssignWrite(db, t, a, ra), u, b, rb) == LastOwner
  {
    var db' := AssignWrite(db, t, a, ra);
    assert a in ActiveOwners(db, t.org) && b in ActiveOwners(db, t.org);
    OwnersAfter(db, t, a, ra);
    assert ActiveOwners(db', t.org) == {b};
  }
}
