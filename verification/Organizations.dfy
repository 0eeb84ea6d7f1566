/** Roles, permissions and memberships of organizations, and the transactions that change them. */
module Organizations {
  import opened Prelude

  type OrgId = nat
  type RoleId = nat
  type UserId = nat
  type MemberId = nat
  type InviteId = nat

  const OWNER := "Owner"

  /** Every permission key, in the order the code lists them. */
  const ALL: seq<string> := [
    "organizations.read", "organizations.update", "members.read", "members.manage", "roles.read", "roles.manage",
    "teams.read", "teams.manage", "projects.read", "projects.create", "projects.update", "projects.delete",
    "tasks.read", "tasks.create", "tasks.update", "tasks.delete", "api_keys.manage", "audit.read"]

  const READ_ONLY: seq<string> := [
    "organizations.read", "members.read", "roles.read", "teams.read", "projects.read", "tasks.read"]

  function DefaultForRole(name: string): seq<string> {
    if name == OWNER || name == "Admin" then ALL
    else if name == "Manager" then READ_ONLY + ["projects.create", "projects.update", "tasks.create", "tasks.update"]
    else READ_ONLY
  }

  datatype Template = Template(name: string, permissions: seq<string>)

  /** The system roles with their default permissions. */
  const SYSTEM_ROLES: seq<Template> := [
    Template(OWNER, DefaultForRole(OWNER)), Template("Admin", DefaultForRole("Admin")),
    Template("Manager", DefaultForRole("Manager")), Template("Member", DefaultForRole("Member")),
    Template("Viewer", DefaultForRole("Viewer"))]

  function Keys(permissions: seq<string>): set<string> {
    set key | key in permissions
  }

  datatype Role = Role(org: OrgId, name: string, system: bool, permissions: set<string>)

  /**
   The history of role grants. `under` is the grant under which the granting person held their own role
   when they were authorized.
   */
  datatype Source = Founding | Assigned(under: nat) | Accepted(under: nat)

  datatype Grant = Grant(org: OrgId, user: UserId, role: RoleId, source: Source)

  /** `grant` points to the event that gave the member their current role. */
  datatype Member = Member(org: OrgId, user: UserId, role: RoleId, active: bool, grant: nat)

  /** `under` is the grant under which the inviting person acted. */
  datatype Invite = Invite(org: OrgId, role: RoleId, under: nat)

  datatype Db = Db(
    roles: map<RoleId, Role>,
    members: map<MemberId, Member>,
    invites: map<InviteId, Invite>,
    log: seq<Grant>,
    nextRole: RoleId,
    nextMember: MemberId,
    nextInvite: InviteId,
    nextOrg: OrgId)

  /** What `ResolveTenant` read about the caller, in an earlier transaction. */
  datatype Tenant = Tenant(org: OrgId, user: UserId, roleName: string, grant: nat)

  datatype Answer =
    | Done
    | NotFound
    | BlankName
    | RoleNotFound
    | NameTaken
    | UnknownPermission
    | SystemRole
    | RoleInUse
    | Forbidden
    | LastOwner
    | NotActive
    | AlreadyMember

  predicate RoleIn(db: Db, role: RoleId, org: OrgId) {
    role in db.roles && db.roles[role].org == org
  }

  ghost predicate Taken(db: Db, org: OrgId, name: string, except: Option<RoleId>) {
    exists r :: RoleIn(db, r, org) && db.roles[r].name == name && Some(r) != except
  }

  predicate IsPermission(key: string) {
    key in ALL
  }

  predicate KnownKeys(permissions: seq<string>) {
    forall key | key in permissions :: IsPermission(key)
  }

  /** A member counted by `CountActiveOwners`. */
  predicate IsOwner(db: Db, m: MemberId, org: OrgId) {
    && m in db.members && db.members[m].org == org && db.members[m].active
    && db.members[m].role in db.roles && db.roles[db.members[m].role].name == OWNER
  }

  function ActiveOwners(db: Db, org: OrgId): set<MemberId> {
    set m | m in db.members && IsOwner(db, m, org)
  }

  /** The name is all spaces, which the table refuses. */
  predicate Blank(name: string) {
    forall c | c in name :: c == ' '
  }

  function Seeded(org: OrgId, t: Template): Role {
    Role(org, t.name, true, Keys(t.permissions))
  }

  function SeedRows(org: OrgId, templates: seq<Template>): (rows: seq<Role>)
    ensures |rows| == |templates|
  {
    if templates == [] then [] else SeedRows(org, templates[..|templates| - 1]) + [Seeded(org, templates[|templates| - 1])]
  }

  /** The rows, stored one after the other from identifier `next` on. */
  function Store(roles: map<RoleId, Role>, next: RoleId, rows: seq<Role>): map<RoleId, Role> {
    if rows == [] then roles
    else
      var last := |rows| - 1;
      Store(roles, next, rows[..last])[next + last := rows[last]]
  }

  /** A membership row together with the event that explains it. */
  function AddMember(db: Db, org: OrgId, user: UserId, role: RoleId, source: Source): Db {
    db.(members := db.members[db.nextMember := Member(org, user, role, true, |db.log|)],
        log := db.log + [Grant(org, user, role, source)],
        nextMember := db.nextMember + 1)
  }

  /** `CreateOrganization` and `Register`: the system roles and the founder's Owner membership. */
  function FoundTx(db: Db, user: UserId): Db {
    AddMember(
      db.(roles := Store(db.roles, db.nextRole, SeedRows(db.nextOrg, SYSTEM_ROLES)),
          nextRole := db.nextRole + |SYSTEM_ROLES|,
          nextOrg := db.nextOrg + 1),
      db.nextOrg, user, db.nextRole, Founding)
  }

  function AddRole(db: Db, role: Role): Db {
    db.(roles := db.roles[db.nextRole := role], nextRole := db.nextRole + 1)
  }

  function ChangeRole(db: Db, role: RoleId, name: string, permissions: set<string>): Db
    requires role in db.roles
  {
    db.(roles := db.roles[role := db.roles[role].(name := name, permissions := permissions)])
  }

  /** The foreign key of invitations cascades when a role is deleted. */
  function DropRole(db: Db, role: RoleId): Db {
    db.(roles := db.roles - {role},
        invites := map i | i in db.invites && db.invites[i].role != role :: db.invites[i])
  }

  ghost function CreateRoleTx(db: Db, org: OrgId, name: string, permissions: seq<string>): (Db, Answer) {
    if Blank(name) then (db, BlankName)
    else if Taken(db, org, name, None) then (db, NameTaken)
    else if !KnownKeys(permissions) then (db, UnknownPermission)
    else (AddRole(db, Role(org, name, false, Keys(permissions))), Done)
  }

  ghost function UpdateRoleTx(db: Db, org: OrgId, role: RoleId, name: string, permissions: seq<string>): (Db, Answer) {
    if !RoleIn(db, role, org) then (db, NotFound)
    else if db.roles[role].system then (db, SystemRole)
    else if Blank(name) then (db, BlankName)
    else if Taken(db, org, name, Some(role)) then (db, NameTaken)
    else if !KnownKeys(permissions) then (db, UnknownPermission)
    else (ChangeRole(db, role, name, Keys(permissions)), Done)
  }

  ghost function DeleteRoleTx(db: Db, org: OrgId, role: RoleId): (Db, Answer) {
    if !RoleIn(db, role, org) then (db, NotFound)
    else if db.roles[role].system then (db, SystemRole)
    else if exists m :: m in db.members && db.members[m].org == org && db.members[m].role == role then (db, RoleInUse)
    else (DropRole(db, role), Done)
  }

  /** The checks of `AssignMemberRole`, without the update. */
  function AssignCheck(db: Db, t: Tenant, member: MemberId, role: RoleId): Answer {
    if member !in db.members || db.members[member].org != t.org then NotFound
    else if !RoleIn(db, db.members[member].role, t.org) then NotFound
    else if !RoleIn(db, role, t.org) then RoleNotFound
    else
      var current, wanted := db.roles[db.members[member].role].name, db.roles[role].name;
      if (current == OWNER || wanted == OWNER) && t.roleName != OWNER then Forbidden
      else if current == OWNER && wanted != OWNER && |ActiveOwners(db, t.org)| <= 1 then LastOwner
      else if !db.members[member].active then NotActive
      else Done
  }

  function AssignWrite(db: Db, t: Tenant, member: MemberId, role: RoleId): Db
    requires member in db.members
  {
    var m := db.members[member];
    db.(members := db.members[member := m.(role := role, grant := |db.log|)],
        log := db.log + [Grant(m.org, m.user, role, Assigned(t.grant))])
  }

  function AssignTx(db: Db, t: Tenant, member: MemberId, role: RoleId): (Db, Answer) {
    var answer := AssignCheck(db, t, member, role);
    (if answer.Done? then AssignWrite(db, t, member, role) else db, answer)
  }

  function AddInvite(db: Db, invite: Invite): Db {
    db.(invites := db.invites[db.nextInvite := invite], nextInvite := db.nextInvite + 1)
  }

  /** Handing out the Owner role by invitation is reserved for Owners too. */
  function InviteTx(db: Db, t: Tenant, role: RoleId): (Db, Answer) {
    if !RoleIn(db, role, t.org) then (db, RoleNotFound)
    else if db.roles[role].name == OWNER && t.roleName != OWNER then (db, Forbidden)
    else
      (AddInvite(db, Invite(t.org, role, t.grant)), Done)
  }

  /** Accepting an invitation creates a membership with its role. */
  ghost function JoinTx(db: Db, invite: InviteId, user: UserId): (Db, Answer) {
    if invite !in db.invites || !RoleIn(db, db.invites[invite].role, db.invites[invite].org) then (db, NotFound)
    else
      var i := db.invites[invite];
      if exists m :: m in db.members && db.members[m].org == i.org && db.members[m].user == user then (db, AlreadyMember)
      else
        (AddMember(db, i.org, user, i.role, Accepted(i.under)), Done)
  }

  /** The role remembered as Owner after seeding `templates` from `next` on. */
  function OwnerIn(templates: seq<Template>, next: RoleId): Option<RoleId> {
    if templates == [] then None
    else
      var last := |templates| - 1;
      if templates[last].name == OWNER then Some(next + last) else OwnerIn(templates[..last], next)
  }

  lemma OwnerComesFirst(templates: seq<Template>, next: RoleId)
    requires templates != [] && templates[0].name == OWNER && (forall i | 0 < i < |templates| :: templates[i].name != OWNER)
    ensures OwnerIn(templates, next) == Some(next)
  {
    var last := |templates| - 1;
    if last > 0 {
      OwnerComesFirst(templates[..last], next);
    }
  }

  lemma OwnerMore(templates: seq<Template>, i: nat, next: RoleId)
    requires i < |templates|
    ensures OwnerIn(templates[..i + 1], next) == if templates[i].name == OWNER then Some(next + i) else OwnerIn(templates[..i], next)
  {
    assert templates[..i + 1][..i] == templates[..i];
  }

  lemma StoreMore(roles: map<RoleId, Role>, next: RoleId, rows: seq<Role>, row: Role)
    ensures Store(roles, next, rows + [row]) == Store(roles, next, rows)[next + |rows| := row]
  {
    assert (rows + [row])[..|rows|] == rows;
  }

  /** The templates name existing permissions only. */
  predicate Vetted(templates: seq<Template>) {
    templates != [] ==> KnownKeys(templates[|templates| - 1].permissions) && Vetted(templates[..|templates| - 1])
  }

  lemma {:induction false} VettedAt(templates: seq<Template>, i: nat)
    requires Vetted(templates) && i < |templates|
    ensures KnownKeys(templates[i].permissions)
  {
    if i < |templates| - 1 {
      VettedAt(templates[..|templates| - 1], i);
    }
  }

  lemma {:induction false} AllVetted(templates: seq<Template>)
    requires forall i | 0 <= i < |templates| :: KnownKeys(templates[i].permissions)
    ensures Vetted(templates)
  {
    if templates != [] {
      AllVetted(templates[..|templates| - 1]);
    }
  }

  lemma SystemRolesAreKnown()
    ensures SYSTEM_ROLES[0].name == OWNER && (forall i | 0 < i < |SYSTEM_ROLES| :: SYSTEM_ROLES[i].name != OWNER)
    ensures Vetted(SYSTEM_ROLES)
  {
    assert forall i | 0 < i < |SYSTEM_ROLES| :: SYSTEM_ROLES[i].name[0] != 'O';
    AllVetted(SYSTEM_ROLES);
  }

  lemma {:induction false} SeedRowsAt(org: OrgId, templates: seq<Template>, i: nat)
    requires i < |templates|
    ensures SeedRows(org, templates)[i] == Seeded(org, templates[i])
  {
    if i < |templates| - 1 {
      SeedRowsAt(org, templates[..|templates| - 1], i);
    }
  }

  lemma {:induction false} StoreAt(roles: map<RoleId, Role>, next: RoleId, rows: seq<Role>, i: nat)
    requires i < |rows|
    ensures next + i in Store(roles, next, rows) && Store(roles, next, rows)[next + i] == rows[i]
  {
    if i < |rows| - 1 {
      StoreAt(roles, next, rows[..|rows| - 1], i);
    }
  }

  // ---- The documented permissions ----

  const READS: set<string> :=
    {"organizations.read", "members.read", "roles.read", "teams.read", "projects.read", "tasks.read"}

  const EDITS: set<string> := {"projects.create", "projects.update", "tasks.create", "tasks.update"}

  const ADMINISTERS: set<string> :=
    {"organizations.update", "members.manage", "roles.manage", "teams.manage", "projects.delete", "tasks.delete", "api_keys.manage", "audit.read"}

  const EVERYTHING: set<string> := READS + EDITS + ADMINISTERS

  /** The five system roles, in the order they are created. */
  ghost predicate AreFive(rows: seq<Role>, org: OrgId) {
    && |rows| == 5
    && rows[0] == Role(org, "Owner", true, EVERYTHING)
    && rows[1] == Role(org, "Admin", true, EVERYTHING)
    && rows[2] == Role(org, "Manager", true, READS + EDITS)
    && rows[3] == Role(org, "Member", true, READS)
    && rows[4] == Role(org, "Viewer", true, READS)
  }

  predicate IsRow(roles: map<RoleId, Role>, id: RoleId, row: Role) {
    id in roles && roles[id] == row
  }

  /** The organization has them under consecutive identifiers. */
  ghost predicate FiveRoles(roles: map<RoleId, Role>, org: OrgId, first: RoleId) {
    exists rows :: AreFive(rows, org) && StoredFrom(roles, first, rows)
  }

  ghost predicate StoredFrom(roles: map<RoleId, Role>, first: RoleId, rows: seq<Role>) {
    forall i: nat | i < |rows| :: IsRow(roles, first + i, rows[i])
  }

  lemma KnownIffDocumented(key: string)
    ensures key in ALL <==> key in EVERYTHING
  {
  }

  lemma KeysAre(permissions: seq<string>, keys: set<string>)
    requires forall key :: key in permissions <==> key in keys
    ensures Keys(permissions) == keys
  {
  }

  lemma AllAreDocumented()
    ensures Keys(ALL) == EVERYTHING
  {
    forall key ensures key in ALL <==> key in EVERYTHING {
      KnownIffDocumented(key);
    }
    KeysAre(ALL, EVERYTHING);
  }

  lemma ReadsAreDocumented()
    ensures Keys(DefaultForRole("Member")) == READS && Keys(DefaultForRole("Viewer")) == READS
  {
    assert "Member"[0] == 'M' && |"Member"| != |"Manager"|;
    assert |"Viewer"| != |"Owner"|;
  }

  lemma EditsAreDocumented()
    ensures Keys(DefaultForRole("Manager")) == READS + EDITS
  {
    assert |"Manager"| != |"Owner"| && |"Manager"| != |"Admin"|;
  }

  /** Founding stores the documented roles and makes the founder an active Owner. */
  lemma FoundingGivesFive(db: Db, user: UserId)
    ensures FiveRoles(FoundTx(db, user).roles, db.nextOrg, db.nextRole)
    ensures FoundTx(db, user).members == db.members[db.nextMember := Member(db.nextOrg, user, db.nextRole, true, |db.log|)]
  {
    SeededFive(db.nextOrg);
    StoredRowsAreThere(db.roles, db.nextRole, SeedRows(db.nextOrg, SYSTEM_ROLES));
  }

  lemma StoredRowsAreThere(roles: map<RoleId, Role>, next: RoleId, rows: seq<Role>)
    ensures StoredFrom(Store(roles, next, rows), next, rows)
  {
    forall i: nat | i < |rows| ensures IsRow(Store(roles, next, rows), next + i, rows[i]) {
      StoreAt(roles, next, rows, i);
    }
  }

  lemma SeededFive(org: OrgId)
    ensures AreFive(SeedRows(org, SYSTEM_ROLES), org)
  {
    SeedRowsAt(org, SYSTEM_ROLES, 0);
    SeedRowsAt(org, SYSTEM_ROLES, 1);
    SeedRowsAt(org, SYSTEM_ROLES, 2);
    SeedRowsAt(org, SYSTEM_ROLES, 3);
    SeedRowsAt(org, SYSTEM_ROLES, 4);
    AllAreDocumented();
    ReadsAreDocumented();
    EditsAreDocumented();
  }

  /** Somebody who accepts an invitation becomes an active member of its organization, in the role that was offered. */
  lemma JoinExactly(db: Db, invite: InviteId, user: UserId)
    ensures var (db', answer) := JoinTx(db, invite, user);
            && (answer == Done <==>
                  && invite in db.invites && HasRole(db, db.invites[invite].role, db.invites[invite].org)
                  && !(exists m :: m in db.members && db.members[m].org == db.invites[invite].org && db.members[m].user == user))
            && (answer != Done ==> db' == db)
            && (answer == Done ==>
                  && db'.members == db.members[db.nextMember := Member(db.invites[invite].org, user, db.invites[invite].role, true, |db.log|)]
                  && db'.roles == db.roles && db'.invites == db.invites)
  {
  }

  /** Whoever may offer a role: anybody but the Owner role, which only an Owner may. */
  lemma InviteExactly(db: Db, t: Tenant, role: RoleId)
    ensures var (db', answer) := InviteTx(db, t, role);
            && (answer == Done <==> HasRole(db, role, t.org) && (db.roles[role].name == "Owner" ==> t.roleName == "Owner"))
            && (answer != Done ==> db' == db)
            && (answer == Done ==> db'.invites == db.invites[db.nextInvite := Invite(t.org, role, t.grant)]
                                   && db'.members == db.members && db'.roles == db.roles)
  {
  }

  /** Another role of the organization, other than `except`, has the name. */
  ghost predicate NameUsed(db: Db, org: OrgId, name: string, except: Option<RoleId>) {
    exists r :: r in db.roles && db.roles[r].org == org && db.roles[r].name == name && (except.None? || r != except.value)
  }

  predicate HasRole(db: Db, role: RoleId, org: OrgId) {
    role in db.roles && db.roles[role].org == org
  }

  /** The active members of the organization whose role is called Owner. */
  function OwnersOf(db: Db, org: OrgId): set<MemberId> {
    set m | m in db.members && db.members[m].org == org && db.members[m].active
            && db.members[m].role in db.roles && db.roles[db.members[m].role].name == "Owner"
  }

  predicate AllDocumented(permissions: seq<string>) {
    forall i | 0 <= i < |permissions| :: permissions[i] in EVERYTHING
  }

  predicate OnlySpaces(name: string) {
    forall i | 0 <= i < |name| :: name[i] == ' '
  }

  lemma KnownKeysAreDocumented(permissions: seq<string>)
    ensures KnownKeys(permissions) <==> AllDocumented(permissions)
  {
    if KnownKeys(permissions) {
      forall i | 0 <= i < |permissions| ensures permissions[i] in EVERYTHING {
        assert IsPermission(permissions[i]);
        KnownIffDocumented(permissions[i]);
      }
    }
    if AllDocumented(permissions) {
      forall key | key in permissions ensures IsPermission(key) {
        KnownIffDocumented(key);
      }
    }
  }

  lemma BlankIsOnlySpaces(name: string)
    ensures Blank(name) <==> OnlySpaces(name)
  {
    assert forall i | 0 <= i < |name| :: name[i] in name;
  }

  /** When a role is created, and as what. */
  lemma CreateRoleExactly(db: Db, org: OrgId, name: string, permissions: seq<string>)
    ensures var (db', answer) := CreateRoleTx(db, org, name, permissions);
            && answer == (if OnlySpaces(name) then BlankName
                          else if NameUsed(db, org, name, None) then NameTaken
                          else if !AllDocumented(permissions) then UnknownPermission
                          else Done)
            && db' == (if answer != Done then db
                       else db.(roles := db.roles[db.nextRole := Role(org, name, false, set key | key in permissions)], nextRole := db.nextRole + 1))
  {
    BlankIsOnlySpaces(name);
    KnownKeysAreDocumented(permissions);
    NameUsedIsTaken(db, org, name, None);
  }

  /** Which roles can be changed, and to what. */
  lemma UpdateRoleExactly(db: Db, org: OrgId, role: RoleId, name: string, permissions: seq<string>)
    ensures var (db', answer) := UpdateRoleTx(db, org, role, name, permissions);
            && answer == (if role !in db.roles || db.roles[role].org != org then NotFound
                          else if db.roles[role].system then SystemRole
                          else if OnlySpaces(name) then BlankName
                          else if NameUsed(db, org, name, Some(role)) then NameTaken
                          else if !AllDocumented(permissions) then UnknownPermission
                          else Done)
            && db' == (if answer != Done then db
                       else db.(roles := db.roles[role := Role(org, name, false, set key | key in permissions)]))
  {
    BlankIsOnlySpaces(name);
    KnownKeysAreDocumented(permissions);
    NameUsedIsTaken(db, org, name, Some(role));
  }

  lemma NameUsedIsTaken(db: Db, org: OrgId, name: string, except: Option<RoleId>)
    ensures NameUsed(db, org, name, except) <==> Taken(db, org, name, except)
  {
    if r :| r in db.roles && db.roles[r].org == org && db.roles[r].name == name && (except.None? || r != except.value) {
      assert RoleIn(db, r, org);
    }
  }

  class Service {
    var db: Db

    constructor (db: Db)
      ensures this.db == db
    {
      this.db := db;
    }

    /** Replaces the grants of a role one key at a time, stopping at the first unknown one. */
    method SetPermissions(role: RoleId, permissions: seq<string>) returns (answer: Answer)
      requires role in db.roles
      modifies this
      ensures answer == if KnownKeys(permissions) then Done else UnknownPermission
      ensures answer.Done? ==> db == old(db).(roles := old(db).roles[role := old(db).roles[role].(permissions := Keys(permissions))])
      ensures answer.Done? ==> role in db.roles && forall key :: key in db.roles[role].permissions <==> key in permissions
    {
      db := db.(roles := db.roles[role := db.roles[role].(permissions := {})]);
      assert Keys(permissions[..0]) == {};
      var i := 0;
      while i < |permissions|
        invariant 0 <= i <= |permissions|
        invariant KnownKeys(permissions[..i])
        invariant db == old(db).(roles := old(db).roles[role := old(db).roles[role].(permissions := Keys(permissions[..i]))])
      {
        var key := permissions[i];
        assert permissions[..i + 1] == permissions[..i] + [key];
        if !IsPermission(key) {
          return UnknownPermission;
        }
        assert Keys(permissions[..i + 1]) == Keys(permissions[..i]) + {key};
        db := db.(roles := db.roles[role := db.roles[role].(permissions := db.roles[role].permissions + {key})]);
        i := i + 1;
      }
      assert permissions[..i] == permissions;
      answer := Done;
    }

    method SeedRole(org: OrgId, t: Template)
      requires KnownKeys(t.permissions)
      modifies this
      ensures db == old(db).(nextRole := old(db).nextRole + 1, roles := old(db).roles[old(db).nextRole := Seeded(org, t)])
    {
      var role := db.nextRole;
      db := db.(roles := db.roles[role := Role(org, t.name, true, {})], nextRole := role + 1);
      var answer := SetPermissions(role, t.permissions);
    }

    /** Creates the roles in order and remembers the one called Owner. */
    method SeedAll(org: OrgId, templates: seq<Template>) returns (owner: Option<RoleId>)
      requires Vetted(templates)
      modifies this
      ensures db == old(db).(nextRole := old(db).nextRole + |templates|,
                             roles := Store(old(db).roles, old(db).nextRole, SeedRows(org, templates)))
      ensures owner == OwnerIn(templates, old(db).nextRole)
    {
      owner := None;
      ghost var before, first, rows := db, db.nextRole, [];
      var i := 0;
      while i < |templates|
        invariant 0 <= i <= |templates| == |SeedRows(org, templates)| && rows == SeedRows(org, templates)[..i]
        invariant owner == OwnerIn(templates[..i], first)
        invariant db == before.(nextRole := first + i, roles := Store(before.roles, first, rows))
      {
        var t := templates[i];
        VettedAt(templates, i);
        OwnerMore(templates, i, first);
        if t.name == OWNER {
          owner := Some(db.nextRole);
        }
        SeedRowsAt(org, templates, i);
        StoreMore(before.roles, first, rows, Seeded(org, t));
        SeedRole(org, t);
        rows := rows + [Seeded(org, t)];
        i := i + 1;
      }
      assert templates[..i] == templates && rows == SeedRows(org, templates);
    }

    /** Seeds the system roles; the one called Owner goes to the founder. */
    method SeedOrganization(user: UserId) returns (org: OrgId)
      modifies this
      ensures db == FoundTx(old(db), user) && org == old(db).nextOrg
    {
      org := db.nextOrg;
      db := db.(nextOrg := org + 1);
      SystemRolesAreKnown();
      var owner := SeedAll(org, SYSTEM_ROLES);
      OwnerComesFirst(SYSTEM_ROLES, old(db).nextRole);
      db := AddMember(db, org, user, owner.value, Founding);
    }

    method CreateOrganization(user: UserId) returns (org: OrgId)
      modifies this
      ensures db == FoundTx(old(db), user) && org == old(db).nextOrg
      ensures FiveRoles(db.roles, org, old(db).nextRole)
      ensures db.members == old(db).members[old(db).nextMember := Member(org, user, old(db).nextRole, true, |old(db).log|)]
    {
      ghost var before := db;
      org := SeedOrganization(user);
      FoundingGivesFive(before, user);
    }

    /** A failed statement rolls the whole transaction back. */
    method CreateRole(org: OrgId, name: string, permissions: seq<string>) returns (answer: Answer)
      modifies this
      ensures (db, answer) == CreateRoleTx(old(db), org, name, permissions)
    {
      var saved := db;
      if Blank(name) {
        return BlankName;
      }
      if r :| r in db.roles && db.roles[r].org == org && db.roles[r].name == name {
        assert RoleIn(db, r, org);
        return NameTaken;
      }
      assert !Taken(db, org, name, None);
      var role := db.nextRole;
      db := db.(roles := db.roles[role := Role(org, name, false, {})], nextRole := role + 1);
      answer := SetPermissions(role, permissions);
      assert answer.Done? ==> db.roles == saved.roles[role := Role(org, name, false, Keys(permissions))];
      if !answer.Done? {
        db := saved;
      }
    }

    method UpdateRole(org: OrgId, role: RoleId, name: string, permissions: seq<string>) returns (answer: Answer)
      modifies this
      ensures (db, answer) == UpdateRoleTx(old(db), org, role, name, permissions)
    {
      var saved := db;
      if role !in db.roles || db.roles[role].org != org {
        return NotFound;
      }
      if db.roles[role].system {
        return SystemRole;
      }
      if Blank(name) {
        return BlankName;
      }
      if r :| r in db.roles && db.roles[r].org == org && db.roles[r].name == name && r != role {
        assert RoleIn(db, r, org);
        return NameTaken;
      }
      assert !Taken(db, org, name, Some(role));
      db := db.(roles := db.roles[role := db.roles[role].(name := name)]);
      answer := SetPermissions(role, permissions);
      assert answer.Done? ==> db.roles == saved.roles[role := saved.roles[role].(name := name, permissions := Keys(permissions))];
      if !answer.Done? {
        db := saved;
      }
    }

    method DeleteRole(org: OrgId, role: RoleId) returns (answer: Answer)
      modifies this
      ensures (db, answer) == DeleteRoleTx(old(db), org, role)
      ensures answer == if role !in old(db).roles || old(db).roles[role].org != org then NotFound
                        else if old(db).roles[role].system then SystemRole
                        else if exists m :: m in old(db).members && old(db).members[m].org == org && old(db).members[m].role == role then RoleInUse
                        else Done
      ensures answer != Done ==> db == old(db)
      ensures answer == Done ==>
                && db.roles == old(db).roles - {role} && db.members == old(db).members
                && (forall i :: i in db.invites <==> i in old(db).invites && old(db).invites[i].role != role)
                && (forall i | i in db.invites :: db.invites[i] == old(db).invites[i])
    {
      if role !in db.roles || db.roles[role].org != org {
        return NotFound;
      }
      if db.roles[role].system {
        return SystemRole;
      }
      if m :| m in db.members && db.members[m].org == org && db.members[m].role == role {
        return RoleInUse;
      }
      db := DropRole(db, role);
      answer := Done;
    }

    method AssignMemberRole(t: Tenant, member: MemberId, role: RoleId) returns (answer: Answer)
      modifies this
      ensures (db, answer) == AssignTx(old(db), t, member, role)
      ensures answer == if member !in old(db).members || old(db).members[member].org != t.org then NotFound
                        else if !HasRole(old(db), old(db).members[member].role, t.org) then NotFound
                        else if !HasRole(old(db), role, t.org) then RoleNotFound
                        else
                          var was, becomes := old(db).roles[old(db).members[member].role].name == "Owner", old(db).roles[role].name == "Owner";
                          if (was || becomes) && t.roleName != "Owner" then Forbidden
                          else if was && !becomes && |OwnersOf(old(db), t.org)| <= 1 then LastOwner
                          else if !old(db).members[member].active then NotActive
                          else Done
      ensures answer != Done ==> db == old(db)
      ensures answer == Done ==>
                var row := old(db).members[member];
                && db.members == old(db).members[member := Member(row.org, row.user, role, true, |old(db).log|)]
                && db.log == old(db).log + [Grant(row.org, row.user, role, Assigned(t.grant))]
                && db.roles == old(db).roles && db.invites == old(db).invites
    {
      assert OwnersOf(db, t.org) == ActiveOwners(db, t.org);
      if member !in db.members || db.members[member].org != t.org {
        return NotFound;
      }
      var current := db.members[member].role;
      if current !in db.roles || db.roles[current].org != t.org {
        return NotFound;
      }
      if role !in db.roles || db.roles[role].org != t.org {
        return RoleNotFound;
      }
      var was, becomes := db.roles[current].name == OWNER, db.roles[role].name == OWNER;
      if (was || becomes) && t.roleName != OWNER {
        return Forbidden;
      }
      if was && !becomes {
        var owners := |ActiveOwners(db, t.org)|;
        if owners <= 1 {
          return LastOwner;
        }
      }
      if !db.members[member].active {
        return NotActive;
      }
      db := AssignWrite(db, t, member, role);
      answer := Done;
    }
  }
}
