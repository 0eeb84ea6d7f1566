/** How role assignments that overtake each other lose the last Owner: on one snapshot, and in runs from the start. */
module OwnerSkew {
  import opened Organizations
  import opened OwnerRetention
  import opened OwnerRaces

  // ---- Changes checked on one snapshot ----

  function Writes(db: Db, changes: seq<Change>): Db {
    if changes == [] then db
    else
      var before, c := Writes(db, changes[..|changes| - 1]), changes[|changes| - 1];
      if c.member in before.members then AssignWrite(before, c.tenant, c.member, c.role) else before
  }

  /** Changes to different members of one organization, all checked against the same snapshot. */
  ghost predicate Concurrent(db: Db, org: OrgId, changes: seq<Change>) {
    && (forall i | 0 <= i < |changes| ::
          changes[i].tenant.org == org && AssignCheck(db, changes[i].tenant, changes[i].member, changes[i].role).Done?)
    && (forall i, j | 0 <= i < j < |changes| :: changes[i].member != changes[j].member)
  }

  function Demoted(db: Db, changes: seq<Change>): set<MemberId> {
    set c | c in changes && !GivesOwner(db, c) :: c.member
  }

  function Promoted(db: Db, changes: seq<Change>): set<MemberId> {
    set c | c in changes && GivesOwner(db, c) :: c.member
  }

  /** Writes of other members leave a member and all roles alone. */
  lemma {:induction false} WritesKeep(db: Db, changes: seq<Change>, m: MemberId)
    requires m in db.members && (forall i | 0 <= i < |changes| :: changes[i].member != m)
    ensures Writes(db, changes).roles == db.roles
    ensures m in Writes(db, changes).members && Writes(db, changes).members[m] == db.members[m]
  {
    if changes != [] {
      WritesKeep(db, changes[..|changes| - 1], m);
    }
  }

  lemma {:induction false} OwnersAfterAll(db: Db, org: OrgId, changes: seq<Change>)
    requires forall i | 0 <= i < |changes| :: Applies(db, org, changes[i])
    requires forall i, j | 0 <= i < j < |changes| :: changes[i].member != changes[j].member
    ensures ActiveOwners(Writes(db, changes), org) == ActiveOwners(db, org) - Demoted(db, changes) + Promoted(db, changes)
  {
    if changes != [] {
      var last := |changes| - 1;
      var before, c := changes[..last], changes[last];
      OwnersAfterAll(db, org, before);
      assert Applies(db, org, c);
      WritesKeep(db, before, c.member);
      OneMore(db, Writes(db, before), org, c);
      LastChange(db, changes);
      Regroup(ActiveOwners(db, org), Demoted(db, before), Promoted(db, before), c.member);
    }
  }

  lemma OneMore(db: Db, before: Db, org: OrgId, c: Change)
    requires Applies(db, org, c)
    requires before.roles == db.roles && c.member in before.members && before.members[c.member] == db.members[c.member]
    ensures ActiveOwners(AssignWrite(before, c.tenant, c.member, c.role), org)
         == if GivesOwner(db, c) then ActiveOwners(before, org) + {c.member} else ActiveOwners(before, org) - {c.member}
  {
    OwnersAfter(before, c.tenant, c.member, c.role);
  }

  lemma Regroup(owners: set<MemberId>, demoted: set<MemberId>, promoted: set<MemberId>, m: MemberId)
    requires m !in demoted && m !in promoted
    ensures owners - demoted + promoted + {m} == owners - demoted + (promoted + {m})
    ensures owners - demoted + promoted - {m} == owners - (demoted + {m}) + promoted
    ensures demoted + {} == demoted && promoted + {} == promoted
  {
  }

  lemma LastChange(db: Db, changes: seq<Change>)
    requires changes != [] && forall i, j | 0 <= i < j < |changes| :: changes[i].member != changes[j].member
    ensures var before, c := changes[..|changes| - 1], changes[|changes| - 1];
            && Demoted(db, changes) == Demoted(db, before) + (if GivesOwner(db, c) then {} else {c.member})
            && Promoted(db, changes) == Promoted(db, before) + (if GivesOwner(db, c) then {c.member} else {})
            && c.member !in Demoted(db, before) && c.member !in Promoted(db, before)
  {
    var before, c := changes[..|changes| - 1], changes[|changes| - 1];
    assert changes == before + [c];
  }

  /**
   Any number of changes checked against one snapshot leave the organization without an Owner exactly
   when together they demote every active Owner and promote nobody.
   */
  lemma SnapshotSkewIff(db: Db, org: OrgId, changes: seq<Change>)
    requires Concurrent(db, org, changes)
    ensures ActiveOwners(Writes(db, changes), org) == {}
       <==> ActiveOwners(db, org) <= Demoted(db, changes) && Promoted(db, changes) == {}
  {
    OwnersAfterAll(db, org, changes);
    var owners, demoted, promoted := ActiveOwners(db, org), Demoted(db, changes), Promoted(db, changes);
    if owners - demoted + promoted == {} {
      forall m ensures m !in promoted && (m in owners ==> m in demoted) {
        assert m !in owners - demoted + promoted;
      }
    }
  }

  // ---- Runs that get there ----

  function Serves(steps: seq<Step>): seq<Move> {
    if steps == [] then [] else Serves(steps[..|steps| - 1]) + [Serve(steps[|steps| - 1])]
  }

  lemma RunMore(s: State, steps: seq<Step>, step: Step)
    ensures Run(s, steps + [step]) == Next(Run(s, steps), step)
  {
    assert (steps + [step])[..|steps|] == steps;
  }

  lemma PlayMore(w: World, moves: seq<Move>, move: Move)
    ensures Play(w, moves + [move]) == Go(Play(w, moves), move)
  {
    assert (moves + [move])[..|moves|] == moves;
  }

  lemma {:induction false} PlayServes(steps: seq<Step>)
    requires forall step | step in steps :: !step.Assign?
    ensures Play(BEGIN, Serves(steps)) == World(Run(START, steps), map[])
  {
    if steps != [] {
      PlayServes(steps[..|steps| - 1]);
      PlayMore(BEGIN, Serves(steps[..|steps| - 1]), Serve(steps[|steps| - 1]));
    }
  }

  const FOUNDER := Tenant(0, 0, OWNER, 0)

  /** Role 0 of organization 0 is its Owner role; roles 1 to 4 are not. */
  predicate FirstRoles(roles: map<RoleId, Role>) {
    && 0 in roles && roles[0].org == 0 && roles[0].name == OWNER
    && Ordinary(roles, 1) && Ordinary(roles, 2) && Ordinary(roles, 3) && Ordinary(roles, 4)
    && roles[1].name == "Admin"
  }

  predicate Ordinary(roles: map<RoleId, Role>, r: RoleId) {
    r in roles && roles[r].org == 0 && roles[r].name != OWNER
  }

  lemma FirstFounding()
    ensures var s := Next(START, Found(0));
            && FirstRoles(s.db.roles) && s.tenants == {}
            && s.db.members == map[0 := Member(0, 0, 0, true, 0)] && s.db.nextMember == 1
            && s.db.log == [Grant(0, 0, 0, Founding)] && s.db.invites == map[] && s.db.nextInvite == 0
  {
    FirstRows();
  }

  lemma FirstRows()
    ensures FirstRoles(Store(map[], 0, SeedRows(0, SYSTEM_ROLES)))
  {
    var rows := SeedRows(0, SYSTEM_ROLES);
    SystemRolesAreKnown();
    SeedRowsFit(0, SYSTEM_ROLES);
    SeedRowsAt(0, SYSTEM_ROLES, 1);
    StoredRows(map[], 0, rows);
    RowsGiveRoles(rows, Store(map[], 0, rows));
  }

  lemma RowsGiveRoles(rows: seq<Role>, roles: map<RoleId, Role>)
    requires |rows| == 5 && rows[0].name == OWNER && rows[1].name == "Admin"
    requires (forall r | r in rows :: r.org == 0) && (forall i | 0 < i < |rows| :: rows[i].name != OWNER)
    requires StoredIn(map[], 0, rows, roles)
    ensures FirstRoles(roles)
  {
    assert roles[0] == rows[0] && roles[1] == rows[1] && roles[2] == rows[2] && roles[3] == rows[3] && roles[4] == rows[4];
  }

  /** The founder is known, and holds the only membership. */
  ghost predicate JustFounded(s: State) {
    && FirstRoles(s.db.roles) && FOUNDER in s.tenants
    && s.db.members == map[0 := Member(0, 0, 0, true, 0)] && s.db.nextMember == 1
    && |s.db.log| == 1 && s.db.invites == map[] && s.db.nextInvite == 0
  }

  lemma FounderIsKnown()
    ensures JustFounded(Run(START, [Found(0)] + [Resolve(0)]))
  {
    FirstFounding();
    assert Run(START, []) == START && [] + [Found(0)] == [Found(0)];
    RunMore(START, [], Found(0));
    RunMore(START, [Found(0)], Resolve(0));
  }

  // ---- Two Owners demote each other ----

  const PARTNER := Tenant(0, 1, OWNER, 1)

  /** User 0 founds an organization and offers the Owner role, which user 1 accepts; both are resolved. */
  const TWO_OWNERS: seq<Step> :=
    [Found(0)] + [Resolve(0)] + [Offer(FOUNDER, 0)] + [Join(0, 1)] + [Resolve(1)]

  lemma TwoOwners()
    ensures var s := Run(START, TWO_OWNERS);
            && FirstRoles(s.db.roles) && FOUNDER in s.tenants && PARTNER in s.tenants
            && s.db.members == map[0 := Member(0, 0, 0, true, 0), 1 := Member(0, 1, 0, true, 1)]
  {
    FounderIsKnown();
    var s2 := Run(START, [Found(0)] + [Resolve(0)]);
    var s3 := Next(s2, Offer(FOUNDER, 0));
    assert s3.db.invites == map[0 := Invite(0, 0, 0)];
    var s4 := Next(s3, Join(0, 1));
    assert s4.db.members == map[0 := Member(0, 0, 0, true, 0), 1 := Member(0, 1, 0, true, 1)];
    var s5 := Next(s4, Resolve(1));
    assert PARTNER in s5.tenants;
    RunMore(START, [Found(0)] + [Resolve(0)], Offer(FOUNDER, 0));
    RunMore(START, [Found(0)] + [Resolve(0)] + [Offer(FOUNDER, 0)], Join(0, 1));
    RunMore(START, [Found(0)] + [Resolve(0)] + [Offer(FOUNDER, 0)] + [Join(0, 1)], Resolve(1));
  }

  /** In a state that a serialised run reaches, the two Owners demote each other at once, and nobody is left. */
  lemma SkewIsReachable()
    ensures var db := Run(START, TWO_OWNERS).db;
            var changes := [Change(FOUNDER, 1, 1), Change(PARTNER, 0, 1)];
            && Concurrent(db, 0, changes) && ActiveOwners(db, 0) == {0, 1}
            && ActiveOwners(Writes(db, changes), 0) == {}
  {
    TwoOwners();
    var db := Run(START, TWO_OWNERS).db;
    var changes := [Change(FOUNDER, 1, 1), Change(PARTNER, 0, 1)];
    assert ActiveOwners(db, 0) == {0, 1};
    assert changes[0] in changes && changes[1] in changes;
    assert Demoted(db, changes) >= {0, 1};
    SnapshotSkewIff(db, 0, changes);
  }

  // ---- A change that is out of date ----

  const ADMIN := Tenant(0, 2, "Admin", 2)
  const PROMOTED := Tenant(0, 1, OWNER, 3)

  /** Users 1 and 2 join as a Member and as an Admin, and the Admin is resolved. */
  const STAFFED: seq<Step> :=
    [Found(0)] + [Resolve(0)] + [Offer(FOUNDER, 3)] + [Offer(FOUNDER, 1)] + [Join(0, 1)] + [Join(1, 2)] + [Resolve(2)]

  /** The Admin's harmless change of the Member is read, and written only after the Member became the only Owner. */
  const OVERTAKEN: seq<Move> :=
    Serves(STAFFED)
    + [Look(1, Change(ADMIN, 1, 4))]
    + [Look(2, Change(FOUNDER, 1, 0))] + [Write(2)] + [Serve(Resolve(1))]
    + [Look(3, Change(PROMOTED, 0, 4))] + [Count(3)] + [Write(3)]
    + [Write(1)]

  ghost predicate Staffed(s: State) {
    && FirstRoles(s.db.roles) && FOUNDER in s.tenants && ADMIN in s.tenants && |s.db.log| == 3
    && s.db.members == map[0 := Member(0, 0, 0, true, 0), 1 := Member(0, 1, 3, true, 1), 2 := Member(0, 2, 1, true, 2)]
  }

  lemma StaffJoins()
    ensures Staffed(Run(START, STAFFED))
  {
    FounderIsKnown();
    var s2 := Run(START, [Found(0)] + [Resolve(0)]);
    var s3 := Next(s2, Offer(FOUNDER, 3));
    var s4 := Next(s3, Offer(FOUNDER, 1));
    assert s4.db.invites == map[0 := Invite(0, 3, 0), 1 := Invite(0, 1, 0)];
    var s5 := Next(s4, Join(0, 1));
    assert s5.db.members == map[0 := Member(0, 0, 0, true, 0), 1 := Member(0, 1, 3, true, 1)];
    var s6 := Next(s5, Join(1, 2));
    var s7 := Next(s6, Resolve(2));
    assert Staffed(s7);
    RunMore(START, [Found(0)] + [Resolve(0)], Offer(FOUNDER, 3));
    RunMore(START, [Found(0)] + [Resolve(0)] + [Offer(FOUNDER, 3)], Offer(FOUNDER, 1));
    RunMore(START, [Found(0)] + [Resolve(0)] + [Offer(FOUNDER, 3)] + [Offer(FOUNDER, 1)], Join(0, 1));
    RunMore(START, [Found(0)] + [Resolve(0)] + [Offer(FOUNDER, 3)] + [Offer(FOUNDER, 1)] + [Join(0, 1)], Join(1, 2));
    RunMore(START, [Found(0)] + [Resolve(0)] + [Offer(FOUNDER, 3)] + [Offer(FOUNDER, 1)] + [Join(0, 1)] + [Join(1, 2)], Resolve(2));
  }

  /** The Owners after each write of the race: the founder, both, the promoted member, nobody. */
  lemma RaceFrom(s: State)
    requires Staffed(s)
    ensures var w1 := Go(World(s, map[]), Look(1, Change(ADMIN, 1, 4)));
            var w2 := Go(Go(w1, Look(2, Change(FOUNDER, 1, 0))), Write(2));
            var w3 := Go(Go(Go(Go(w2, Serve(Resolve(1))), Look(3, Change(PROMOTED, 0, 4))), Count(3)), Write(3));
            && ActiveOwners(w1.s.db, 0) == {0} && ActiveOwners(w2.s.db, 0) == {0, 1} && ActiveOwners(w3.s.db, 0) == {1}
            && Unseats(w3, Write(1), 0)
  {
    var cA, cB, cC := Change(ADMIN, 1, 4), Change(FOUNDER, 1, 0), Change(PROMOTED, 0, 4);
    var w1 := Go(World(s, map[]), Look(1, cA));
    assert w1 == World(s, map[1 := Pending(cA, false)]);
    assert ActiveOwners(s.db, 0) == {0};
    var w2 := Go(Go(w1, Look(2, cB)), Write(2));
    assert w2.pending == map[1 := Pending(cA, false)];
    assert w2.s.db.members == s.db.members[1 := Member(0, 1, 0, true, 3)];
    assert ActiveOwners(w2.s.db, 0) == {0, 1};
    var v := Go(w2, Serve(Resolve(1)));
    assert PROMOTED in v.s.tenants && v.s.db == w2.s.db;
    var v' := Go(Go(v, Look(3, cC)), Count(3));
    assert v' == World(v.s, map[1 := Pending(cA, false), 3 := Pending(cC, false)]);
    var w3 := Go(v', Write(3));
    assert w3.s.db.members == w2.s.db.members[0 := Member(0, 0, 4, true, 4)];
    assert ActiveOwners(w3.s.db, 0) == {1};
  }

  /**
   A run from the start in which every change passes its checks, the Owners are counted, and nobody is
   left: the last write had nothing to do with an Owner when it was checked.
   */
  lemma OvertakenRace()
    ensures UnseatsAt(OVERTAKEN, |OVERTAKEN| - 1, 0) && VacantAt(OVERTAKEN, |OVERTAKEN|, 0)
  {
    StaffJoins();
    PlayServes(STAFFED);
    var m0 := Serves(STAFFED);
    var m1 := m0 + [Look(1, Change(ADMIN, 1, 4))];
    var m3 := m1 + [Look(2, Change(FOUNDER, 1, 0))] + [Write(2)];
    var m7 := m3 + [Serve(Resolve(1))] + [Look(3, Change(PROMOTED, 0, 4))] + [Count(3)] + [Write(3)];
    RaceFrom(Run(START, STAFFED));
    PlayMore(BEGIN, m0, Look(1, Change(ADMIN, 1, 4)));
    PlayMore(BEGIN, m1, Look(2, Change(FOUNDER, 1, 0)));
    PlayMore(BEGIN, m1 + [Look(2, Change(FOUNDER, 1, 0))], Write(2));
    PlayMore(BEGIN, m3, Serve(Resolve(1)));
    PlayMore(BEGIN, m3 + [Serve(Resolve(1))], Look(3, Change(PROMOTED, 0, 4)));
    PlayMore(BEGIN, m3 + [Serve(Resolve(1))] + [Look(3, Change(PROMOTED, 0, 4))], Count(3));
    PlayMore(BEGIN, m3 + [Serve(Resolve(1))] + [Look(3, Change(PROMOTED, 0, 4))] + [Count(3)], Write(3));
    assert OVERTAKEN == m7 + [Write(1)];
    assert OVERTAKEN[..|OVERTAKEN| - 1] == m7 && OVERTAKEN[..|OVERTAKEN|] == OVERTAKEN;
    assert UnseatsAt(OVERTAKEN, |OVERTAKEN| - 1, 0);
    UnseatingVacates(OVERTAKEN, |OVERTAKEN| - 1, 0);
  }
}
