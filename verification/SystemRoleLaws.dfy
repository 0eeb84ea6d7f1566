/** Every organization has exactly the documented system roles, whatever is done to it and however statements interleave. */
module SystemRoleLaws {
  import opened Prelude
  import opened Organizations
  import opened OwnerRetention
  import opened OwnerRaces

  /** The five documented roles, and no other system role. */
  ghost predicate OnlyFive(db: Db, org: OrgId, first: RoleId) {
    && FiveRoles(db.roles, org, first)
    && (forall r | r in db.roles && db.roles[r].org == org && db.roles[r].system :: first <= r < first + 5)
  }

  /** No system role is lost or changed, and only a new organization gets any. */
  ghost predicate SystemKept(db: Db, db': Db) {
    && db.nextOrg <= db'.nextOrg
    && (forall r | r in db.roles && db.roles[r].system :: r in db'.roles && db'.roles[r] == db.roles[r])
    && (forall r | r in db'.roles && db'.roles[r].system && db'.roles[r].org < db.nextOrg :: r in db.roles && db.roles[r] == db'.roles[r])
  }

  lemma StepKeepsSystem(s: State, step: Step)
    requires Counted(s)
    ensures SystemKept(s.db, OwnerRetention.Next(s, step).db)
  {
    if step.Found? {
      var rows, roles' := SystemRoles(s);
      FoundKeepsSystem(s, step.user, rows, roles');
    } else {
      StepCounts(s, step);
      OtherKeepsSystem(s, step);
    }
  }

  lemma FoundKeepsSystem(s: State, user: UserId, rows: seq<Role>, roles': map<RoleId, Role>)
    requires Counted(s) && StoredIn(s.db.roles, s.db.nextRole, rows, roles') && (forall r | r in rows :: r.org == s.db.nextOrg)
    ensures SystemKept(s.db, Founded(s, user, roles', |rows|).db)
  {
  }

  lemma OtherKeepsSystem(s: State, step: Step)
    requires Counted(s) && !step.Found?
    ensures forall r | r in s.db.roles && s.db.roles[r].system ::
              r in OwnerRetention.Next(s, step).db.roles && OwnerRetention.Next(s, step).db.roles[r] == s.db.roles[r]
    ensures forall r | r in OwnerRetention.Next(s, step).db.roles && OwnerRetention.Next(s, step).db.roles[r].system ::
              r in s.db.roles && s.db.roles[r] == OwnerRetention.Next(s, step).db.roles[r]
  {
  }

  lemma FiveAreSystem(rows: seq<Role>, org: OrgId)
    requires AreFive(rows, org)
    ensures forall i | 0 <= i < |rows| :: rows[i].org == org && rows[i].system
  {
  }

  lemma KeptStaysFive(db: Db, db': Db, org: OrgId, first: RoleId)
    requires OnlyFive(db, org, first) && SystemKept(db, db') && org < db.nextOrg
    ensures OnlyFive(db', org, first)
  {
    var rows :| AreFive(rows, org) && StoredFrom(db.roles, first, rows);
    FiveAreSystem(rows, org);
    KeptStaysStored(db, db', first, rows);
  }

  lemma KeptStaysStored(db: Db, db': Db, first: RoleId, rows: seq<Role>)
    requires StoredFrom(db.roles, first, rows) && SystemKept(db, db') && (forall i | 0 <= i < |rows| :: rows[i].system)
    ensures StoredFrom(db'.roles, first, rows)
  {
    forall i: nat | i < |rows| ensures IsRow(db'.roles, first + i, rows[i]) {
      assert IsRow(db.roles, first + i, rows[i]);
    }
  }

  /** A new organization starts with them. */
  lemma FoundingIsFive(s: State, user: UserId)
    requires Counted(s)
    ensures OnlyFive(OwnerRetention.Next(s, Found(user)).db, s.db.nextOrg, s.db.nextRole)
  {
    FoundingGivesFive(s.db, user);
    var rows, roles' := SystemRoles(s);
    FoundingHasNoMore(s, user, rows, roles');
  }

  lemma FoundingHasNoMore(s: State, user: UserId, rows: seq<Role>, roles': map<RoleId, Role>)
    requires Counted(s) && |rows| == |SYSTEM_ROLES| && StoredIn(s.db.roles, s.db.nextRole, rows, roles')
    ensures forall r | r in roles' && roles'[r].org == s.db.nextOrg :: s.db.nextRole <= r < s.db.nextRole + 5
  {
  }

  // ---- Serialised runs ----

  lemma {:induction false} SystemRolesStay(s: State, steps: seq<Step>, org: OrgId, first: RoleId)
    requires Counted(s) && OnlyFive(s.db, org, first) && org < s.db.nextOrg
    ensures Counted(Run(s, steps)) && OnlyFive(Run(s, steps).db, org, first) && org < Run(s, steps).db.nextOrg
  {
    if steps != [] {
      var before, step := steps[..|steps| - 1], steps[|steps| - 1];
      SystemRolesStay(s, before, org, first);
      StepCounts(Run(s, before), step);
      StepKeepsSystem(Run(s, before), step);
      KeptStaysFive(Run(s, before).db, Run(s, steps).db, org, first);
    }
  }

  /** In every run, every organization has exactly the five system roles: Owner and Admin with every permission, Manager, Member and Viewer with less. */
  lemma {:induction false} SystemRolesHold(steps: seq<Step>, org: OrgId)
    requires org < Run(START, steps).db.nextOrg
    ensures exists first :: OnlyFive(Run(START, steps).db, org, first)
  {
    if steps != [] {
      var before, step := steps[..|steps| - 1], steps[|steps| - 1];
      var s := Run(START, before);
      RunCounts(before);
      StepCounts(s, step);
      if org < s.db.nextOrg {
        SystemRolesHold(before, org);
        var first :| OnlyFive(s.db, org, first);
        StepKeepsSystem(s, step);
        KeptStaysFive(s.db, Run(START, steps).db, org, first);
      } else {
        FoundOne(s, step);
        FoundingIsFive(s, step.user);
        assert OnlyFive(Run(START, steps).db, org, s.db.nextRole);
      }
    }
  }

  lemma FoundOne(s: State, step: Step)
    requires Counted(s) && step.Found?
    ensures OwnerRetention.Next(s, step).db.nextOrg == s.db.nextOrg + 1
  {
    SystemStarts(s, step.user);
  }

  // ---- Interleaved statements ----

  lemma MoveKeepsSystem(w: World, move: Move)
    requires Counted(w.s)
    ensures SystemKept(w.s.db, Go(w, move).s.db)
  {
    if move.Serve? && !move.step.Assign? {
      StepKeepsSystem(w.s, move.step);
    } else if move.Write? {
      WriteKeepsRoles(w, move.tx);
    }
  }

  lemma WriteKeepsRoles(w: World, tx: TxId)
    ensures Go(w, Write(tx)).s.db.roles == w.s.db.roles && Go(w, Write(tx)).s.db.nextOrg == w.s.db.nextOrg
  {
  }

  /** The same five, in every continuation of every interleaving. */
  lemma {:induction false} RacesKeepSystemRoles(w: World, moves: seq<Move>, org: OrgId, first: RoleId)
    requires Known(w) && OnlyFive(w.s.db, org, first) && org < w.s.db.nextOrg
    ensures Known(Play(w, moves)) && OnlyFive(Play(w, moves).s.db, org, first) && org < Play(w, moves).s.db.nextOrg
  {
    if moves != [] {
      var before, move := moves[..|moves| - 1], moves[|moves| - 1];
      RacesKeepSystemRoles(w, before, org, first);
      MoveKeepsKnown(Play(w, before), move);
      MoveCounts(Play(w, before), move);
      MoveKeepsSystem(Play(w, before), move);
      KeptStaysFive(Play(w, before).s.db, Play(w, moves).s.db, org, first);
    }
  }

  lemma {:induction false} RacesHaveSystemRoles(moves: seq<Move>, org: OrgId)
    requires org < Play(BEGIN, moves).s.db.nextOrg
    ensures exists first :: OnlyFive(Play(BEGIN, moves).s.db, org, first)
  {
    if moves != [] {
      var before, move := moves[..|moves| - 1], moves[|moves| - 1];
      var w := Play(BEGIN, before);
      PlayKeepsKnown(before);
      MoveCounts(w, move);
      if org < w.s.db.nextOrg {
        RacesHaveSystemRoles(before, org);
        var first :| OnlyFive(w.s.db, org, first);
        MoveKeepsSystem(w, move);
        KeptStaysFive(w.s.db, Play(BEGIN, moves).s.db, org, first);
      } else {
        FoundOne(w.s, move.step);
        FoundingIsFive(w.s, move.step.user);
        assert OnlyFive(Play(BEGIN, moves).s.db, org, w.s.db.nextRole);
      }
    }
  }
}
