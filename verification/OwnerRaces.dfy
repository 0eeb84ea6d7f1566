/**
 Role assignments as the database runs them by default: the membership and the roles are read, the
 active Owners counted and the row written by separate statements, with other transactions between.
 */
module OwnerRaces {
  import opened Prelude
  import opened Organizations
  import opened OwnerRetention

  type TxId = nat

  datatype Change = Change(tenant: Tenant, member: MemberId, role: RoleId)

  predicate Applies(db: Db, org: OrgId, c: Change) {
    && c.tenant.org == org && c.member in db.members && db.members[c.member].org == org && db.members[c.member].active
    && RoleIn(db, c.role, org)
  }

  predicate GivesOwner(db: Db, c: Change) {
    c.role in db.roles && db.roles[c.role].name == OWNER
  }

  /** `mustCount` tells that the change takes the role from an Owner and the Owners were not counted yet. */
  datatype Pending = Pending(change: Change, mustCount: bool)

  datatype World = World(s: State, pending: map<TxId, Pending>)

  const BEGIN := World(START, map[])

  /** `Serve` is any transaction that assigns no role; the other moves are the statements of `AssignMemberRole`. */
  datatype Move =
    | Serve(step: Step)
    | Look(tx: TxId, change: Change)
    | Count(tx: TxId)
    | Write(tx: TxId)
    | Abort(tx: TxId)

  /** What the reads of the membership and of both roles decide, before Owners are counted. */
  function LookCheck(db: Db, c: Change): Answer {
    if c.member !in db.members || db.members[c.member].org != c.tenant.org then NotFound
    else if !RoleIn(db, db.members[c.member].role, c.tenant.org) then NotFound
    else if !RoleIn(db, c.role, c.tenant.org) then RoleNotFound
    else if (TakesOwner(db, c) || GivesOwner(db, c)) && c.tenant.roleName != OWNER then Forbidden
    else Done
  }

  predicate TakesOwner(db: Db, c: Change) {
    && c.member in db.members && db.members[c.member].role in db.roles
    && db.roles[db.members[c.member].role].name == OWNER
  }

  /** The row is written if the member is still active there; the role must still exist. */
  function Written(s: State, c: Change): State {
    if Applies(s.db, c.tenant.org, c) then s.(db := AssignWrite(s.db, c.tenant, c.member, c.role)) else s
  }

  ghost function Go(w: World, move: Move): World {
    match move
    case Serve(step) => if step.Assign? then w else w.(s := OwnerRetention.Next(w.s, step))
    case Look(tx, c) =>
      if tx in w.pending || c.tenant !in w.s.tenants || !LookCheck(w.s.db, c).Done? then w
      else w.(pending := w.pending[tx := Pending(c, TakesOwner(w.s.db, c) && !GivesOwner(w.s.db, c))])
    case Count(tx) =>
      if tx !in w.pending || !w.pending[tx].mustCount then w
      else if |ActiveOwners(w.s.db, w.pending[tx].change.tenant.org)| <= 1 then w.(pending := w.pending - {tx})
      else w.(pending := w.pending[tx := w.pending[tx].(mustCount := false)])
    case Write(tx) =>
      if tx !in w.pending || w.pending[tx].mustCount then w
      else World(Written(w.s, w.pending[tx].change), w.pending - {tx})
    case Abort(tx) => w.(pending := w.pending - {tx})
  }

  ghost function Play(w: World, moves: seq<Move>): World {
    if moves == [] then w else Go(Play(w, moves[..|moves| - 1]), moves[|moves| - 1])
  }

  /** Nothing between: the statements in a row are the transaction as a whole. */
  lemma BackToBack(w: World, tx: TxId, c: Change)
    requires tx !in w.pending && c.tenant in w.s.tenants
    ensures var w' := Go(Go(Go(w, Look(tx, c)), Count(tx)), Write(tx));
            w'.s.db == AssignTx(w.s.db, c.tenant, c.member, c.role).0
  {
  }

  // ---- What survives every interleaving ----

  /** Only somebody resolved as an Owner has a change in flight that hands out the Owner role. */
  predicate PendingOk(c: Org, tenants: set<Tenant>, change: Change) {
    && change.tenant in tenants
    && (change.tenant.org == c.id && change.role == c.owner ==> change.tenant.roleName == OWNER)
  }

  ghost predicate AllPending(c: Org, tenants: set<Tenant>, pending: map<TxId, Pending>) {
    forall tx | tx in pending :: PendingOk(c, tenants, pending[tx].change)
  }

  ghost predicate Fine(c: Org, w: World) {
    Sound(c, w.s) && AllPending(c, w.s.tenants, w.pending)
  }

  lemma TenantsStay(s: State, step: Step)
    ensures s.tenants <= OwnerRetention.Next(s, step).tenants
  {
  }

  lemma LookKeeps(c: Org, w: World, tx: TxId, change: Change)
    requires Fine(c, w)
    ensures AllPending(c, w.s.tenants, Go(w, Look(tx, change)).pending)
  {
  }

  lemma WrittenKeeps(c: Org, s: State, change: Change)
    requires Sound(c, s) && PendingOk(c, s.tenants, change)
    ensures Sound(c, Written(s, change)) && Written(s, change).tenants == s.tenants
  {
    if Applies(s.db, change.tenant.org, change) {
      WriteKeeps(c, s, change.tenant, change.member, change.role);
    }
  }

  lemma MoveKeeps(c: Org, w: World, move: Move)
    requires Fine(c, w) && Counted(w.s)
    ensures Fine(c, Go(w, move))
  {
    match move
    case Serve(step) =>
      if !step.Assign? {
        QuietKeeps(c, w.s, step);
        TenantsStay(w.s, step);
      }
    case Look(tx, change) => LookKeeps(c, w, tx, change);
    case Count(tx) =>
    case Write(tx) =>
      if tx in w.pending {
        WrittenKeeps(c, w.s, w.pending[tx].change);
      }
    case Abort(tx) =>
  }

  lemma WrittenCounts(s: State, c: Change)
    requires Counted(s)
    ensures Counted(Written(s, c)) && Written(s, c).db.nextOrg == s.db.nextOrg
  {
  }

  lemma MoveCounts(w: World, move: Move)
    requires Counted(w.s)
    ensures Counted(Go(w, move).s) && w.s.db.nextOrg <= Go(w, move).s.db.nextOrg
    ensures w.s.db.nextOrg != Go(w, move).s.db.nextOrg ==> move.Serve? && move.step.Found?
  {
    if move.Serve? {
      StepCounts(w.s, move.step);
    } else if move.Write? && move.tx in w.pending {
      WrittenCounts(w.s, w.pending[move.tx].change);
    }
  }

  ghost predicate Known(w: World) {
    Counted(w.s) && forall tx | tx in w.pending :: w.pending[tx].change.tenant in w.s.tenants
  }

  lemma MoveKeepsKnown(w: World, move: Move)
    requires Known(w)
    ensures Known(Go(w, move))
  {
    MoveCounts(w, move);
    if move.Serve? {
      TenantsStay(w.s, move.step);
    }
  }

  lemma {:induction false} PlayKeepsKnown(moves: seq<Move>)
    ensures Known(Play(BEGIN, moves))
  {
    if moves != [] {
      PlayKeepsKnown(moves[..|moves| - 1]);
      MoveKeepsKnown(Play(BEGIN, moves[..|moves| - 1]), moves[|moves| - 1]);
    }
  }

  lemma FoundingIsFine(w: World, user: UserId)
    requires Known(w)
    ensures var c := Org(w.s.db.nextOrg, w.s.db.nextRole, Keys(ALL));
            var w' := Go(w, Serve(Found(user)));
            Fine(c, w') && Seated(c, w'.s.db) && w'.s.db.nextOrg == w.s.db.nextOrg + 1
  {
    SystemStarts(w.s, user);
    TenantsStay(w.s, Found(user));
  }

  lemma {:induction false} PlayKeeps(c: Org, w: World, moves: seq<Move>)
    requires Fine(c, w) && Known(w)
    ensures Fine(c, Play(w, moves)) && Known(Play(w, moves))
  {
    if moves != [] {
      PlayKeeps(c, w, moves[..|moves| - 1]);
      MoveKeeps(c, Play(w, moves[..|moves| - 1]), moves[|moves| - 1]);
      MoveKeepsKnown(Play(w, moves[..|moves| - 1]), moves[|moves| - 1]);
    }
  }

  function OrgOf(org: OrgId, owner: RoleId): Org {
    Org(org, owner, Keys(ALL))
  }

  lemma {:induction false} EveryOrgIsFine(moves: seq<Move>, org: OrgId)
    requires org < Play(BEGIN, moves).s.db.nextOrg
    ensures exists owner :: Fine(OrgOf(org, owner), Play(BEGIN, moves))
  {
    if moves != [] {
      var w, move := Play(BEGIN, moves[..|moves| - 1]), moves[|moves| - 1];
      PlayKeepsKnown(moves[..|moves| - 1]);
      MoveCounts(w, move);
      if org < w.s.db.nextOrg {
        EveryOrgIsFine(moves[..|moves| - 1], org);
        var owner :| Fine(OrgOf(org, owner), w);
        MoveKeeps(OrgOf(org, owner), w, move);
      } else {
        FoundingIsFine(w, move.step.user);
        assert Fine(OrgOf(org, w.s.db.nextRole), Go(w, move));
      }
    }
  }

  /**
   Whatever the interleaving, and even if an organization loses its last Owner: its Owner role stays
   the only one, unchanged in every continuation, and every Owner descends from the founder through Owners.
   */
  lemma RoleSurvivesRaces(before: seq<Move>, org: OrgId, after: seq<Move>)
    requires org < Play(BEGIN, before).s.db.nextOrg
    ensures var w := Play(BEGIN, before);
            var w' := Play(w, after);
            && (exists owner :: SoleOwnerRole(w.s.db, org, owner) && SoleOwnerRole(w'.s.db, org, owner))
            && (forall m | IsOwner(w'.s.db, m, org) :: Descends(w'.s.db, m, org))
  {
    PlayKeepsKnown(before);
    EveryOrgIsFine(before, org);
    var w := Play(BEGIN, before);
    var owner :| Fine(OrgOf(org, owner), w);
    PlayKeeps(OrgOf(org, owner), w, after);
    var w' := Play(w, after);
    SoundHasSoleRole(w.s, org, owner);
    SoundHasSoleRole(w'.s, org, owner);
    forall m | IsOwner(w'.s.db, m, org) ensures Descends(w'.s.db, m, org) {
      SoundTraces(w'.s, OrgOf(org, owner), m);
    }
  }

  // ---- Exactly how the last Owner is lost ----

  ghost predicate AppliedTo(w: World, move: Move, org: OrgId) {
    && move.Write? && move.tx in w.pending && !w.pending[move.tx].mustCount
    && Applies(w.s.db, org, w.pending[move.tx].change)
  }

  /** The guard of `AssignMemberRole` asked again at the write: the member is the only active Owner and gets another role. */
  ghost predicate Unseats(w: World, move: Move, org: OrgId) {
    && AppliedTo(w, move, org)
    && ActiveOwners(w.s.db, org) == {w.pending[move.tx].change.member}
    && !GivesOwner(w.s.db, w.pending[move.tx].change)
  }

  ghost predicate Vacant(w: World, org: OrgId) {
    org < w.s.db.nextOrg && ActiveOwners(w.s.db, org) == {}
  }

  /** A write changes the seat of its own organization only. */
  lemma WriteOwners(w: World, move: Move, org: OrgId)
    requires move.Write?
    ensures ActiveOwners(Go(w, move).s.db, org)
         == if !AppliedTo(w, move, org) then ActiveOwners(w.s.db, org)
            else if GivesOwner(w.s.db, w.pending[move.tx].change) then ActiveOwners(w.s.db, org) + {w.pending[move.tx].change.member}
            else ActiveOwners(w.s.db, org) - {w.pending[move.tx].change.member}
  {
    if AppliedTo(w, move, org) {
      var c := w.pending[move.tx].change;
      OwnersAfter(w.s.db, c.tenant, c.member, c.role);
    } else if move.tx in w.pending && !w.pending[move.tx].mustCount {
      OtherOrg(w.s, w.pending[move.tx].change, org);
    }
  }

  lemma OtherOrg(s: State, c: Change, org: OrgId)
    requires !Applies(s.db, org, c)
    ensures ActiveOwners(Written(s, c).db, org) == ActiveOwners(s.db, org)
  {
    var db' := Written(s, c).db;
    forall m ensures IsOwner(db', m, org) <==> IsOwner(s.db, m, org) {
    }
  }

  lemma KeepsIsSubset(c: Org, db: Db, db': Db)
    requires Keeps(c, db, db')
    ensures ActiveOwners(db, c.id) <= ActiveOwners(db', c.id)
  {
  }

  lemma MoveVacatesIff(c: Org, w: World, move: Move)
    requires Fine(c, w) && Known(w) && ActiveOwners(w.s.db, c.id) != {}
    ensures ActiveOwners(Go(w, move).s.db, c.id) == {} <==> Unseats(w, move, c.id)
  {
    if move.Serve? && !move.step.Assign? {
      QuietKeeps(c, w.s, move.step);
      KeepsIsSubset(c, w.s.db, Go(w, move).s.db);
    } else if move.Write? {
      WriteOwners(w, move, c.id);
      if AppliedTo(w, move, c.id) {
        var owners, m := ActiveOwners(w.s.db, c.id), w.pending[move.tx].change.member;
        assert owners - {m} == {} <==> owners == {m};
      }
    }
  }

  ghost predicate VacantAt(moves: seq<Move>, k: nat, org: OrgId) {
    k <= |moves| && Vacant(Play(BEGIN, moves[..k]), org)
  }

  ghost predicate UnseatsAt(moves: seq<Move>, k: nat, org: OrgId) {
    k < |moves| && Unseats(Play(BEGIN, moves[..k]), moves[k], org)
  }

  lemma PrefixUnseats(moves: seq<Move>, n: nat, org: OrgId)
    requires n <= |moves|
    ensures forall k: nat | UnseatsAt(moves[..n], k, org) :: UnseatsAt(moves, k, org)
  {
    forall k: nat | UnseatsAt(moves[..n], k, org) ensures UnseatsAt(moves, k, org) {
      assert moves[..n][..k] == moves[..k];
    }
  }

  lemma {:induction false} SeatedUntilUnseated(moves: seq<Move>, org: OrgId)
    requires org < Play(BEGIN, moves).s.db.nextOrg && (forall k :: !UnseatsAt(moves, k, org))
    ensures ActiveOwners(Play(BEGIN, moves).s.db, org) != {}
  {
    if moves != [] {
      var last := |moves| - 1;
      var before, move := moves[..last], moves[last];
      var w := Play(BEGIN, before);
      PlayKeepsKnown(before);
      MoveCounts(w, move);
      if org < w.s.db.nextOrg {
        PrefixUnseats(moves, last, org);
        SeatedUntilUnseated(before, org);
        EveryOrgIsFine(before, org);
        var owner :| Fine(OrgOf(org, owner), w);
        assert !UnseatsAt(moves, last, org);
        MoveVacatesIff(OrgOf(org, owner), w, move);
      } else {
        FoundingIsFine(w, move.step.user);
        SeatedHasOwner(OrgOf(org, w.s.db.nextRole), Go(w, move).s.db);
      }
    }
  }

  lemma SeatedHasOwner(c: Org, db: Db)
    requires Seated(c, db)
    ensures ActiveOwners(db, c.id) != {}
  {
    var m :| IsOwner(db, m, c.id);
    assert m in ActiveOwners(db, c.id);
  }

  lemma UnseatingVacates(moves: seq<Move>, k: nat, org: OrgId)
    requires UnseatsAt(moves, k, org)
    ensures VacantAt(moves, k + 1, org)
  {
    var w := Play(BEGIN, moves[..k]);
    PlayKeepsKnown(moves[..k]);
    assert moves[..k + 1][..k] == moves[..k];
    WriteOwners(w, moves[k], org);
    MoveCounts(w, moves[k]);
  }

  /**
   The exact condition: in a run of interleaved statements an organization is without an Owner at some
   point if and only if some write takes the role from the member who is then its only active Owner.
   */
  lemma OwnerLostIff(moves: seq<Move>, org: OrgId)
    ensures (exists k :: VacantAt(moves, k, org)) <==> (exists k :: UnseatsAt(moves, k, org))
  {
    if k :| UnseatsAt(moves, k, org) {
      UnseatingVacates(moves, k, org);
    } else {
      forall k: nat ensures !VacantAt(moves, k, org) {
        if VacantAt(moves, k, org) {
          PrefixUnseats(moves, k, org);
          SeatedUntilUnseated(moves[..k], org);
        }
      }
    }
  }

  // ---- No other write in between ----

  /** The changes in flight that no write to a membership of their organization has overtaken. */
  ghost function CurrentAfter(current: set<TxId>, w: World, move: Move): set<TxId> {
    var pending := Go(w, move).pending;
    if move.Look? && pending != w.pending then current + {move.tx}
    else if move.Write? && move.tx in w.pending && AppliedTo(w, move, w.pending[move.tx].change.tenant.org) then
      set tx | tx in current && tx in pending && pending[tx].change.tenant.org != w.pending[move.tx].change.tenant.org
    else
      set tx | tx in current && tx in pending
  }

  ghost function Current(moves: seq<Move>): set<TxId> {
    if moves == [] then {}
    else CurrentAfter(Current(moves[..|moves| - 1]), Play(BEGIN, moves[..|moves| - 1]), moves[|moves| - 1])
  }

  ghost predicate Overtaken(moves: seq<Move>, k: nat) {
    && k < |moves| && moves[k].Write?
    && (exists org :: AppliedTo(Play(BEGIN, moves[..k]), moves[k], org))
    && moves[k].tx !in Current(moves[..k])
  }

  /** An Owner about to lose the role is not the only one, or the count is still to come. */
  ghost predicate Guarded(c: Org, db: Db, p: Pending) {
    p.change.tenant.org == c.id && p.change.role != c.owner && IsOwner(db, p.change.member, c.id) ==>
      p.mustCount || |ActiveOwners(db, c.id)| > 1
  }

  ghost predicate InFlight(w: World, current: set<TxId>) {
    forall tx | tx in current :: tx in w.pending && w.pending[tx].change.member in w.s.db.members
  }

  ghost predicate AllGuarded(c: Org, w: World, current: set<TxId>) {
    forall tx | tx in current && tx in w.pending :: Guarded(c, w.s.db, w.pending[tx])
  }

  /** Steps that assign no role leave every membership row as it is. */
  lemma RowsStay(s: State, step: Step)
    requires Counted(s) && !step.Assign?
    ensures forall m | m in s.db.members ::
              m in OwnerRetention.Next(s, step).db.members && OwnerRetention.Next(s, step).db.members[m] == s.db.members[m]
  {
  }

  lemma GuardStays(c: Org, s: State, s': State, p: Pending)
    requires Sound(c, s) && Sound(c, s') && Keeps(c, s.db, s'.db) && Guarded(c, s.db, p)
    requires p.change.member in s.db.members && p.change.member in s'.db.members
    requires s'.db.members[p.change.member] == s.db.members[p.change.member]
    ensures Guarded(c, s'.db, p)
  {
    var m := p.change.member;
    if IsOwner(s'.db, m, c.id) {
      assert Titled(c, s'.db.members[m].role, s'.db.roles[s'.db.members[m].role]);
      assert MemberOk(c, s'.db.roles, s'.db.log, s'.db.members[m]);
      assert IsOwner(s.db, m, c.id);
    }
    KeepsIsSubset(c, s.db, s'.db);
    Fewer(ActiveOwners(s.db, c.id), ActiveOwners(s'.db, c.id));
  }

  lemma Fewer(a: set<MemberId>, b: set<MemberId>)
    requires a <= b
    ensures |a| <= |b|
  {
    assert b == a + (b - a);
  }

  lemma LookGuards(c: Org, w: World, tx: TxId, change: Change)
    requires Fine(c, w) && Go(w, Look(tx, change)).pending != w.pending
    ensures var w' := Go(w, Look(tx, change));
            tx in w'.pending && change.member in w.s.db.members && Guarded(c, w.s.db, w'.pending[tx])
  {
    if change.role in w.s.db.roles {
      assert Titled(c, change.role, w.s.db.roles[change.role]);
    }
  }

  lemma WriteGuards(c: Org, w: World, move: Move, p: Pending)
    requires move.Write? && !AppliedTo(w, move, c.id) && Guarded(c, w.s.db, p)
    ensures Guarded(c, Go(w, move).s.db, p)
  {
    WriteOwners(w, move, c.id);
    var m := p.change.member;
    assert IsOwner(w.s.db, m, c.id) <==> m in ActiveOwners(w.s.db, c.id);
    assert IsOwner(Go(w, move).s.db, m, c.id) <==> m in ActiveOwners(Go(w, move).s.db, c.id);
  }

  lemma MoveKeepsInFlight(w: World, current: set<TxId>, move: Move)
    requires Known(w) && InFlight(w, current)
    ensures InFlight(Go(w, move), CurrentAfter(current, w, move))
  {
    if move.Serve? && !move.step.Assign? {
      RowsStay(w.s, move.step);
    }
  }

  lemma MoveKeepsGuard(c: Org, w: World, current: set<TxId>, move: Move, tx: TxId)
    requires Fine(c, w) && Known(w) && InFlight(w, current) && AllGuarded(c, w, current)
    requires tx in CurrentAfter(current, w, move) && tx in Go(w, move).pending
    ensures Guarded(c, Go(w, move).s.db, Go(w, move).pending[tx])
  {
    match move
    case Serve(step) =>
      if !step.Assign? {
        QuietKeeps(c, w.s, step);
        RowsStay(w.s, step);
        GuardStays(c, w.s, Go(w, move).s, w.pending[tx]);
      }
    case Look(u, change) =>
      if Go(w, move).pending != w.pending {
        LookGuards(c, w, u, change);
      }
    case Count(u) =>
    case Write(u) =>
      if !AppliedTo(w, move, c.id) {
        WriteGuards(c, w, move, w.pending[tx]);
      }
    case Abort(u) =>
  }

  lemma {:induction false} PlayKeepsInFlight(moves: seq<Move>)
    ensures InFlight(Play(BEGIN, moves), Current(moves))
  {
    if moves != [] {
      var before := moves[..|moves| - 1];
      PlayKeepsInFlight(before);
      PlayKeepsKnown(before);
      MoveKeepsInFlight(Play(BEGIN, before), Current(before), moves[|moves| - 1]);
    }
  }

  ghost predicate Watched(c: Org, moves: seq<Move>) {
    Fine(c, Play(BEGIN, moves)) && AllGuarded(c, Play(BEGIN, moves), Current(moves))
  }

  lemma MoveKeepsWatched(c: Org, moves: seq<Move>)
    requires moves != [] && Watched(c, moves[..|moves| - 1])
    ensures Watched(c, moves)
  {
    var before, move := moves[..|moves| - 1], moves[|moves| - 1];
    var w, current := Play(BEGIN, before), Current(before);
    PlayKeepsKnown(before);
    PlayKeepsInFlight(before);
    MoveKeeps(c, w, move);
    forall tx | tx in Current(moves) && tx in Go(w, move).pending ensures Guarded(c, Go(w, move).s.db, Go(w, move).pending[tx]) {
      MoveKeepsGuard(c, w, current, move, tx);
    }
  }

  lemma FoundingIsWatched(moves: seq<Move>, user: UserId)
    requires moves != [] && moves[|moves| - 1] == Serve(Found(user))
    ensures var w := Play(BEGIN, moves[..|moves| - 1]); Watched(OrgOf(w.s.db.nextOrg, w.s.db.nextRole), moves)
  {
    var w := Play(BEGIN, moves[..|moves| - 1]);
    PlayKeepsKnown(moves[..|moves| - 1]);
    FoundingIsFine(w, user);
    var c := OrgOf(w.s.db.nextOrg, w.s.db.nextRole);
    forall tx | tx in w.pending ensures Guarded(c, Play(BEGIN, moves).s.db, w.pending[tx]) {
      assert w.pending[tx].change.tenant.org < w.s.db.nextOrg;
    }
  }

  lemma {:induction false} EveryOrgIsWatched(moves: seq<Move>, org: OrgId)
    requires org < Play(BEGIN, moves).s.db.nextOrg
    ensures exists owner :: Watched(OrgOf(org, owner), moves)
  {
    if moves != [] {
      var before, move := moves[..|moves| - 1], moves[|moves| - 1];
      var w := Play(BEGIN, before);
      PlayKeepsKnown(before);
      MoveCounts(w, move);
      if org < w.s.db.nextOrg {
        EveryOrgIsWatched(before, org);
        var owner :| Watched(OrgOf(org, owner), before);
        MoveKeepsWatched(OrgOf(org, owner), moves);
      } else {
        FoundingIsWatched(moves, move.step.user);
        assert Watched(OrgOf(org, w.s.db.nextRole), moves);
      }
    }
  }

  lemma CurrentNeverUnseats(c: Org, w: World, current: set<TxId>, move: Move)
    requires Sound(c, w.s) && AllGuarded(c, w, current) && move.Write? && move.tx in current
    ensures !Unseats(w, move, c.id)
  {
    if move.tx in w.pending {
      assert Guarded(c, w.s.db, w.pending[move.tx]);
      var m := w.pending[move.tx].change.member;
      assert IsOwner(w.s.db, m, c.id) <==> m in ActiveOwners(w.s.db, c.id);
    }
  }

  /**
   No organization is ever without an Owner in a run where no change is overtaken: between reading a
   membership for a change and writing it, no other membership of the organization gets a new role.
   */
  lemma UndisturbedKeepsOwner(moves: seq<Move>, org: OrgId)
    requires forall k: nat :: !Overtaken(moves, k)
    ensures forall k: nat :: !VacantAt(moves, k, org)
  {
    OwnerLostIff(moves, org);
    forall k: nat ensures !UnseatsAt(moves, k, org) {
      if UnseatsAt(moves, k, org) {
        var w := Play(BEGIN, moves[..k]);
        PlayKeepsKnown(moves[..k]);
        assert AppliedTo(w, moves[k], org) && !Overtaken(moves, k);
        assert org < w.s.db.nextOrg;
        EveryOrgIsWatched(moves[..k], org);
        var owner :| Watched(OrgOf(org, owner), moves[..k]);
        CurrentNeverUnseats(OrgOf(org, owner), w, Current(moves[..k]), moves[k]);
      }
    }
  }
}
