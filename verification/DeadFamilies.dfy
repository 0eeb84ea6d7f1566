/** Logout and reuse detection end a session lineage for good, when transactions run one after the other. */
module DeadFamilies {
  import opened Prelude
  import opened RefreshTokens

  datatype Db = Db(rows: Table, next: TokenId, nextFamily: FamilyId)

  const EMPTY := Db(map[], 0, 0)

  datatype Op =
    | Issue(user: UserId, expiresAt: int)
    | Refresh(token: TokenId, now: int, active: bool, ttl: int)
    | Logout(token: TokenId)
    | LogoutAll(user: UserId)

  function Serve(db: Db, op: Op): Db {
    match op
    case Issue(user, expiresAt) =>
      Db(db.rows[db.next := Row(user, db.nextFamily, expiresAt, false, None)], db.next + 1, db.nextFamily + 1)
    case Refresh(token, now, active, ttl) =>
      var (rows, outcome) := RefreshTx(db.rows, db.next, token, now, active, ttl);
      Db(rows, if outcome.Rotated? then db.next + 1 else db.next, db.nextFamily)
    case Logout(token) =>
      if token !in db.rows then db else db.(rows := Revoke(db.rows, FamilyLive(db.rows, db.rows[token].family)))
    case LogoutAll(user) => db.(rows := Revoke(db.rows, UserLive(db.rows, user)))
  }

  function ServeAll(db: Db, ops: seq<Op>): Db {
    if ops == [] then db else Serve(ServeAll(db, ops[..|ops| - 1]), ops[|ops| - 1])
  }

  /** Identifiers are fresh, and a family belongs to one user. */
  ghost predicate Fresh(db: Db) {
    && (forall id | id in db.rows :: id < db.next && db.rows[id].family < db.nextFamily)
    && (forall a, b | a in db.rows && b in db.rows && db.rows[a].family == db.rows[b].family :: db.rows[a].user == db.rows[b].user)
  }

  ghost predicate Dead(rows: Table, family: FamilyId) {
    forall id | id in rows && rows[id].family == family :: rows[id].revoked
  }

  /** The operation ends the family: a logout or reuse of one of its tokens, or a logout of its user everywhere. */
  ghost predicate Ends(db: Db, op: Op, family: FamilyId) {
    match op
    case Logout(token) => token in db.rows && db.rows[token].family == family
    case Refresh(token, _, _, _) => token in db.rows && db.rows[token].family == family && db.rows[token].revoked
    case LogoutAll(user) => exists id :: id in db.rows && db.rows[id].family == family && db.rows[id].user == user
    case Issue(_, _) => false
  }

  lemma ServeKeepsFresh(db: Db, op: Op)
    requires Fresh(db)
    ensures Fresh(Serve(db, op))
    ensures db.nextFamily <= Serve(db, op).nextFamily
  {
  }

  lemma {:induction false} RunKeepsFresh(ops: seq<Op>)
    ensures Fresh(ServeAll(EMPTY, ops))
  {
    if ops != [] {
      RunKeepsFresh(ops[..|ops| - 1]);
      ServeKeepsFresh(ServeAll(EMPTY, ops[..|ops| - 1]), ops[|ops| - 1]);
    }
  }

  lemma EndingKills(db: Db, op: Op, family: FamilyId)
    requires Fresh(db) && Ends(db, op, family)
    ensures Dead(Serve(db, op).rows, family)
    ensures family < Serve(db, op).nextFamily
  {
  }

  /** No operation revives a dead family: rotation needs a live token, and new sessions start new families. */
  lemma DeadStaysDead(db: Db, op: Op, family: FamilyId)
    requires Fresh(db) && Dead(db.rows, family) && family < db.nextFamily
    ensures Dead(Serve(db, op).rows, family) && family < Serve(db, op).nextFamily
  {
  }

  lemma {:induction false} DeadForever(db: Db, ops: seq<Op>, family: FamilyId)
    requires Fresh(db) && Dead(db.rows, family) && family < db.nextFamily
    ensures var after := ServeAll(db, ops);
            Fresh(after) && Dead(after.rows, family) && family < after.nextFamily
  {
    if ops != [] {
      var before := ops[..|ops| - 1];
      DeadForever(db, before, family);
      ServeKeepsFresh(ServeAll(db, before), ops[|ops| - 1]);
      DeadStaysDead(ServeAll(db, before), ops[|ops| - 1], family);
    }
  }

  /**
   After a committed logout, logout-all or reuse detection that touches a family, no later refresh
   with any token of that family succeeds, at any time and whatever else happens.
   */
  lemma NoRefreshAfterLogout(before: seq<Op>, op: Op, family: FamilyId, after: seq<Op>, token: TokenId, now: int, active: bool, ttl: int)
    requires Ends(ServeAll(EMPTY, before), op, family)
    requires var db := ServeAll(Serve(ServeAll(EMPTY, before), op), after);
             token in db.rows && db.rows[token].family == family
    ensures var db := ServeAll(Serve(ServeAll(EMPTY, before), op), after);
            !RefreshTx(db.rows, db.next, token, now, active, ttl).1.Rotated?
  {
    RunKeepsFresh(before);
    var db := ServeAll(EMPTY, before);
    EndingKills(db, op, family);
    ServeKeepsFresh(db, op);
    DeadForever(Serve(db, op), after, family);
  }
}
