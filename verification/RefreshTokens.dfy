/**
 Refresh tokens: rotation, reuse detection and logout on the table of stored tokens.

 A row is identified by a `TokenId`. Token hashes are unique and injective, so the identifier also
 stands for the raw token a client presents; identifiers are handed out in issue order.
 */
module RefreshTokens {
  import opened Prelude

  type TokenId = nat
  type UserId = nat
  type FamilyId = nat

  datatype Row = Row(user: UserId, family: FamilyId, expiresAt: int, revoked: bool, replacedBy: Option<TokenId>)

  type Table = map<TokenId, Row>

  datatype Outcome = Unauthorized | ReuseDetected | Rotated(newest: TokenId)

  /** Rows a family-wide or user-wide UPDATE selects: those with `revoked_at IS NULL`. */
  function FamilyLive(rows: Table, family: FamilyId): set<TokenId> {
    set id | id in rows && rows[id].family == family && !rows[id].revoked
  }

  function UserLive(rows: Table, user: UserId): set<TokenId> {
    set id | id in rows && rows[id].user == user && !rows[id].revoked
  }

  function Revoke(rows: Table, ids: set<TokenId>): Table {
    map id | id in rows :: if id in ids then rows[id].(revoked := true) else rows[id]
  }

  /** The insert of the new token and the revocation of the old one. */
  function Rotate(rows: Table, token: TokenId, newest: TokenId, expiresAt: int): Table
    requires token in rows
  {
    rows[newest := Row(rows[token].user, rows[token].family, expiresAt, false, None)]
        [token := rows[token].(revoked := true, replacedBy := Some(newest))]
  }

  /** Whether an unrevoked token is honoured: not past its expiry, and its user still active. */
  predicate Honoured(row: Row, now: int, active: bool) {
    !row.revoked && now <= row.expiresAt && active
  }

  /** One whole `Refresh` transaction. */
  function RefreshTx(rows: Table, next: TokenId, token: TokenId, now: int, active: bool, ttl: int): (Table, Outcome) {
    if token !in rows then (rows, Unauthorized)
    else if rows[token].revoked then (Revoke(rows, FamilyLive(rows, rows[token].family)), ReuseDetected)
    else if !Honoured(rows[token], now, active) then (rows, Unauthorized)
    else (Rotate(rows, token, next, now + ttl), Rotated(next))
  }

  /** Exactly the unrevoked rows that `hit` selects are revoked, and nothing else about any row changes. */
  ghost predicate RevokesExactly(rows: Table, rows': Table, hit: Row -> bool) {
    && rows'.Keys == rows.Keys
    && (forall id | id in rows :: rows'[id] == Row(rows[id].user, rows[id].family, rows[id].expiresAt, rows[id].revoked || hit(rows[id]), rows[id].replacedBy))
  }

  class Sessions {
    var rows: Table
    var next: TokenId
    var nextFamily: FamilyId

    /** Identifiers and families are fresh: none was handed out before. */
    ghost predicate Valid()
      reads this
    {
      forall id | id in rows :: id < next && rows[id].family < nextFamily
    }

    constructor ()
      ensures Valid() && rows == map[] && next == 0 && nextFamily == 0
    {
      rows, next, nextFamily := map[], 0, 0;
    }

    method CreateRefreshToken(user: UserId, family: FamilyId, expiresAt: int) returns (id: TokenId)
      requires Valid() && family < nextFamily
      modifies this`rows, this`next
      ensures Valid()
      ensures id !in old(rows) && id == old(next) && next == old(next) + 1
      ensures rows == old(rows)[id := Row(user, family, expiresAt, false, None)]
    {
      id := next;
      rows := rows[id := Row(user, family, expiresAt, false, None)];
      next := next + 1;
    }

    /** Every login, registration and accepted invitation starts a family of its own. */
    method IssueSession(user: UserId, now: int, ttl: int) returns (id: TokenId)
      requires Valid()
      modifies this
      ensures Valid()
      ensures id == old(next) && next == old(next) + 1 && nextFamily == old(nextFamily) + 1
      ensures rows == old(rows)[id := Row(user, old(nextFamily), now + ttl, false, None)]
    {
      var family := nextFamily;
      nextFamily := nextFamily + 1;
      id := CreateRefreshToken(user, family, now + ttl);
    }

    method RevokeRefreshTokenFamily(family: FamilyId)
      modifies this`rows
      ensures rows == Revoke(old(rows), FamilyLive(old(rows), family))
      ensures RevokesExactly(old(rows), rows, (r: Row) => r.family == family)
    {
      rows := map id | id in rows ::
                if rows[id].family == family && !rows[id].revoked then rows[id].(revoked := true) else rows[id];
    }

    method Refresh(token: TokenId, now: int, active: bool, ttl: int) returns (outcome: Outcome)
      requires Valid()
      modifies this
      ensures Valid()
      ensures (rows, outcome) == RefreshTx(old(rows), old(next), token, now, active, ttl)
      ensures next == old(next) + (if outcome.Rotated? then 1 else 0) && nextFamily == old(nextFamily)
      ensures outcome.Rotated? <==>
                token in old(rows) && !old(rows)[token].revoked && now <= old(rows)[token].expiresAt && active
      ensures outcome.Rotated? ==>
                && outcome.newest == old(next) && outcome.newest !in old(rows)
                && rows == old(rows)[outcome.newest := Row(old(rows)[token].user, old(rows)[token].family, now + ttl, false, None)]
                                    [token := Row(old(rows)[token].user, old(rows)[token].family, old(rows)[token].expiresAt, true, Some(outcome.newest))]
      ensures outcome.ReuseDetected? <==> token in old(rows) && old(rows)[token].revoked
      ensures outcome.ReuseDetected? ==>
                var family := old(rows)[token].family; RevokesExactly(old(rows), rows, (r: Row) => r.family == family)
      ensures outcome.Unauthorized? ==> rows == old(rows)
    {
      if token !in rows {
        return Unauthorized;
      }
      var stored := rows[token];
      if stored.revoked {
        RevokeRefreshTokenFamily(stored.family);
        return ReuseDetected;
      }
      if now > stored.expiresAt {
        return Unauthorized;
      }
      if !active {
        return Unauthorized;
      }
      var newest := CreateRefreshToken(stored.user, stored.family, now + ttl);
      if token in rows && !rows[token].revoked {
        rows := rows[token := rows[token].(revoked := true, replacedBy := Some(newest))];
      }
      outcome := Rotated(newest);
    }

    /** An unknown token counts as already logged out. */
    method Logout(token: TokenId)
      requires Valid()
      modifies this`rows
      ensures Valid()
      ensures token !in old(rows) ==> rows == old(rows)
      ensures token in old(rows) ==> rows == Revoke(old(rows), FamilyLive(old(rows), old(rows)[token].family))
      ensures token in old(rows) ==>
                var family := old(rows)[token].family; RevokesExactly(old(rows), rows, (r: Row) => r.family == family)
    {
      if token in rows {
        RevokeRefreshTokenFamily(rows[token].family);
      }
    }

    method LogoutAll(user: UserId)
      requires Valid()
      modifies this`rows
      ensures Valid()
      ensures rows == Revoke(old(rows), UserLive(old(rows), user))
      ensures RevokesExactly(old(rows), rows, (r: Row) => r.user == user)
    {
      rows := map id | id in rows ::
                if rows[id].user == user && !rows[id].revoked then rows[id].(revoked := true) else rows[id];
    }
  }
}
