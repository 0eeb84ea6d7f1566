/** The invitation service as an object that runs its statements one by one against the database. */
module InvitationService {
  import opened Prelude
  import opened Text
  import opened Invitations

  /** Somebody with this address, in lower case and trimmed, belongs to the organization. */
  ghost predicate HasMember(db: Db, org: OrgId, address: string) {
    exists u :: u in db.users && db.users[u].email.folded == address && MemberKey(org, u) in db.members
  }

  ghost predicate HasOpenInvitation(db: Db, org: OrgId, address: string) {
    exists id :: id in db.invitations && db.invitations[id].org == org && db.invitations[id].status == Pending
                 && db.invitations[id].email.folded == address
  }

  ghost predicate HasAccount(db: Db, address: string) {
    exists u :: u in db.users && db.users[u].email.folded == address
  }

  predicate OfRole(db: Db, role: RoleId, org: OrgId) {
    role in db.roles && db.roles[role] == org
  }

  /** Only this row of the invitations differs; `used` tells whether a token was handed out. */
  ghost predicate OnlyRow(db: Db, db': Db, id: InvId, used: bool) {
    && db'.invitations.Keys == db.invitations.Keys
    && (forall other | other in db.invitations && other != id :: db'.invitations[other] == db.invitations[other])
    && db'.users == db.users && db'.members == db.members && db'.roles == db.roles && db'.owners == db.owners
    && db'.nextInvitation == db.nextInvitation && db'.nextUser == db.nextUser
    && db'.nextToken == db.nextToken + if used then 1 else 0
  }

  /** The caller, or with no caller a new account, may accept: active, with the address invited, and not a member yet. */
  ghost predicate MayAccept(db: Db, inv: Invitation, caller: Option<UserId>) {
    match caller
    case Some(u) =>
      && u in db.users && db.users[u].active && db.users[u].email.canonical == inv.email.canonical
      && MemberKey(inv.org, u) !in db.members
    case None => !HasAccount(db, inv.email.folded) && MemberKey(inv.org, db.nextUser) !in db.members
  }

  lemma MemberByAddress(db: Db, org: OrgId, email: Email)
    requires Unique(db)
    ensures var account := AccountOf(db, Normalized(email));
            HasMember(db, org, email.canonical) <==> account.Some? && MemberKey(org, account.value) in db.members
  {
    var account := AccountOf(db, Normalized(email));
    if u :| u in db.users && db.users[u].email.folded == email.canonical && MemberKey(org, u) in db.members {
      assert IsAccountOf(db, u, Normalized(email));
    }
  }

  lemma OpenByAddress(db: Db, org: OrgId, email: Email)
    ensures HasOpenInvitation(db, org, email.canonical) <==> HasPending(db, org, Normalized(email))
  {
  }

  /** Whom an organization may invite, and what is stored then. */
  lemma CreateExactly(db: Db, asOwner: bool, org: OrgId, email: Email, role: RoleId, expiresAt: int)
    requires Unique(db)
    ensures var (db', answer) := CreateTx(db, asOwner, org, email, role, expiresAt);
            && answer == (if HasMember(db, org, email.canonical) then AlreadyMember
                          else if !OfRole(db, role, org) then RoleNotFound
                          else if role in db.owners && !asOwner then Forbidden
                          else if HasOpenInvitation(db, org, email.canonical) then AlreadyPending
                          else Done)
            && db' == (if answer != Done then db else
                       db.(invitations := db.invitations[db.nextInvitation :=
                             Invitation(org, Email(email.canonical, email.canonical, email.canonical), role, Pending, db.nextToken, expiresAt, None, false, 0)],
                           nextInvitation := db.nextInvitation + 1, nextToken := db.nextToken + 1))
  {
    MemberByAddress(db, org, email);
    OpenByAddress(db, org, email);
  }

  lemma AcceptableIff(db: Db, inv: Invitation, caller: Option<UserId>)
    ensures var resolved := ResolveUser(db, inv, caller);
            MayAccept(db, inv, caller) <==> resolved.Ok? && MemberKey(inv.org, resolved.value.1) !in db.members
    ensures ResolveUser(db, inv, caller).Ok? ==>
              var (db', user) := ResolveUser(db, inv, caller).value;
              && user == (if caller.Some? then caller.value else db.nextUser)
              && db' == (if caller.Some? then db
                         else db.(users := db.users[user := User(Email(inv.email.canonical, inv.email.canonical, inv.email.canonical), true)],
                                  nextUser := user + 1))
  {
    if caller.None? && HasAccount(db, inv.email.folded) {
      var u :| u in db.users && db.users[u].email.folded == inv.email.folded;
      assert IsAccountOf(db, u, inv.email);
    }
  }

  /** Who joins, when and as what; and what every other acceptance is told. */
  lemma AcceptExactly(db: Db, id: InvId, now: int, caller: Option<UserId>)
    requires id in db.invitations
    ensures var (db', ending) := AcceptLocked(db, id, now, caller);
            var inv := db.invitations[id];
            && (inv.status == Accepted ==> ending == Answered(AlreadyAccepted))
            && (inv.status == Revoked ==> ending == Answered(WasRevoked))
            && (inv.status == Expired ==> ending == Answered(HasExpired))
            && (inv.status == Pending && now > inv.expiresAt <==> ending == MarkedExpired)
            && ((ending.Answered? && ending.answer.Joined?) <==>
                  inv.status == Pending && now <= inv.expiresAt && OfRole(db, inv.role, inv.org) && MayAccept(db, inv, caller))
            && (ending.MarkedExpired? ==> db' == db.(invitations := db.invitations[id := inv.(status := Expired)]))
            && (ending.Answered? && !ending.answer.Joined? ==> db' == db)
            && (ending.Answered? && ending.answer.Joined? ==>
                  var user := ending.answer.user;
                  && user == (if caller.Some? then caller.value else db.nextUser)
                  && db'.members == db.members[MemberKey(inv.org, user) := Membership(inv.role, inv.role, ViaInvitation(id))]
                  && db'.invitations == db.invitations[id := inv.(status := Accepted, acceptedBy := Some(user))]
                  && db'.users == (if caller.Some? then db.users
                                   else db.users[user := User(Email(inv.email.canonical, inv.email.canonical, inv.email.canonical), true)]))
  {
    AcceptableIff(db, db.invitations[id], caller);
  }

  /** Handing out the next token to one row keeps tokens apart and touches no other row. */
  lemma FreshTokenIsSafe(db: Db, db': Db, id: InvId, inv: Invitation)
    requires Unique(db) && id in db.invitations && inv.token == db.nextToken
    requires db' == db.(invitations := db.invitations[id := inv], nextToken := db.nextToken + 1)
    ensures Unique(db') && OnlyRow(db, db', id, true)
  {
  }

  /** The sweep rotates the i-th row and the queue does not take its message. */
  ghost predicate Refused(db: Db, org: OrgId, rows: seq<InvId>, accepts: seq<bool>, i: nat)
    requires i < |rows| == |accepts|
  {
    !accepts[i] && Undelivered(RedeliverAll(db, org, rows[..i]), org, rows[i])
  }

  lemma RedeliverOneMore(db: Db, org: OrgId, rows: seq<InvId>, n: nat)
    requires n < |rows|
    ensures RedeliverAll(db, org, rows[..n + 1]) == RedeliverTx(RedeliverAll(db, org, rows[..n]), org, rows[n])
  {
    assert rows[..n + 1][..n] == rows[..n];
  }

  class Service {
    var db: Db

    constructor (db: Db)
      requires Unique(db)
      ensures this.db == db && Valid()
    {
      this.db := db;
    }

    ghost predicate Valid()
      reads this
    {
      Unique(db)
    }

    /** GetInvitationByTokenHash. */
    method FindByToken(token: Token) returns (id: Option<InvId>)
      requires Valid()
      ensures id == ByToken(db, token)
    {
      if i :| i in db.invitations && db.invitations[i].token == token {
        assert Holds(db, i, token);
        id := Some(i);
      } else {
        id := None;
      }
    }

    /** GetUserByEmail. */
    method FindAccount(email: Email) returns (user: Option<UserId>)
      requires Valid()
      ensures user == AccountOf(db, email)
    {
      if u :| u in db.users && SameAddress(db.users[u].email, email) {
        assert IsAccountOf(db, u, email);
        user := Some(u);
      } else {
        user := None;
      }
    }

    method Create(asOwner: bool, org: OrgId, email: Email, role: RoleId, expiresAt: int) returns (answer: Answer)
      requires Valid()
      modifies this
      ensures Valid() && (db, answer) == CreateTx(old(db), asOwner, org, email, role, expiresAt)
      ensures answer == if HasMember(old(db), org, email.canonical) then AlreadyMember
                        else if !OfRole(old(db), role, org) then RoleNotFound
                        else if role in old(db).owners && !asOwner then Forbidden
                        else if HasOpenInvitation(old(db), org, email.canonical) then AlreadyPending
                        else Done
      ensures answer != Done ==> db == old(db)
      ensures answer == Done ==>
                var id, address := old(db).nextInvitation, Email(email.canonical, email.canonical, email.canonical);
                db == old(db).(
                  invitations := old(db).invitations[id := Invitation(org, address, role, Pending, old(db).nextToken, expiresAt, None, false, 0)],
                  nextInvitation := id + 1, nextToken := old(db).nextToken + 1)
    {
      CreateKeepsUnique(db, asOwner, org, email, role, expiresAt);
      CreateExactly(db, asOwner, org, email, role, expiresAt);
      var address := Normalized(email);
      var account := FindAccount(address);
      if account.Some? && MemberKey(org, account.value) in db.members {
        return AlreadyMember;
      }
      if role !in db.roles || db.roles[role] != org {
        return RoleNotFound;
      }
      if role in db.owners && !asOwner {
        return Forbidden;
      }
      if id :| id in db.invitations && db.invitations[id].status == Pending && db.invitations[id].org == org
               && SameAddress(db.invitations[id].email, address) {
        return AlreadyPending;
      }
      var token := db.nextToken;
      var invitation := Invitation(org, address, role, Pending, token, expiresAt, None, false, 0);
      db := db.(nextToken := token + 1);
      db := db.(invitations := db.invitations[db.nextInvitation := invitation], nextInvitation := db.nextInvitation + 1);
      answer := Done;
    }

    method Resend(org: OrgId, id: InvId, expiresAt: int) returns (answer: Answer)
      requires Valid()
      modifies this
      ensures Valid() && (db, answer) == ResendTx(old(db), org, id, expiresAt)
      ensures answer == if id !in old(db).invitations || old(db).invitations[id].org != org then NotFound
                        else if old(db).invitations[id].status != Pending then NotActive
                        else if !OfRole(old(db), old(db).invitations[id].role, org) then RoleNotFound
                        else Done
      ensures answer != Done ==> db == old(db)
      ensures answer == Done ==> OnlyRow(old(db), db, id, true)
      ensures answer == Done ==> db.invitations[id] == old(db).invitations[id].(token := old(db).nextToken, expiresAt := expiresAt)
    {
      if id !in db.invitations || db.invitations[id].org != org {
        return NotFound;
      }
      var current := db.invitations[id];
      if current.status != Pending {
        return NotActive;
      }
      if current.role !in db.roles || db.roles[current.role] != org {
        return RoleNotFound;
      }
      var token := db.nextToken;
      db := db.(nextToken := token + 1);
      db := db.(invitations := db.invitations[id := current.(token := token, expiresAt := expiresAt)]);
      FreshTokenIsSafe(old(db), db, id, current.(token := token, expiresAt := expiresAt));
      answer := Done;
    }

    method Revoke(org: OrgId, id: InvId) returns (answer: Answer)
      requires Valid()
      modifies this
      ensures Valid() && (db, answer) == RevokeTx(old(db), org, id)
      ensures answer == if id in old(db).invitations && old(db).invitations[id].org == org && old(db).invitations[id].status == Pending
                        then Done else NotFound
      ensures answer != Done ==> db == old(db)
      ensures answer == Done ==> OnlyRow(old(db), db, id, false) && db.invitations[id] == old(db).invitations[id].(status := Revoked)
    {
      if id !in db.invitations || db.invitations[id].org != org {
        return NotFound;
      }
      if db.invitations[id].status != Pending {
        return NotFound;
      }
      db := db.(invitations := db.invitations[id := db.invitations[id].(status := Revoked)]);
      answer := Done;
    }

    /**
     The redelivery sweep over the listed rows: each row still pending and undelivered gets a fresh
     token and its email is queued. `accepts[i]` tells whether the queue takes the email of row `i`;
     the first refusal ends the sweep after the row it happened on, whose token is already rotated.
     */
    method Redeliver(org: OrgId, rows: seq<InvId>, accepts: seq<bool>) returns (done: nat, queued: nat, ok: bool)
      requires Valid() && |accepts| == |rows|
      modifies this
      ensures Valid() && done <= |rows| && db == RedeliverAll(old(db), org, rows[..done])
      ensures ok ==> done == |rows|
      ensures !ok ==> done > 0 && Refused(old(db), org, rows, accepts, done - 1)
      ensures forall i | 0 <= i < (if ok then done else done - 1) :: !Refused(old(db), org, rows, accepts, i)
      ensures db.nextToken == old(db.nextToken) + queued + if ok then 0 else 1
    {
      done, queued, ok := 0, 0, true;
      ghost var before := db;
      while done < |rows|
        invariant 0 <= done <= |rows| && Valid() && ok
        invariant db == RedeliverAll(before, org, rows[..done])
        invariant db.nextToken == before.nextToken + queued
        invariant forall i | 0 <= i < done :: !Refused(before, org, rows, accepts, i)
      {
        RedeliverOneMore(before, org, rows, done);
        var rotated := RedeliverRow(org, rows[done]);
        assert Refused(before, org, rows, accepts, done) <==> rotated && !accepts[done];
        done := done + 1;
        if rotated {
          if !accepts[done - 1] {
            ok := false;
            return;
          }
          queued := queued + 1;
        }
      }
    }

    /** Answers whether the row was still pending and undelivered, and so got a fresh token. */
    method RedeliverRow(org: OrgId, id: InvId) returns (rotated: bool)
      requires Valid()
      modifies this
      ensures Valid() && db == RedeliverTx(old(db), org, id)
      ensures rotated == Undelivered(old(db), org, id)
      ensures rotated <==> id in old(db).invitations && old(db).invitations[id].org == org
                           && old(db).invitations[id].status == Pending && !old(db).invitations[id].notified
      ensures !rotated ==> db == old(db)
      ensures rotated ==> OnlyRow(old(db), db, id, true)
      ensures rotated ==> db.invitations[id] == old(db).invitations[id].(token := old(db).nextToken, attempts := old(db).invitations[id].attempts + 1)
      ensures db.nextToken == old(db.nextToken) + if rotated then 1 else 0
    {
      if id !in db.invitations || db.invitations[id].org != org {
        return false;
      }
      var row := db.invitations[id];
      if row.status != Pending || row.notified {
        return false;
      }
      var token := db.nextToken;
      db := db.(nextToken := token + 1, invitations := db.invitations[id := row.(token := token, attempts := row.attempts + 1)]);
      FreshTokenIsSafe(old(db), db, id, row.(token := token, attempts := row.attempts + 1));
      rotated := true;
    }

    /** The locked transaction of `Accept`; on an error nothing it did remains. */
    method AcceptRow(id: InvId, now: int, caller: Option<UserId>) returns (ending: Ending)
      requires Valid() && id in db.invitations
      modifies this
      ensures (db, ending) == AcceptLocked(old(db), id, now, caller)
      ensures var inv := old(db).invitations[id];
              && (inv.status == Accepted ==> ending == Answered(AlreadyAccepted))
              && (inv.status == Revoked ==> ending == Answered(WasRevoked))
              && (inv.status == Expired ==> ending == Answered(HasExpired))
              && (inv.status == Pending && now > inv.expiresAt <==> ending == MarkedExpired)
              && ((ending.Answered? && ending.answer.Joined?) <==>
                    inv.status == Pending && now <= inv.expiresAt && OfRole(old(db), inv.role, inv.org) && MayAccept(old(db), inv, caller))
      ensures ending.MarkedExpired? ==> OnlyRow(old(db), db, id, false) && db.invitations[id] == old(db).invitations[id].(status := Expired)
      ensures ending.Answered? && !ending.answer.Joined? ==> db == old(db)
      ensures ending.Answered? && ending.answer.Joined? ==>
                var inv, user := old(db).invitations[id], ending.answer.user;
                && user == (if caller.Some? then caller.value else old(db).nextUser)
                && db.members == old(db).members[MemberKey(inv.org, user) := Membership(inv.role, inv.role, ViaInvitation(id))]
                && db.invitations == old(db).invitations[id := inv.(status := Accepted, acceptedBy := Some(user))]
                && db.users == (if caller.Some? then old(db).users
                                else old(db).users[user := User(Email(inv.email.canonical, inv.email.canonical, inv.email.canonical), true)])
    {
      AcceptExactly(db, id, now, caller);
      var saved := db;
      var inv := db.invitations[id];
      if !(inv.status == Pending && now <= inv.expiresAt) {
        if inv.status != Pending {
          return Answered(Unusable(inv, now));
        }
        db := db.(invitations := db.invitations[id := inv.(status := Expired)]);
        return MarkedExpired;
      }
      if inv.role !in db.roles || db.roles[inv.role] != inv.org {
        return Answered(RoleNotFound);
      }
      var user;
      if caller.Some? {
        user := caller.value;
        if user !in db.users || !db.users[user].active {
          return Answered(NotAuthorized);
        }
        if Normalized(db.users[user].email) != Normalized(inv.email) {
          return Answered(EmailMismatch);
        }
      } else {
        var existing := FindAccount(inv.email);
        if existing.Some? {
          return Answered(if db.users[existing.value].active then AccountExists else NotAuthorized);
        }
        user := db.nextUser;
        db := db.(users := db.users[user := User(Normalized(inv.email), true)], nextUser := user + 1);
      }
      if MemberKey(inv.org, user) in db.members {
        db := saved;
        return Answered(AlreadyMember);
      }
      db := db.(members := db.members[MemberKey(inv.org, user) := Membership(inv.role, inv.role, ViaInvitation(id))]);
      db := db.(invitations := db.invitations[id := inv.(status := Accepted, acceptedBy := Some(user))]);
      ending := Answered(Joined(user));
    }

    /** `Accept` when nothing comes between its two reads. */
    method Accept(token: Token, now: int, caller: Option<UserId>) returns (answer: Answer)
      requires Valid()
      modifies this
      ensures ByToken(old(db), token).None? ==> db == old(db) && answer == NotFound
      ensures ByToken(old(db), token).Some? ==>
                var found := old(db).invitations[ByToken(old(db), token).value];
                (db, answer) == AcceptTx(old(db), token, found, now, caller)
      ensures answer == NotFound <== forall id | id in old(db).invitations :: old(db).invitations[id].token != token
      ensures forall id | id in old(db).invitations && old(db).invitations[id].token == token ::
                var inv := old(db).invitations[id];
                && (inv.status == Accepted ==> answer == AlreadyAccepted)
                && (inv.status == Revoked ==> answer == WasRevoked)
                && (inv.status == Expired || (inv.status == Pending && now > inv.expiresAt) ==> answer == HasExpired)
                && (answer.Joined? <==>
                      inv.status == Pending && now <= inv.expiresAt && OfRole(old(db), inv.role, inv.org) && MayAccept(old(db), inv, caller))
    {
      var id := FindByToken(token);
      assert forall other | other in db.invitations && db.invitations[other].token == token :: Holds(db, other, token);
      if id.None? {
        return NotFound;
      }
      var found := db.invitations[id.value];
      assert forall other | other in db.invitations && db.invitations[other].token == token :: other == id.value;
      var locked := FindByToken(token);
      var ending := AcceptRow(locked.value, now, caller);
      answer := if ending.MarkedExpired? then Unusable(found, now) else ending.answer;
    }
  }
}
