/** API keys, how they authenticate, and the sweep that revokes long-expired ones. */
module ApiKeys {
  import opened Prelude

  type KeyId = nat
  type OrgId = nat
  type UserId = nat

  /** Times are in nanoseconds. */
  const GRACE := 30 * 24 * 3_600_000_000_000
  const BATCH := 200

  datatype Key = Key(org: OrgId, user: UserId, expiresAt: int, revokedAt: Option<int>)

  type Table = map<KeyId, Key>

  datatype Status = Active | Expired | Revoked

  datatype Principal = Principal(user: UserId, key: KeyId, org: OrgId)

  function StatusOf(key: Key, now: int): Status {
    if key.revokedAt.Some? then Revoked else if now > key.expiresAt then Expired else Active
  }

  /** The presented secret stands for the identifier its hash is stored under; `users` are the active accounts. */
  function Authenticate(keys: Table, id: KeyId, users: set<UserId>, now: int): Option<Principal> {
    if id !in keys || StatusOf(keys[id], now) != Active || keys[id].user !in users then None
    else Some(Principal(keys[id].user, id, keys[id].org))
  }

  predicate Listable(keys: Table, org: OrgId, cutoff: int, id: KeyId) {
    id in keys && keys[id].org == org && keys[id].revokedAt.None? && keys[id].expiresAt < cutoff
  }

  /** An answer of `ListExpiredAPIKeys`: the earliest expiries first, ties in any order, at most one batch. */
  ghost predicate IsListing(keys: Table, org: OrgId, cutoff: int, rows: seq<KeyId>) {
    && |rows| <= BATCH
    && (forall i | 0 <= i < |rows| :: Listable(keys, org, cutoff, rows[i]))
    && (forall i, j | 0 <= i < j < |rows| :: rows[i] != rows[j] && keys[rows[i]].expiresAt <= keys[rows[j]].expiresAt)
    && (forall id | Listable(keys, org, cutoff, id) && id !in rows ::
          |rows| == BATCH && forall i | 0 <= i < |rows| :: keys[rows[i]].expiresAt <= keys[id].expiresAt)
  }

  /** `RevokeAPIKeyByID` for every row; it does not look at an earlier revocation. */
  function Stamped(keys: Table, org: OrgId, rows: set<KeyId>, now: int): Table {
    map id | id in keys :: if id in rows && keys[id].org == org then keys[id].(revokedAt := Some(now)) else keys[id]
  }

  function RevokeTx(keys: Table, org: OrgId, id: KeyId, now: int): (Table, bool) {
    if id !in keys || keys[id].org != org || keys[id].revokedAt.Some? then (keys, false)
    else (keys[id := keys[id].(revokedAt := Some(now))], true)
  }

  function Rows(rows: seq<KeyId>): set<KeyId> {
    set id | id in rows
  }

  lemma StampMore(keys: Table, org: OrgId, rows: set<KeyId>, id: KeyId, now: int)
    ensures Stamped(Stamped(keys, org, rows, now), org, {id}, now) == Stamped(keys, org, rows + {id}, now)
  {
  }

  /** Whom a key speaks for, and when: its creator in its organization, up to its expiry, unless it was revoked. */
  lemma AuthenticateIff(keys: Table, id: KeyId, users: set<UserId>, now: int, principal: Principal)
    ensures Authenticate(keys, id, users, now) == Some(principal) <==>
              && id in keys && keys[id].revokedAt == None && now <= keys[id].expiresAt && keys[id].user in users
              && principal.user == keys[id].user && principal.key == id && principal.org == keys[id].org
  {
  }

  /** A sweep lists at most 200 keys of its organization, each more than thirty days past its expiry. */
  lemma ListingRespectsGrace(keys: Table, org: OrgId, now: int, rows: seq<KeyId>)
    requires IsListing(keys, org, now - GRACE, rows)
    ensures |rows| <= 200
    ensures forall i | 0 <= i < |rows| ::
              rows[i] in keys && keys[rows[i]].org == org && keys[rows[i]].expiresAt + 2_592_000_000_000_000 < now
  {
    assert forall i | 0 <= i < |rows| :: Listable(keys, org, now - GRACE, rows[i]);
  }

  class Service {
    var keys: Table

    constructor (keys: Table)
      ensures this.keys == keys
    {
      this.keys := keys;
    }

    method RevokeById(org: OrgId, id: KeyId, now: int)
      modifies this
      ensures keys == Stamped(old(keys), org, {id}, now)
      ensures keys.Keys == old(keys).Keys && forall k | k in keys ::
                keys[k] == if k == id && old(keys)[k].org == org then Key(org, old(keys)[k].user, old(keys)[k].expiresAt, Some(now)) else old(keys)[k]
    {
      if id in keys && keys[id].org == org {
        keys := keys[id := keys[id].(revokedAt := Some(now))];
      }
    }

    /** `rows` is what the database listed for the organization in this transaction. */
    method RevokeExpired(org: OrgId, now: int, rows: seq<KeyId>) returns (revoked: nat)
      modifies this
      ensures keys == Stamped(old(keys), org, Rows(rows), now) && revoked == |rows|
      ensures keys.Keys == old(keys).Keys && forall k | k in keys ::
                keys[k] == if k in rows && old(keys)[k].org == org then Key(org, old(keys)[k].user, old(keys)[k].expiresAt, Some(now)) else old(keys)[k]
    {
      revoked := 0;
      for i := 0 to |rows|
        invariant revoked == i
        invariant keys == Stamped(old(keys), org, Rows(rows[..i]), now)
      {
        assert Rows(rows[..i + 1]) == Rows(rows[..i]) + {rows[i]};
        StampMore(old(keys), org, Rows(rows[..i]), rows[i], now);
        RevokeById(org, rows[i], now);
        revoked := revoked + 1;
      }
      assert rows[..|rows|] == rows;
    }

    /** Answers whether the key was found unrevoked in the organization. */
    method Revoke(org: OrgId, id: KeyId, now: int) returns (found: bool)
      modifies this
      ensures (keys, found) == RevokeTx(old(keys), org, id, now)
      ensures found <==> id in old(keys) && old(keys)[id].org == org && old(keys)[id].revokedAt == None
      ensures !found ==> keys == old(keys)
      ensures found ==> keys == old(keys)[id := Key(org, old(keys)[id].user, old(keys)[id].expiresAt, Some(now))]
    {
      if id !in keys || keys[id].org != org {
        return false;
      }
      if keys[id].revokedAt.Some? {
        return false;
      }
      keys := keys[id := keys[id].(revokedAt := Some(now))];
      found := true;
    }
  }

  // ---- Runs ----

  type TxId = nat

  /** A sweep that has listed its rows and not yet committed. */
  datatype Pending = Pending(org: OrgId, rows: set<KeyId>)

  datatype State = State(keys: Table, next: KeyId, sweeps: map<TxId, Pending>)

  const EMPTY := State(map[], 0, map[])

  /** `Sweep` runs alone; `List` and `Commit` are a sweep with other transactions in between. */
  datatype Step =
    | Create(org: OrgId, user: UserId, expiresAt: int)
    | Revoke(org: OrgId, id: KeyId, now: int)
    | Sweep(org: OrgId, now: int, rows: seq<KeyId>)
    | List(tx: TxId, org: OrgId, now: int, rows: seq<KeyId>)
    | Commit(tx: TxId, now: int)

  function Listed(s: State, tx: TxId, pending: Pending): State {
    s.(sweeps := s.sweeps[tx := pending])
  }

  function Committed(s: State, tx: TxId, now: int): State {
    if tx !in s.sweeps then s
    else s.(keys := Stamped(s.keys, s.sweeps[tx].org, s.sweeps[tx].rows, now), sweeps := s.sweeps - {tx})
  }

  ghost function Next(s: State, step: Step): State {
    match step
    case Create(org, user, expiresAt) => s.(keys := s.keys[s.next := Key(org, user, expiresAt, None)], next := s.next + 1)
    case Revoke(org, id, now) => s.(keys := RevokeTx(s.keys, org, id, now).0)
    case Sweep(org, now, rows) =>
      if IsListing(s.keys, org, now - GRACE, rows) then s.(keys := Stamped(s.keys, org, Rows(rows), now)) else s
    case List(tx, org, now, rows) =>
      if IsListing(s.keys, org, now - GRACE, rows) then Listed(s, tx, Pending(org, Rows(rows))) else s
    case Commit(tx, now) => Committed(s, tx, now)
  }

  ghost function Run(s: State, steps: seq<Step>): State {
    if steps == [] then s else Next(Run(s, steps[..|steps| - 1]), steps[|steps| - 1])
  }

  /** A new key works for its creator, in its organization, up to its expiry, and no other key is touched. */
  lemma NewKeyWorks(s: State, org: OrgId, user: UserId, expiresAt: int, users: set<UserId>, t: int)
    requires user in users && t <= expiresAt && s.next !in s.keys
    ensures var s' := Next(s, Create(org, user, expiresAt));
            && Authenticate(s'.keys, s.next, users, t) == Some(Principal(user, s.next, org))
            && (forall id | id in s.keys :: id in s'.keys && s'.keys[id] == s.keys[id])
  {
  }

  /** The same run with the sweeps left out. */
  function Unswept(steps: seq<Step>): seq<Step> {
    if steps == [] then []
    else
      var before, step := Unswept(steps[..|steps| - 1]), steps[|steps| - 1];
      if step.Create? || step.Revoke? then before + [step] else before
  }

  /** Every sweep of the run looked for keys that expired before `t`. */
  ghost predicate SweptBefore(steps: seq<Step>, t: int) {
    forall step | step in steps && (step.Sweep? || step.List?) :: step.now - GRACE <= t
  }

  // ---- A sweep changes no answer ----

  predicate SameKey(a: Key, b: Key, t: int) {
    && a.(revokedAt := None) == b.(revokedAt := None)
    && (b.revokedAt.Some? ==> a.revokedAt.Some?)
    && (a.revokedAt.Some? && b.revokedAt.None? ==> a.expiresAt < t)
  }

  /** `a` was swept and `b` was not: they differ only in keys that had expired before `t`. */
  ghost predicate Alike(a: State, b: State, t: int) {
    && a.next == b.next && a.keys.Keys == b.keys.Keys
    && (forall id | id in a.keys :: id < a.next && SameKey(a.keys[id], b.keys[id], t))
    && (forall tx, id | tx in a.sweeps && id in a.sweeps[tx].rows :: id in a.keys && a.keys[id].expiresAt < t)
  }

  lemma SharedStepKeepsAlike(a: State, b: State, t: int, step: Step)
    requires Alike(a, b, t) && (step.Create? || step.Revoke?)
    ensures Alike(Next(a, step), Next(b, step), t)
  {
    var a', b' := Next(a, step), Next(b, step);
    forall id | id in a'.keys ensures id < a'.next && SameKey(a'.keys[id], b'.keys[id], t) {
      assert id in a.keys ==> SameKey(a.keys[id], b.keys[id], t);
      if step.Revoke? && step.id in a.keys {
        assert SameKey(a.keys[step.id], b.keys[step.id], t);
      }
    }
  }

  lemma StampKeepsAlike(a: State, b: State, t: int, org: OrgId, rows: set<KeyId>, now: int)
    requires Alike(a, b, t) && (forall id | id in rows :: id in a.keys && a.keys[id].expiresAt < t)
    ensures Alike(a.(keys := Stamped(a.keys, org, rows, now)), b, t)
  {
    var keys' := Stamped(a.keys, org, rows, now);
    forall id | id in keys' ensures SameKey(keys'[id], b.keys[id], t) {
      assert SameKey(a.keys[id], b.keys[id], t);
    }
  }

  lemma SweepKeepsAlike(a: State, b: State, t: int, step: Step)
    requires Alike(a, b, t) && !step.Create? && !step.Revoke?
    requires step.Sweep? || step.List? ==> step.now - GRACE <= t
    ensures Alike(Next(a, step), b, t)
  {
    match step
    case Sweep(org, now, rows) =>
      if IsListing(a.keys, org, now - GRACE, rows) {
        assert forall id | id in Rows(rows) :: Listable(a.keys, org, now - GRACE, id);
        StampKeepsAlike(a, b, t, org, Rows(rows), now);
      }
    case List(tx, org, now, rows) =>
      assert IsListing(a.keys, org, now - GRACE, rows) ==>
          forall id | id in Rows(rows) :: Listable(a.keys, org, now - GRACE, id);
    case Commit(tx, now) =>
      if tx in a.sweeps {
        StampKeepsAlike(a, b, t, a.sweeps[tx].org, a.sweeps[tx].rows, now);
      }
  }

  lemma {:induction false} RunsAreAlike(steps: seq<Step>, t: int)
    requires SweptBefore(steps, t)
    ensures Alike(Run(EMPTY, steps), Run(EMPTY, Unswept(steps)), t)
  {
    if steps != [] {
      var before, step := steps[..|steps| - 1], steps[|steps| - 1];
      RunsAreAlike(before, t);
      if step.Create? || step.Revoke? {
        assert (Unswept(before) + [step])[..|Unswept(before)|] == Unswept(before);
        SharedStepKeepsAlike(Run(EMPTY, before), Run(EMPTY, Unswept(before)), t, step);
      } else {
        SweepKeepsAlike(Run(EMPTY, before), Run(EMPTY, Unswept(before)), t, step);
      }
    }
  }

  /**
   In every run, with sweeps interleaved in any way, every key authenticates as if no sweep had ever
   run, at every time from the latest sweep's cutoff on.
   */
  lemma SweepsAreInvisible(steps: seq<Step>, t: int, id: KeyId, users: set<UserId>)
    requires SweptBefore(steps, t)
    ensures Authenticate(Run(EMPTY, steps).keys, id, users, t) == Authenticate(Run(EMPTY, Unswept(steps)).keys, id, users, t)
  {
    RunsAreAlike(steps, t);
    var a, b := Run(EMPTY, steps), Run(EMPTY, Unswept(steps));
    assert id in a.keys ==> SameKey(a.keys[id], b.keys[id], t);
  }

  /** Exactly which answers one sweep changes: those about a listed key at a time before its expiry. */
  lemma SweepShowsIff(keys: Table, org: OrgId, now: int, rows: seq<KeyId>, id: KeyId, users: set<UserId>, t: int)
    requires IsListing(keys, org, now - GRACE, rows)
    ensures Authenticate(Stamped(keys, org, Rows(rows), now), id, users, t) != Authenticate(keys, id, users, t)
       <==> id in rows && t <= keys[id].expiresAt && keys[id].user in users
  {
    assert forall r | r in rows :: Listable(keys, org, now - GRACE, r);
  }

  // ---- Revocation is for good ----

  lemma {:induction false} RevocationIsFinal(s: State, steps: seq<Step>, id: KeyId)
    requires id in s.keys && s.keys[id].revokedAt.Some? && (forall k | k in s.keys :: k < s.next)
    ensures var s' := Run(s, steps);
            && id in s'.keys && s'.keys[id].revokedAt.Some? && (forall k | k in s'.keys :: k < s'.next)
            && forall users, t :: Authenticate(s'.keys, id, users, t) == None
  {
    if steps != [] {
      RevocationIsFinal(s, steps[..|steps| - 1], id);
    }
  }

  /** The time of a revocation, however, is overwritten exactly when a sweep that listed the key earlier commits. */
  lemma StampKeptIff(s: State, step: Step, id: KeyId)
    requires id in s.keys && s.keys[id].revokedAt.Some? && (forall k | k in s.keys :: k < s.next)
    ensures Next(s, step).keys[id].revokedAt != s.keys[id].revokedAt
       <==> && step.Commit? && step.tx in s.sweeps && id in s.sweeps[step.tx].rows && s.sweeps[step.tx].org == s.keys[id].org
            && s.keys[id].revokedAt != Some(step.now)
  {
    if step.Sweep? && IsListing(s.keys, step.org, step.now - GRACE, step.rows) {
      assert forall r | r in step.rows :: Listable(s.keys, step.org, step.now - GRACE, r);
    }
  }

  /** A key that expired long ago is listed, then revoked by its owner at time 1; the sweep commits at time 2 and takes the credit. */
  lemma StampIsOverwritten()
    ensures var s := Next(Next(Next(EMPTY, Create(0, 0, 0)), List(1, 0, GRACE + 1, [0])), Revoke(0, 0, 1));
            && 0 in s.keys && s.keys[0].revokedAt == Some(1)
            && 0 in Next(s, Commit(1, 2)).keys && Next(s, Commit(1, 2)).keys[0].revokedAt == Some(2)
  {
    var s1 := Next(EMPTY, Create(0, 0, 0));
    assert s1.keys == map[0 := Key(0, 0, 0, None)];
    assert IsListing(s1.keys, 0, 1, [0]);
    var s2 := Next(s1, List(1, 0, GRACE + 1, [0]));
    assert s2.sweeps == map[1 := Pending(0, Rows([0]))] && 0 in Rows([0]);
  }

  // ---- The backlog drains ----

  function Backlog(keys: Table, org: OrgId, cutoff: int): set<KeyId> {
    set id | id in keys && Listable(keys, org, cutoff, id)
  }

  /**
   The sweeps of an organization that count, and those still open. A sweep counts when it looked for
   everything that expired before `cutoff` and no sweep that counts committed between its listing and
   its own commit.
   */
  datatype Tally = Tally(count: nat, open: set<TxId>)

  ghost predicate Looks(s: State, org: OrgId, now: int, rows: seq<KeyId>, wanted: OrgId, cutoff: int) {
    org == wanted && now - GRACE >= cutoff && IsListing(s.keys, org, now - GRACE, rows)
  }

  ghost function Counting(t: Tally, s: State, step: Step, org: OrgId, cutoff: int): Tally {
    match step
    case Sweep(o, now, rows) => if Looks(s, o, now, rows, org, cutoff) then Tally(t.count + 1, {}) else t
    case List(tx, o, now, rows) =>
      if Looks(s, o, now, rows, org, cutoff) then t.(open := t.open + {tx})
      else if IsListing(s.keys, o, now - GRACE, rows) then t.(open := t.open - {tx})
      else t
    case Commit(tx, _) => if tx in t.open then Tally(t.count + 1, {}) else t
    case _ => t
  }

  ghost function Counted(s: State, steps: seq<Step>, org: OrgId, cutoff: int): Tally {
    if steps == [] then Tally(0, {})
    else
      var before := steps[..|steps| - 1];
      Counting(Counted(s, before, org, cutoff), Run(s, before), steps[|steps| - 1], org, cutoff)
  }

  /** New keys expire after the cutoff. */
  ghost predicate CreatesLater(steps: seq<Step>, cutoff: int) {
    forall step | step in steps && step.Create? :: step.expiresAt >= cutoff
  }

  lemma {:induction false} RowsCount(rows: seq<KeyId>)
    requires forall i, j | 0 <= i < j < |rows| :: rows[i] != rows[j]
    ensures |Rows(rows)| == |rows|
  {
    if rows != [] {
      var last := |rows| - 1;
      RowsCount(rows[..last]);
      assert Rows(rows) == Rows(rows[..last]) + {rows[last]};
      assert rows[last] !in rows[..last];
    }
  }

  /** A batch takes the earliest expiries, so later ones never crowd out the backlog. */
  lemma SweepDrains(keys: Table, org: OrgId, now: int, rows: seq<KeyId>, cutoff: int)
    requires IsListing(keys, org, now - GRACE, rows) && cutoff <= now - GRACE
    ensures var left := |Backlog(Stamped(keys, org, Rows(rows), now), org, cutoff)|;
            left == 0 || left + BATCH <= |Backlog(keys, org, cutoff)|
  {
    var due, keys' := Backlog(keys, org, cutoff), Stamped(keys, org, Rows(rows), now);
    var left := Backlog(keys', org, cutoff);
    assert forall r | r in rows :: Listable(keys, org, now - GRACE, r);
    assert left == due - Rows(rows);
    if left != {} {
      var id :| id in left;
      assert Listable(keys, org, now - GRACE, id) && id !in rows;
      assert Rows(rows) <= due;
      RowsCount(rows);
    }
  }

  lemma StepKeepsBacklog(s: State, step: Step, org: OrgId, cutoff: int)
    requires step.Create? ==> step.expiresAt >= cutoff && s.next !in s.keys
    ensures Backlog(Next(s, step).keys, org, cutoff) <= Backlog(s.keys, org, cutoff)
  {
  }

  lemma Smaller(a: set<KeyId>, b: set<KeyId>)
    requires a <= b
    ensures |a| <= |b|
  {
    assert b == a + (b - a);
  }

  /** `n` full batches and what is left come out of `k`, unless nothing is left. */
  predicate Within(left: set<KeyId>, n: nat, k: nat) {
    left == {} || |left| + BATCH * n <= k
  }

  lemma WithinShrinks(small: set<KeyId>, big: set<KeyId>, n: nat, k: nat)
    requires small <= big && Within(big, n, k)
    ensures Within(small, n, k)
  {
    Smaller(small, big);
  }

  /** What an open sweep will leave is a full batch less than what there was when it listed its rows. */
  ghost predicate OpenOk(s: State, t: Tally, org: OrgId, cutoff: int, k: nat) {
    forall tx | tx in t.open ::
      && tx in s.sweeps && s.sweeps[tx].org == org
      && Within(Backlog(s.keys, org, cutoff) - s.sweeps[tx].rows, t.count + 1, k)
  }

  ghost predicate Drained(s: State, t: Tally, org: OrgId, cutoff: int, k: nat) {
    && (forall id | id in s.keys :: id < s.next)
    && Within(Backlog(s.keys, org, cutoff), t.count, k)
    && OpenOk(s, t, org, cutoff, k)
  }

  lemma LooksTakesBatch(s: State, org: OrgId, now: int, rows: seq<KeyId>, cutoff: int, n: nat, k: nat)
    requires Looks(s, org, now, rows, org, cutoff) && Within(Backlog(s.keys, org, cutoff), n, k)
    ensures Within(Backlog(s.keys, org, cutoff) - Rows(rows), n + 1, k)
  {
    SweepDrains(s.keys, org, now, rows, cutoff);
    StampedBacklog(s.keys, org, Rows(rows), now, cutoff);
  }

  lemma StampedBacklog(keys: Table, org: OrgId, rows: set<KeyId>, now: int, cutoff: int)
    ensures Backlog(Stamped(keys, org, rows, now), org, cutoff) == Backlog(keys, org, cutoff) - rows
  {
  }

  lemma ShrinkingKeepsOpen(s: State, s': State, t: Tally, org: OrgId, cutoff: int, k: nat)
    requires OpenOk(s, t, org, cutoff, k) && Backlog(s'.keys, org, cutoff) <= Backlog(s.keys, org, cutoff)
    requires forall tx | tx in t.open && tx in s.sweeps :: tx in s'.sweeps && s'.sweeps[tx] == s.sweeps[tx]
    ensures OpenOk(s', t, org, cutoff, k)
  {
    forall tx | tx in t.open
      ensures Within(Backlog(s'.keys, org, cutoff) - s'.sweeps[tx].rows, t.count + 1, k)
    {
      WithinShrinks(Backlog(s'.keys, org, cutoff) - s.sweeps[tx].rows, Backlog(s.keys, org, cutoff) - s.sweeps[tx].rows, t.count + 1, k);
    }
  }

  lemma ListKeepsDrained(s: State, t: Tally, step: Step, org: OrgId, cutoff: int, k: nat)
    requires Drained(s, t, org, cutoff, k) && step.List?
    ensures Drained(Next(s, step), Counting(t, s, step, org, cutoff), org, cutoff, k)
  {
    var pending := Pending(step.org, Rows(step.rows));
    if Looks(s, step.org, step.now, step.rows, org, cutoff) {
      LooksTakesBatch(s, org, step.now, step.rows, cutoff, t.count, k);
      OpenMore(s, t, step.tx, pending, org, cutoff, k);
    } else {
      OpenLess(s, t, step.tx, pending, org, cutoff, k);
    }
  }

  lemma OpenMore(s: State, t: Tally, tx: TxId, pending: Pending, org: OrgId, cutoff: int, k: nat)
    requires Drained(s, t, org, cutoff, k) && pending.org == org
    requires Within(Backlog(s.keys, org, cutoff) - pending.rows, t.count + 1, k)
    ensures Drained(Listed(s, tx, pending), t.(open := t.open + {tx}), org, cutoff, k)
  {
  }

  lemma OpenLess(s: State, t: Tally, tx: TxId, pending: Pending, org: OrgId, cutoff: int, k: nat)
    requires Drained(s, t, org, cutoff, k)
    ensures Drained(Listed(s, tx, pending), t.(open := t.open - {tx}), org, cutoff, k)
  {
  }

  lemma CommitKeepsDrained(s: State, t: Tally, step: Step, org: OrgId, cutoff: int, k: nat)
    requires Drained(s, t, org, cutoff, k) && step.Commit?
    ensures Drained(Next(s, step), Counting(t, s, step, org, cutoff), org, cutoff, k)
  {
    var s' := Next(s, step);
    if step.tx in t.open {
      StampedBacklog(s.keys, org, s.sweeps[step.tx].rows, step.now, cutoff);
    } else {
      StepKeepsBacklog(s, step, org, cutoff);
      WithinShrinks(Backlog(s'.keys, org, cutoff), Backlog(s.keys, org, cutoff), t.count, k);
      ShrinkingKeepsOpen(s, s', t, org, cutoff, k);
    }
  }

  lemma SweepKeepsDrained(s: State, t: Tally, step: Step, org: OrgId, cutoff: int, k: nat)
    requires Drained(s, t, org, cutoff, k) && step.Sweep? && Looks(s, step.org, step.now, step.rows, org, cutoff)
    ensures Drained(Next(s, step), Counting(t, s, step, org, cutoff), org, cutoff, k)
  {
    LooksTakesBatch(s, org, step.now, step.rows, cutoff, t.count, k);
    StampedBacklog(s.keys, org, Rows(step.rows), step.now, cutoff);
  }

  /** Steps that no sweep of the backlog counts for. */
  lemma ShrinkingKeepsDrained(s: State, s': State, t: Tally, org: OrgId, cutoff: int, k: nat)
    requires Drained(s, t, org, cutoff, k) && s'.sweeps == s.sweeps && (forall id | id in s'.keys :: id < s'.next)
    requires Backlog(s'.keys, org, cutoff) <= Backlog(s.keys, org, cutoff)
    ensures Drained(s', t, org, cutoff, k)
  {
    WithinShrinks(Backlog(s'.keys, org, cutoff), Backlog(s.keys, org, cutoff), t.count, k);
    ShrinkingKeepsOpen(s, s', t, org, cutoff, k);
  }

  lemma StepKeepsDrained(s: State, t: Tally, step: Step, org: OrgId, cutoff: int, k: nat)
    requires Drained(s, t, org, cutoff, k) && (step.Create? ==> step.expiresAt >= cutoff)
    ensures Drained(Next(s, step), Counting(t, s, step, org, cutoff), org, cutoff, k)
  {
    if step.List? {
      ListKeepsDrained(s, t, step, org, cutoff, k);
    } else if step.Commit? {
      CommitKeepsDrained(s, t, step, org, cutoff, k);
    } else if step.Sweep? && Looks(s, step.org, step.now, step.rows, org, cutoff) {
      SweepKeepsDrained(s, t, step, org, cutoff, k);
    } else {
      StepKeepsBacklog(s, step, org, cutoff);
      ShrinkingKeepsDrained(s, Next(s, step), t, org, cutoff, k);
    }
  }

  lemma {:induction false} RunKeepsDrained(s: State, steps: seq<Step>, org: OrgId, cutoff: int)
    requires CreatesLater(steps, cutoff) && (forall id | id in s.keys :: id < s.next)
    ensures Drained(Run(s, steps), Counted(s, steps, org, cutoff), org, cutoff, |Backlog(s.keys, org, cutoff)|)
  {
    if steps != [] {
      var before := steps[..|steps| - 1];
      RunKeepsDrained(s, before, org, cutoff);
      StepKeepsDrained(Run(s, before), Counted(s, before, org, cutoff), steps[|steps| - 1], org, cutoff, |Backlog(s.keys, org, cutoff)|);
    }
  }

  /**
   Whatever is created, revoked or swept in between and however sweeps interleave, each sweep that
   counts takes a full batch off the backlog or clears it: k long-expired keys are gone after
   k / 200 sweeps that do not overlap, rounded up.
   */
  lemma BacklogDrains(s: State, steps: seq<Step>, org: OrgId, cutoff: int)
    requires CreatesLater(steps, cutoff) && (forall id | id in s.keys :: id < s.next)
    ensures var left, k := |Backlog(Run(s, steps).keys, org, cutoff)|, |Backlog(s.keys, org, cutoff)|;
            var n := Counted(s, steps, org, cutoff).count;
            && (left == 0 || left + 200 * n <= k)
            && (200 * n >= k ==> left == 0)
  {
    RunKeepsDrained(s, steps, org, cutoff);
  }

  /** Sweeps that overlap share a batch: when both list before either commits, the second takes nothing off the backlog. */
  lemma OverlapTakesNothing(s: State, a: TxId, b: TxId, org: OrgId, now: int, rows: seq<KeyId>)
    requires a != b && IsListing(s.keys, org, now - GRACE, rows)
    ensures var s1 := Next(Next(Next(s, List(a, org, now, rows)), List(b, org, now, rows)), Commit(a, now));
            var s2 := Next(s1, Commit(b, now));
            var cutoff := now - GRACE;
            && Backlog(s2.keys, org, cutoff) == Backlog(s1.keys, org, cutoff) == Backlog(s.keys, org, cutoff) - Rows(rows)
            && |Backlog(s2.keys, org, cutoff)| + |rows| == |Backlog(s.keys, org, cutoff)|
  {
    BothList(s, a, b, org, now, rows);
    SecondCommitIsIdle(s, a, b, Pending(org, Rows(rows)), now, now - GRACE);
    ListingCount(s.keys, org, now - GRACE, rows);
  }

  lemma BothList(s: State, a: TxId, b: TxId, org: OrgId, now: int, rows: seq<KeyId>)
    requires IsListing(s.keys, org, now - GRACE, rows)
    ensures var pending := Pending(org, Rows(rows));
            Next(Next(s, List(a, org, now, rows)), List(b, org, now, rows)) == Listed(Listed(s, a, pending), b, pending)
  {
    var s1 := Next(s, List(a, org, now, rows));
    assert s1 == Listed(s, a, Pending(org, Rows(rows))) && s1.keys == s.keys;
  }

  lemma SecondCommitIsIdle(s: State, a: TxId, b: TxId, pending: Pending, now: int, cutoff: int)
    requires a != b
    ensures var s1 := Committed(Listed(Listed(s, a, pending), b, pending), a, now);
            && Backlog(s1.keys, pending.org, cutoff) == Backlog(s.keys, pending.org, cutoff) - pending.rows
            && Backlog(Committed(s1, b, now).keys, pending.org, cutoff) == Backlog(s1.keys, pending.org, cutoff)
  {
    var s1 := Committed(Listed(Listed(s, a, pending), b, pending), a, now);
    StampedBacklog(s.keys, pending.org, pending.rows, now, cutoff);
    StampedBacklog(s1.keys, pending.org, pending.rows, now, cutoff);
  }

  lemma ListingCount(keys: Table, org: OrgId, cutoff: int, rows: seq<KeyId>)
    requires IsListing(keys, org, cutoff, rows)
    ensures |Backlog(keys, org, cutoff) - Rows(rows)| + |rows| == |Backlog(keys, org, cutoff)|
  {
    RowsCount(rows);
    forall id | id in Rows(rows) ensures id in Backlog(keys, org, cutoff) {
      assert Listable(keys, org, cutoff, id);
    }
  }
}
