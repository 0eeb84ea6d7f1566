/**
 Refresh, logout and logout-all as interleaved transactions. A refresh locks its row with
 SELECT ... FOR UPDATE and decides on what it read; a family-wide or user-wide UPDATE picks its
 rows when the statement starts and waits for row locks, but never sees rows inserted later.
 */
module RefreshChains {
  import opened Prelude
  import opened RefreshTokens

  type TxId = nat

  /** `Locked` holds a row lock and what was read; `Sweeping` is a multi-row UPDATE waiting to finish. */
  datatype Tx = Locked(token: TokenId, seen: Row) | Sweeping(targets: set<TokenId>)

  /**
   `chains` lists the tokens of each family in issue order, `place` is a token's position there, and
   `rotated` lists the tokens whose refresh succeeded.
   */
  datatype State = State(
    rows: Table,
    next: TokenId,
    nextFamily: FamilyId,
    txs: map<TxId, Tx>,
    chains: map<FamilyId, seq<TokenId>>,
    place: map<TokenId, nat>,
    rotated: seq<TokenId>)

  const INITIAL := State(map[], 0, 0, map[], map[], map[], [])

  datatype Step =
    | Issue(user: UserId, expiresAt: int)
    | Lock(tx: TxId, token: TokenId)
    | Finish(tx: TxId, now: int, active: bool, ttl: int)
    | SweepFamily(tx: TxId, family: FamilyId)
    | SweepUser(tx: TxId, user: UserId)
    | CommitSweep(tx: TxId)
    | Rollback(tx: TxId)

  ghost predicate Free(s: State, token: TokenId, tx: TxId) {
    forall t | t in s.txs && t != tx :: s.txs[t].Locked? ==> s.txs[t].token != token
  }

  function IssueToken(s: State, user: UserId, expiresAt: int): State {
    s.(rows := s.rows[s.next := Row(user, s.nextFamily, expiresAt, false, None)],
       next := s.next + 1,
       nextFamily := s.nextFamily + 1,
       chains := s.chains[s.nextFamily := [s.next]],
       place := s.place[s.next := 0])
  }

  /** The rest of a refresh that found its token unrevoked; a reused token goes on as a sweep of its family. */
  function FinishRefresh(s: State, tx: TxId, now: int, active: bool, ttl: int): State {
    if tx !in s.txs || !s.txs[tx].Locked? then s
    else
      var Locked(token, seen) := s.txs[tx];
      if seen.revoked then s.(txs := s.txs[tx := Sweeping(FamilyLive(s.rows, seen.family))])
      else if !Honoured(seen, now, active) || token !in s.rows || seen.family !in s.chains then
        s.(txs := s.txs - {tx})
      else
        s.(rows := Rotate(s.rows, token, s.next, now + ttl),
           next := s.next + 1,
           txs := s.txs - {tx},
           chains := s.chains[seen.family := s.chains[seen.family] + [s.next]],
           place := s.place[s.next := |s.chains[seen.family]|],
           rotated := s.rotated + [token])
  }

  /** SELECT ... FOR UPDATE; a transaction that would have to wait for the lock does not move. */
  ghost function LockRow(s: State, tx: TxId, token: TokenId): State {
    if tx in s.txs || token !in s.rows || !Free(s, token, tx) then s
    else s.(txs := s.txs[tx := Locked(token, s.rows[token])])
  }

  function StartSweep(s: State, tx: TxId, targets: set<TokenId>): State {
    if tx in s.txs then s else s.(txs := s.txs[tx := Sweeping(targets)])
  }

  /** The UPDATE finishes once no other transaction holds a lock on a row it selected. */
  ghost function FinishSweep(s: State, tx: TxId): State {
    if tx !in s.txs || !s.txs[tx].Sweeping? || !(forall id | id in s.txs[tx].targets :: Free(s, id, tx)) then s
    else s.(rows := Revoke(s.rows, s.txs[tx].targets), txs := s.txs - {tx})
  }

  ghost function Next(s: State, step: Step): State {
    match step
    case Issue(user, expiresAt) => IssueToken(s, user, expiresAt)
    case Lock(tx, token) => LockRow(s, tx, token)
    case Finish(tx, now, active, ttl) => FinishRefresh(s, tx, now, active, ttl)
    case SweepFamily(tx, family) => StartSweep(s, tx, FamilyLive(s.rows, family))
    case SweepUser(tx, user) => StartSweep(s, tx, UserLive(s.rows, user))
    case CommitSweep(tx) => FinishSweep(s, tx)
    case Rollback(tx) => s.(txs := s.txs - {tx})
  }

  ghost function Run(s: State, steps: seq<Step>): State {
    if steps == [] then s else Next(Run(s, steps[..|steps| - 1]), steps[|steps| - 1])
  }

  ghost predicate Member(rows: Table, family: FamilyId, user: UserId, id: TokenId) {
    id in rows && rows[id].family == family && rows[id].user == user
  }

  /** Position `i` comes before position `j`: it was issued earlier, is revoked, and names its direct successor. */
  ghost predicate Link(rows: Table, chain: seq<TokenId>, i: nat, j: nat) {
    && i < j < |chain|
    && chain[i] < chain[j]
    && chain[i] in rows && rows[chain[i]].revoked
    && (j == i + 1 ==> rows[chain[i]].replacedBy == Some(chain[j]))
  }

  /** A family is one path in issue order: each token but the last is revoked and replaced by the next one. */
  ghost predicate IsPath(rows: Table, family: FamilyId, chain: seq<TokenId>) {
    && chain != []
    && chain[0] in rows
    && (forall i | 0 <= i < |chain| :: Member(rows, family, rows[chain[0]].user, chain[i]))
    && (forall i: nat, j: nat | i < j < |chain| :: Link(rows, chain, i, j))
    && chain[|chain| - 1] in rows && rows[chain[|chain| - 1]].replacedBy == None
  }

  ghost predicate AllPaths(rows: Table, nextFamily: FamilyId, chains: map<FamilyId, seq<TokenId>>) {
    forall f | f in chains :: f < nextFamily && IsPath(rows, f, chains[f])
  }

  ghost predicate Paths(s: State) {
    AllPaths(s.rows, s.nextFamily, s.chains)
  }

  ghost predicate OnChain(rows: Table, next: TokenId, chains: map<FamilyId, seq<TokenId>>, place: map<TokenId, nat>, id: TokenId) {
    && id in rows && id < next && id in place && rows[id].family in chains
    && place[id] < |chains[rows[id].family]|
    && chains[rows[id].family][place[id]] == id
  }

  ghost predicate OnPath(s: State, id: TokenId) {
    OnChain(s.rows, s.next, s.chains, s.place, id)
  }

  ghost predicate AllPlaced(rows: Table, next: TokenId, chains: map<FamilyId, seq<TokenId>>, place: map<TokenId, nat>) {
    forall id | id in rows :: OnChain(rows, next, chains, place, id)
  }

  /** Every stored token has its place on the path of its family. */
  ghost predicate Placed(s: State) {
    AllPlaced(s.rows, s.next, s.chains, s.place)
  }

  /** A lock is held by one transaction, which read what the row still says; updates select stored rows. */
  ghost predicate AllLocks(rows: Table, txs: map<TxId, Tx>) {
    && (forall t | t in txs && txs[t].Locked? :: txs[t].token in rows && rows[txs[t].token] == txs[t].seen)
    && (forall t, u | t in txs && u in txs && t != u && txs[t].Locked? && txs[u].Locked? :: txs[t].token != txs[u].token)
    && (forall t | t in txs && txs[t].Sweeping? :: txs[t].targets <= rows.Keys)
  }

  ghost predicate Locks(s: State) {
    AllLocks(s.rows, s.txs)
  }

  ghost predicate AllOnce(rows: Table, rotated: seq<TokenId>) {
    && (forall i | 0 <= i < |rotated| :: rotated[i] in rows && rows[rotated[i]].revoked)
    && (forall i, j | 0 <= i < j < |rotated| :: rotated[i] != rotated[j])
  }

  ghost predicate OnceEach(s: State) {
    AllOnce(s.rows, s.rotated)
  }

  ghost predicate Inv(s: State) {
    Paths(s) && Placed(s) && Locks(s) && OnceEach(s)
  }

  lemma InsertKeepsPath(rows: Table, family: FamilyId, chain: seq<TokenId>, newest: TokenId, row: Row)
    requires IsPath(rows, family, chain) && newest !in rows
    ensures IsPath(rows[newest := row], family, chain)
  {
    var rows' := rows[newest := row];
    forall i: nat, j: nat | i < j < |chain| ensures Link(rows', chain, i, j) {
      assert Link(rows, chain, i, j);
    }
  }

  lemma IssueKeepsPaths(s: State, user: UserId, expiresAt: int)
    requires Paths(s) && s.next !in s.rows
    ensures Paths(IssueToken(s, user, expiresAt))
  {
    var s' := IssueToken(s, user, expiresAt);
    forall f | f in s'.chains ensures f < s'.nextFamily && IsPath(s'.rows, f, s'.chains[f]) {
      if f != s.nextFamily {
        InsertKeepsPath(s.rows, f, s.chains[f], s.next, Row(user, s.nextFamily, expiresAt, false, None));
      }
    }
  }

  lemma IssueKeepsRest(s: State, user: UserId, expiresAt: int)
    requires Placed(s) && Locks(s) && OnceEach(s) && s.nextFamily !in s.chains
    ensures var s' := IssueToken(s, user, expiresAt); Placed(s') && Locks(s') && OnceEach(s')
  {
  }

  /** Rotation extends the path of its family by one. */
  lemma RotateExtendsPath(rows: Table, family: FamilyId, chain: seq<TokenId>, i: nat, newest: TokenId, expiresAt: int)
    requires IsPath(rows, family, chain)
    requires i < |chain| && !rows[chain[i]].revoked
    requires newest !in rows && chain[i] < newest
    ensures IsPath(Rotate(rows, chain[i], newest, expiresAt), family, chain + [newest])
  {
    assert i < |chain| - 1 ==> Link(rows, chain, i, |chain| - 1);
    var rows', chain' := Rotate(rows, chain[i], newest, expiresAt), chain + [newest];
    forall k: nat, j: nat | k < j < |chain'| ensures Link(rows', chain', k, j) {
      assert k < i ==> Link(rows, chain, k, i);
      assert j < |chain| ==> Link(rows, chain, k, j);
    }
  }

  lemma RotateKeepsOthers(rows: Table, family: FamilyId, chain: seq<TokenId>, token: TokenId, newest: TokenId, expiresAt: int)
    requires IsPath(rows, family, chain)
    requires token in rows && rows[token].family != family && newest !in rows
    ensures IsPath(Rotate(rows, token, newest, expiresAt), family, chain)
  {
    forall i: nat, j: nat | i < j < |chain| ensures Link(Rotate(rows, token, newest, expiresAt), chain, i, j) {
      assert Link(rows, chain, i, j);
    }
  }

  lemma FinishKeepsPath(s: State, tx: TxId, now: int, active: bool, ttl: int, f: FamilyId)
    requires f in s.chains && IsPath(s.rows, f, s.chains[f]) && s.next !in s.rows
    requires tx in s.txs && s.txs[tx].Locked?
    requires var token := s.txs[tx].token; token in s.rows && s.rows[token] == s.txs[tx].seen && OnPath(s, token)
    ensures var s' := FinishRefresh(s, tx, now, active, ttl); f in s'.chains && IsPath(s'.rows, f, s'.chains[f])
  {
    var Locked(token, seen) := s.txs[tx];
    if Honoured(seen, now, active) {
      if f == seen.family {
        RotateExtendsPath(s.rows, f, s.chains[f], s.place[token], s.next, now + ttl);
      } else {
        RotateKeepsOthers(s.rows, f, s.chains[f], token, s.next, now + ttl);
      }
    }
  }

  lemma FinishKeepsPaths(s: State, tx: TxId, now: int, active: bool, ttl: int)
    requires Paths(s) && s.next !in s.rows
    requires tx in s.txs && s.txs[tx].Locked?
    requires var token := s.txs[tx].token; token in s.rows && s.rows[token] == s.txs[tx].seen && OnPath(s, token)
    ensures Paths(FinishRefresh(s, tx, now, active, ttl))
  {
    var s' := FinishRefresh(s, tx, now, active, ttl);
    forall f | f in s'.chains ensures f < s'.nextFamily && IsPath(s'.rows, f, s'.chains[f]) {
      FinishKeepsPath(s, tx, now, active, ttl, f);
    }
  }

  lemma FinishKeepsRest(s: State, tx: TxId, now: int, active: bool, ttl: int)
    requires Placed(s) && Locks(s) && OnceEach(s)
    requires tx in s.txs && s.txs[tx].Locked?
    ensures var s' := FinishRefresh(s, tx, now, active, ttl); Placed(s') && Locks(s') && OnceEach(s')
  {
    assert s.next !in s.rows;
  }

  lemma RevokeKeepsPath(rows: Table, family: FamilyId, chain: seq<TokenId>, ids: set<TokenId>)
    requires IsPath(rows, family, chain)
    ensures IsPath(Revoke(rows, ids), family, chain)
  {
    forall i: nat, j: nat | i < j < |chain| ensures Link(Revoke(rows, ids), chain, i, j) {
      assert Link(rows, chain, i, j);
    }
  }

  lemma SweepKeepsPaths(s: State, tx: TxId)
    requires Paths(s)
    ensures Paths(FinishSweep(s, tx))
  {
    var s' := FinishSweep(s, tx);
    forall f | f in s'.chains ensures f < s'.nextFamily && IsPath(s'.rows, f, s'.chains[f]) {
      if s' != s {
        RevokeKeepsPath(s.rows, f, s.chains[f], s.txs[tx].targets);
      }
    }
  }

  lemma SweepKeepsRest(s: State, tx: TxId)
    requires Placed(s) && Locks(s) && OnceEach(s)
    ensures var s' := FinishSweep(s, tx); Placed(s') && Locks(s') && OnceEach(s')
  {
  }

  lemma StartKeepsLocks(s: State, tx: TxId, started: Tx)
    requires Locks(s) && tx !in s.txs
    requires match started
             case Locked(token, seen) => token in s.rows && seen == s.rows[token] && Free(s, token, tx)
             case Sweeping(targets) => targets <= s.rows.Keys
    ensures AllLocks(s.rows, s.txs[tx := started])
  {
  }

  lemma SweepStartKeeps(s: State, tx: TxId, targets: set<TokenId>)
    requires Locks(s) && targets <= s.rows.Keys
    ensures Locks(StartSweep(s, tx, targets))
  {
    if tx !in s.txs {
      StartKeepsLocks(s, tx, Sweeping(targets));
    }
  }

  /** Starting or giving up a transaction keeps the locks sound and changes no row. */
  lemma TxStepKeepsLocks(s: State, step: Step)
    requires Locks(s) && !step.Issue? && !step.Finish? && !step.CommitSweep?
    ensures Locks(Next(s, step)) && Next(s, step) == s.(txs := Next(s, step).txs)
  {
    match step
    case Lock(tx, token) =>
      if tx !in s.txs && token in s.rows && Free(s, token, tx) {
        StartKeepsLocks(s, tx, Locked(token, s.rows[token]));
      }
    case SweepFamily(tx, family) => SweepStartKeeps(s, tx, FamilyLive(s.rows, family));
    case SweepUser(tx, user) => SweepStartKeeps(s, tx, UserLive(s.rows, user));
    case Rollback(tx) =>
  }

  lemma FinishKeeps(s: State, tx: TxId, now: int, active: bool, ttl: int)
    requires Inv(s)
    ensures Inv(FinishRefresh(s, tx, now, active, ttl))
  {
    if tx in s.txs && s.txs[tx].Locked? {
      assert s.next !in s.rows;
      assert OnPath(s, s.txs[tx].token);
      FinishKeepsPaths(s, tx, now, active, ttl);
      FinishKeepsRest(s, tx, now, active, ttl);
    }
  }

  lemma IssueKeeps(s: State, user: UserId, expiresAt: int)
    requires Inv(s)
    ensures Inv(IssueToken(s, user, expiresAt))
  {
    IssueKeepsPaths(s, user, expiresAt);
    IssueKeepsRest(s, user, expiresAt);
  }

  lemma SweepKeeps(s: State, tx: TxId)
    requires Inv(s)
    ensures Inv(FinishSweep(s, tx))
  {
    SweepKeepsPaths(s, tx);
    SweepKeepsRest(s, tx);
  }

  lemma NextKeeps(s: State, step: Step)
    requires Inv(s)
    ensures Inv(Next(s, step))
  {
    match step
    case Issue(user, expiresAt) => IssueKeeps(s, user, expiresAt);
    case Finish(tx, now, active, ttl) => FinishKeeps(s, tx, now, active, ttl);
    case CommitSweep(tx) => SweepKeeps(s, tx);
    case _ => TxStepKeepsLocks(s, step);
  }

  lemma {:induction false} RunKeeps(steps: seq<Step>)
    ensures Inv(Run(INITIAL, steps))
  {
    if steps != [] {
      RunKeeps(steps[..|steps| - 1]);
      NextKeeps(Run(INITIAL, steps[..|steps| - 1]), steps[|steps| - 1]);
    }
  }

  lemma PathHoldsFamily(s: State, family: FamilyId)
    requires family in s.chains && IsPath(s.rows, family, s.chains[family]) && Placed(s)
    ensures FamilyIsPath(s, family)
  {
    var chain := s.chains[family];
    forall id | id in s.rows && s.rows[id].family == family
      ensures id in chain && (!s.rows[id].revoked ==> id == chain[|chain| - 1])
    {
      assert OnPath(s, id);
      if s.place[id] < |chain| - 1 {
        assert Link(s.rows, chain, s.place[id], |chain| - 1);
      }
    }
  }

  /** One user, links in issue order without a cycle, and at most one token unrevoked, the last. */
  ghost predicate FamilyIsPath(s: State, family: FamilyId) {
    && family in s.chains && IsPath(s.rows, family, s.chains[family])
    && (forall id :: id in s.chains[family] <==> id in s.rows && s.rows[id].family == family)
    && (forall id | id in FamilyLive(s.rows, family) :: id == s.chains[family][|s.chains[family]| - 1])
  }

  lemma InvGivesPath(s: State, id: TokenId)
    requires Paths(s) && Placed(s) && id in s.rows
    ensures FamilyIsPath(s, s.rows[id].family)
  {
    assert OnPath(s, id);
    var family := s.rows[id].family;
    assert family in s.chains && IsPath(s.rows, family, s.chains[family]);
    PathHoldsFamily(s, family);
  }

  /** In every interleaving, every stored token lies on the path of its family. */
  lemma FamiliesArePaths(steps: seq<Step>, id: TokenId)
    requires id in Run(INITIAL, steps).rows
    ensures FamilyIsPath(Run(INITIAL, steps), Run(INITIAL, steps).rows[id].family)
  {
    RunKeeps(steps);
    InvGivesPath(Run(INITIAL, steps), id);
  }

  /** Among all refreshes that ever present one token, at most one succeeds. */
  lemma AtMostOneSuccess(steps: seq<Step>, i: nat, j: nat)
    requires i < j < |Run(INITIAL, steps).rotated|
    ensures Run(INITIAL, steps).rotated[i] != Run(INITIAL, steps).rotated[j]
  {
    RunKeeps(steps);
  }

  /** A transaction whose steps run back to back is the whole-transaction function. */
  lemma BackToBack(s: State, tx: TxId, token: TokenId, now: int, active: bool, ttl: int)
    requires Placed(s) && s.txs == map[]
    ensures var s1 := Next(Next(s, Lock(tx, token)), Finish(tx, now, active, ttl));
            var s2 := Next(s1, CommitSweep(tx));
            && s2.rows == RefreshTx(s.rows, s.next, token, now, active, ttl).0
            && s2.txs == map[]
            && (|s2.rotated| > |s.rotated| <==> RefreshTx(s.rows, s.next, token, now, active, ttl).1.Rotated?)
  {
    if token in s.rows {
      var s0 := Next(s, Lock(tx, token));
      assert s0.txs == map[tx := Locked(token, s.rows[token])];
      var s1 := FinishRefresh(s0, tx, now, active, ttl);
      if s.rows[token].revoked {
        assert s1.txs == map[tx := Sweeping(FamilyLive(s.rows, s.rows[token].family))];
      } else {
        assert s1.txs == map[];
      }
    }
  }
}
