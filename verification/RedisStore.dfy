/**
 The part of Redis the job queue uses: one stream with a consumer group, the retry sorted set and
 the dead-letter stream, with one atomic function per command.
 */
module RedisStore {
  import opened JobRecords

  /**
   `log` holds every entry ever added to the job stream and `deleted` the positions removed by
   XDEL, so entry identifiers never repeat. Positions below `cursor` were delivered to the group;
   `pending` is the group's pending-entries list. `dead` is everything ever written to the
   dead-letter stream: MAXLEN trimming drops a prefix of it from Redis.
   */
  datatype Store = Store(
    log: seq<Blob>,
    deleted: set<EntryId>,
    cursor: nat,
    pending: map<EntryId, string>,
    retry: map<Blob, int>,
    dead: seq<Blob>)

  const EMPTY := Store([], {}, 0, map[], map[], [])

  ghost predicate Wellformed(s: Store) {
    && s.cursor <= |s.log|
    && (forall id | id in s.pending :: id < s.cursor && id !in s.deleted)
    && (forall id | id in s.deleted :: id < s.cursor)
  }

  /** An entry some worker can still receive: not yet delivered, or pending and open to reclaim. */
  predicate Live(s: Store, id: EntryId) {
    id < |s.log| && id !in s.deleted && (id >= s.cursor || id in s.pending)
  }

  function Apply(s: Store, c: Command): Store {
    match c
    case XAddStream(b) => s.(log := s.log + [b])
    case XAddDead(b) => s.(dead := s.dead + [b])
    case ZAdd(b, due) => s.(retry := s.retry[b := due])
    case ZRem(b) => s.(retry := s.retry - {b})
    case XAck(id) => s.(pending := s.pending - {id})
    case XDel(id) => if id < |s.log| then s.(deleted := s.deleted + {id}) else s
  }

  function ApplyAll(s: Store, cs: seq<Command>): Store
    decreases |cs|
  {
    if cs == [] then s else ApplyAll(Apply(s, cs[0]), cs[1..])
  }

  lemma {:induction false} ApplyAllSnoc(s: Store, cs: seq<Command>, c: Command)
    ensures ApplyAll(s, cs + [c]) == Apply(ApplyAll(s, cs), c)
    decreases |cs|
  {
    if cs == [] {
      assert cs + [c] == [c] && [c][1..] == [];
    } else {
      assert (cs + [c])[1..] == cs[1..] + [c];
      ApplyAllSnoc(Apply(s, cs[0]), cs[1..], c);
    }
  }

  /** The first `count` stored entries at or after `from` that `wanted` selects, in stream order. */
  function Select(s: Store, wanted: EntryId -> bool, from: nat, count: nat): (ids: seq<EntryId>)
    ensures |ids| <= count
    ensures forall i | 0 <= i < |ids| :: from <= ids[i] < |s.log| && ids[i] !in s.deleted && wanted(ids[i])
    ensures forall i, j | 0 <= i < j < |ids| :: ids[i] < ids[j]
    ensures forall id: EntryId | from <= id < |s.log| && wanted(id) && id !in s.deleted ::
              id in ids || (|ids| == count && forall i | 0 <= i < |ids| :: ids[i] < id)
    decreases |s.log| - from
  {
    if from >= |s.log| || count == 0 then []
    else if from in s.deleted || !wanted(from) then Select(s, wanted, from + 1, count)
    else [from] + Select(s, wanted, from + 1, count - 1)
  }

  /** XREADGROUP with ">": the next undelivered entries. */
  function NextBatch(s: Store, count: nat): (ids: seq<EntryId>)
    ensures |ids| <= count
    ensures forall i | 0 <= i < |ids| :: s.cursor <= ids[i] < |s.log| && ids[i] !in s.deleted
    ensures forall i, j | 0 <= i < j < |ids| :: ids[i] < ids[j]
    ensures forall id | s.cursor <= id < |s.log| && id !in s.deleted ::
              id in ids || (|ids| == count && forall i | 0 <= i < |ids| :: ids[i] < id)
  {
    Select(s, id => true, s.cursor, count)
  }

  function Claim(pending: map<EntryId, string>, ids: seq<EntryId>, consumer: string): (p: map<EntryId, string>)
    ensures p.Keys == pending.Keys + set id | id in ids
    ensures forall id | id in p :: p[id] == if id in ids then consumer else pending[id]
  {
    map id | id in pending.Keys + (set i | i in ids) :: if id in ids then consumer else pending[id]
  }

  /** Delivering a batch moves the cursor past its last entry and makes every entry of it pending. */
  function Deliver(s: Store, ids: seq<EntryId>, consumer: string): Store {
    if ids == [] then s
    else s.(cursor := ids[|ids| - 1] + 1, pending := Claim(s.pending, ids, consumer))
  }

  /** XAUTOCLAIM from 0-0: the first pending entries that were idle long enough. */
  function Reclaimable(s: Store, idle: set<EntryId>, count: nat): (ids: seq<EntryId>)
    ensures |ids| <= count
    ensures forall i | 0 <= i < |ids| :: ids[i] < |s.log| && ids[i] in s.pending && ids[i] in idle
    ensures forall i, j | 0 <= i < j < |ids| :: ids[i] < ids[j]
    ensures forall id: EntryId | id < |s.log| && id in s.pending && id in idle && id !in s.deleted ::
              id in ids || (|ids| == count && forall i | 0 <= i < |ids| :: ids[i] < id)
  {
    Select(s, id => id in s.pending && id in idle, 0, count)
  }

  /** A reply to ZRANGEBYSCORE -inf..now with a limit: due members in score order, none skipped. */
  ghost predicate IsDueListing(retry: map<Blob, int>, listing: seq<Blob>, now: int, limit: nat) {
    && |listing| <= limit
    && (forall i | 0 <= i < |listing| :: listing[i] in retry && retry[listing[i]] <= now)
    && (forall i, j | 0 <= i < j < |listing| :: listing[i] != listing[j] && retry[listing[i]] <= retry[listing[j]])
    && (forall b | b in retry && retry[b] <= now && b !in listing ::
          |listing| == limit && forall i | 0 <= i < |listing| :: retry[listing[i]] <= retry[b])
  }

  /** A command keeps the shape of the store, and only XACK ends the life of an entry. */
  lemma CommandKeepsLive(s: Store, c: Command, id: EntryId)
    requires Wellformed(s)
    requires c.XDel? ==> c.id < s.cursor && c.id !in s.pending
    requires c.XAck? ==> c.id < s.cursor
    ensures Wellformed(Apply(s, c))
    ensures id < |s.log| ==> (Live(Apply(s, c), id) <==> Live(s, id) && c != XAck(id))
  {
  }

  lemma BatchIsPrefix(s: Store, count: nat, id: EntryId)
    ensures var ids := NextBatch(s, count);
            ids != [] && s.cursor <= id < |s.log| && id !in s.deleted ==> (id in ids <==> id <= ids[|ids| - 1])
  {
  }

  lemma EntryStaysLive(s: Store, count: nat, consumer: string, id: EntryId)
    requires Wellformed(s)
    ensures Live(Deliver(s, NextBatch(s, count), consumer), id) <==> Live(s, id)
  {
    BatchIsPrefix(s, count, id);
  }

  lemma DeliverKeepsShape(s: Store, count: nat, consumer: string)
    requires Wellformed(s)
    ensures Wellformed(Deliver(s, NextBatch(s, count), consumer))
  {
  }

  /** Delivery neither adds nor removes a live entry. */
  lemma DeliverKeepsLive(s: Store, count: nat, consumer: string)
    requires Wellformed(s)
    ensures Wellformed(Deliver(s, NextBatch(s, count), consumer))
    ensures forall id: EntryId :: Live(Deliver(s, NextBatch(s, count), consumer), id) <==> Live(s, id)
  {
    DeliverKeepsShape(s, count, consumer);
    forall id: EntryId ensures Live(Deliver(s, NextBatch(s, count), consumer), id) <==> Live(s, id) {
      EntryStaysLive(s, count, consumer, id);
    }
  }
}
