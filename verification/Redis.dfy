/** One queue's Redis state (stream, consumer group, dead-letter stream) and the commands the
    transport issues. */
module Redis {
  import opened Jobs

  /** A pending-list entry: the consumer that holds it and when it was handed over. */
  datatype Lease = Lease(owner: string, since: int)

  /** `log` is every job ever appended; an entry id is its position.  The first `trimmed` of them
      have been evicted by MAXLEN.  `acked` and `skipped` record what Redis itself forgets: ids
      acknowledged, and ids evicted before any consumer saw them.  `dlqLog` and `dlqLive` are the
      dead-letter stream: everything ever appended, and what has not been deleted. */
  datatype Broker = Broker(
    log: seq<Job>,
    trimmed: nat,
    hasGroup: bool,
    cursor: nat,
    pending: map<nat, Lease>,
    acked: set<nat>,
    skipped: set<nat>,
    dlqLog: seq<Job>,
    dlqLive: set<nat>)

  const EMPTY := Broker([], 0, false, 0, map[], {}, {}, [], {})

  /** XLEN: entries ever appended, less those evicted.  Acknowledging does not shorten a stream. */
  function Length(r: Broker): int {
    |r.log| - r.trimmed
  }

  /** The ids from `lo` up to, not including, `hi`. */
  function Ids(lo: nat, hi: nat): (s: set<nat>)
    ensures forall i: nat :: i in s <==> lo <= i < hi
    decreases hi
  {
    if hi <= lo then {} else Ids(lo, hi - 1) + {hi - 1}
  }

  function Undelivered(r: Broker): set<nat> {
    Ids(r.cursor, |r.log|)
  }

  function Delivered(r: Broker): set<nat> {
    Ids(0, r.cursor)
  }

  /** Where the next read starts: after the cursor, past anything evicted. */
  function NextUp(r: Broker): nat {
    if r.cursor < r.trimmed then r.trimmed else r.cursor
  }

  /** Where a read of at most `count` stops. */
  function ReadEnd(r: Broker, count: nat): nat {
    if |r.log| < NextUp(r) + count then |r.log| else NextUp(r) + count
  }

  /** The ids below the cursor are exactly pending, acknowledged, or evicted unseen, and in only
      one of the three; the rest are undelivered. */
  ghost predicate Partitioned(r: Broker) {
    && r.trimmed <= |r.log|
    && r.cursor <= |r.log|
    && (!r.hasGroup ==> r.cursor == 0)
    && (forall i :: i in r.pending ==> i < r.cursor && i !in r.acked && i !in r.skipped)
    && (forall i :: i in r.acked ==> i < r.cursor && i !in r.skipped)
    && (forall i: nat :: i < r.cursor ==> i in r.pending || i in r.acked || i in r.skipped)
    && (forall i :: i in r.skipped ==> i < r.cursor && i < r.trimmed)
    && (forall k :: k in r.dlqLive ==> k < |r.dlqLog|)
  }

  // -- commands ---------------------------------------------------------------

  /** MAXLEN ~ evicts from the front, lazily, and never below the limit. */
  predicate TrimAllowed(r: Broker, maxlen: nat, trim: nat) {
    && r.trimmed <= trim <= |r.log| + 1
    && (trim > r.trimmed ==> |r.log| + 1 - trim >= maxlen)
  }

  function XAdd(r: Broker, job: Job, trim: nat): Broker {
    r.(log := r.log + [job], trimmed := trim)
  }

  function XAddDlq(r: Broker, job: Job): Broker {
    r.(dlqLog := r.dlqLog + [job], dlqLive := r.dlqLive + {|r.dlqLog|})
  }

  function XDelDlq(r: Broker, k: nat): Broker {
    r.(dlqLive := r.dlqLive - {k})
  }

  /** XGROUP CREATE at id 0, with the BUSYGROUP error swallowed. */
  function EnsureGroup(r: Broker): Broker {
    if r.hasGroup then r else r.(hasGroup := true, cursor := 0)
  }

  /** The ids an XREADGROUP `>` hands out: the next `count` after the cursor that still exist. */
  function Handed(r: Broker, count: nat): set<nat> {
    Ids(NextUp(r), ReadEnd(r, count))
  }

  function Elements(ids: seq<nat>): set<nat> {
    set i | i in ids
  }

  /** The ids from `lo` up to, not including, `hi`, in order. */
  function InOrder(lo: nat, hi: nat): (ids: seq<nat>)
    requires lo <= hi
    ensures |ids| == hi - lo
    ensures forall k :: 0 <= k < |ids| ==> ids[k] == lo + k
  {
    seq(hi - lo, k requires 0 <= k < hi - lo => lo + k)
  }

  /** The same ids in stream order. */
  function HandedInOrder(r: Broker, count: nat): (ids: seq<nat>)
    ensures forall k :: 0 <= k < |ids| ==> ids[k] == NextUp(r) + k < |r.log|
    ensures |ids| <= count
  {
    if NextUp(r) <= ReadEnd(r, count) then InOrder(NextUp(r), ReadEnd(r, count)) else []
  }

  function XReadGroup(r: Broker, worker: string, count: nat, now: int): Broker {
    if |r.log| <= NextUp(r) || count == 0 then
      r
    else
      r.(cursor := ReadEnd(r, count),
         pending := r.pending + (map i | i in Handed(r, count) :: Lease(worker, now)),
         skipped := r.skipped + Ids(r.cursor, NextUp(r)))
  }

  function XAck(r: Broker, id: nat): Broker {
    if id in r.pending then
      r.(pending := r.pending - {id}, acked := r.acked + {id})
    else
      r
  }

  /** XAUTOCLAIM: `ids` change hands and their idle time restarts. */
  function XAutoclaim(r: Broker, worker: string, ids: set<nat>, now: int): Broker {
    r.(pending := map i | i in r.pending :: if i in ids then Lease(worker, now) else r.pending[i])
  }

  predicate Stale(r: Broker, id: nat, minIdle: int, now: int) {
    id in r.pending && now - r.pending[id].since >= minIdle
  }

  function Below(ids: set<nat>, id: nat): set<nat> {
    set k | k in ids && k < id
  }

  function StaleIds(r: Broker, minIdle: int, now: int): set<nat> {
    set k | k in r.pending && Stale(r, k, minIdle, now)
  }

  /** XAUTOCLAIM from 0-0 takes the first `count` stale ids, but looks at no more than ten times `count`
      pending ones. */
  predicate Reclaimed(r: Broker, id: nat, minIdle: int, now: int, count: nat) {
    && Stale(r, id, minIdle, now)
    && |Below(r.pending.Keys, id)| < 10 * count
    && |Below(StaleIds(r, minIdle, now), id)| < count
  }

  /** What one such call takes. */
  function ReclaimedIds(r: Broker, minIdle: int, now: int, count: nat): set<nat> {
    set i | i in r.pending && Reclaimed(r, i, minIdle, now, count)
  }

  lemma BelowStep(ids: set<nat>, id: nat)
    ensures |Below(ids, id + 1)| == |Below(ids, id)| + (if id in ids then 1 else 0)
  {
    assert Below(ids, id + 1) == Below(ids, id) + (if id in ids then {id} else {});
  }

  /** Once a scan has passed so many, it has at every later id. */
  lemma {:induction false} BelowGrows(ids: set<nat>, id: nat, later: nat)
    requires id <= later
    ensures |Below(ids, id)| <= |Below(ids, later)|
    decreases later
  {
    if id < later {
      BelowGrows(ids, id, later - 1);
      BelowStep(ids, later - 1);
    }
  }

  /** The oldest of the leases that have been idle for at least `minIdle`: no other is taken; at most `count`
      are; and one that is idle for long enough is left only behind `count` that are taken, or behind ten
      times as many pending ones. */
  ghost predicate TakesFirst(pending: map<nat, Lease>, taken: set<nat>, minIdle: int, now: int, count: nat) {
    && (forall i :: i in taken ==> i in pending && now - pending[i].since >= minIdle)
    && (forall i :: i in taken ==> |set k | k in pending && k < i| < 10 * count)
    && |taken| <= count
    && (forall i :: i in pending && now - pending[i].since >= minIdle && i !in taken ==>
          |set k | k in taken && k < i| == count || |set k | k in pending && k < i| >= 10 * count)
  }

  lemma {:induction false} ReclaimedSoFar(r: Broker, minIdle: int, now: int, count: nat, n: nat)
    ensures var taken, stale := ReclaimedIds(r, minIdle, now, count), StaleIds(r, minIdle, now);
            && |Below(taken, n)| <= count
            && (|Below(r.pending.Keys, n)| < 10 * count ==>
                  |Below(taken, n)| == if |Below(stale, n)| < count then |Below(stale, n)| else count)
  {
    var taken, stale := ReclaimedIds(r, minIdle, now, count), StaleIds(r, minIdle, now);
    if n == 0 {
      assert Below(taken, 0) == {} && Below(stale, 0) == {};
    } else {
      ReclaimedSoFar(r, minIdle, now, count, n - 1);
      BelowStep(r.pending.Keys, n - 1);
      BelowStep(taken, n - 1);
      BelowStep(stale, n - 1);
    }
  }

  /** What one call takes, in terms of how long the leases have been idle. */
  lemma ReclaimsOldest(r: Broker, minIdle: int, now: int, count: nat)
    requires forall i :: i in r.pending ==> i < r.cursor
    ensures TakesFirst(r.pending, ReclaimedIds(r, minIdle, now, count), minIdle, now, count)
  {
    var taken := ReclaimedIds(r, minIdle, now, count);
    ReclaimedSoFar(r, minIdle, now, count, r.cursor);
    assert Below(taken, r.cursor) == taken;
    forall i | i in r.pending
      ensures (set k | k in r.pending && k < i) == Below(r.pending.Keys, i)
      ensures (set k | k in taken && k < i) == Below(taken, i)
      ensures Stale(r, i, minIdle, now) && i !in taken && |Below(r.pending.Keys, i)| < 10 * count ==>
                |Below(taken, i)| == count
    {
      ReclaimedSoFar(r, minIdle, now, count, i);
    }
  }

  /** The same partition in terms of sets. */
  lemma PartitionedAsSets(r: Broker)
    requires Partitioned(r)
    ensures r.pending.Keys + r.acked + r.skipped + Undelivered(r) == Ids(0, |r.log|)
    ensures r.pending.Keys !! r.acked !! r.skipped !! Undelivered(r)
    ensures r.trimmed == 0 ==> r.skipped == {}
  {
  }

  // -- what the commands keep -------------------------------------------------

  lemma XAddPartitioned(r: Broker, job: Job, trim: nat)
    requires Partitioned(r) && r.trimmed <= trim <= |r.log| + 1
    ensures Partitioned(XAdd(r, job, trim))
    ensures Undelivered(XAdd(r, job, trim)) == Undelivered(r) + {|r.log|}
  {
  }

  /** Repeating it never rewinds the cursor, and a group created after entries were appended
      still has every one of them ahead of its cursor. */
  lemma EnsureGroupKeepsAll(r: Broker)
    requires Partitioned(r)
    ensures Partitioned(EnsureGroup(r))
    ensures EnsureGroup(r).hasGroup
    ensures EnsureGroup(EnsureGroup(r)) == EnsureGroup(r)
    ensures EnsureGroup(r).cursor == r.cursor
    ensures !r.hasGroup ==> Undelivered(EnsureGroup(r)) == Ids(0, |r.log|)
  {
  }

  /** A read takes the oldest entries still in the stream, as many as asked for while there are any. */
  lemma HandedIsOldest(r: Broker, count: nat)
    requires Partitioned(r)
    ensures var waiting := Undelivered(r) * Ids(r.trimmed, |r.log|);
            && Handed(r, count) <= waiting
            && (forall i, j :: i in Handed(r, count) && j in waiting && j < i ==> j in Handed(r, count))
            && |Handed(r, count)| == (if |waiting| < count then |waiting| else count)
    ensures Elements(HandedInOrder(r, count)) == Handed(r, count)
  {
    assert Undelivered(r) * Ids(r.trimmed, |r.log|) == Ids(NextUp(r), |r.log|);
    if NextUp(r) <= |r.log| {
      IdsSize(NextUp(r), |r.log|);
      IdsSize(NextUp(r), ReadEnd(r, count));
    }
    HandedElements(r, count);
  }

  lemma HandedElements(r: Broker, count: nat)
    ensures Elements(HandedInOrder(r, count)) == Handed(r, count)
  {
    var ids := HandedInOrder(r, count);
    forall i | i in Handed(r, count) ensures i in ids {
      assert ids[i - NextUp(r)] == i;
    }
  }

  lemma {:induction false} IdsSize(lo: nat, hi: nat)
    requires lo <= hi
    ensures |Ids(lo, hi)| == hi - lo
    decreases hi
  {
    if lo < hi {
      IdsSize(lo, hi - 1);
      assert hi - 1 !in Ids(lo, hi - 1);
    }
  }

  /** A read moves exactly the ids it hands out from undelivered to pending, all held by the
      reader; ids it passes over were already evicted. */
  lemma XReadGroupMoves(r: Broker, worker: string, count: nat, now: int)
    requires Partitioned(r) && r.hasGroup
    ensures var r' := XReadGroup(r, worker, count, now);
            && Partitioned(r')
            && Handed(r, count) <= Undelivered(r)
            && Handed(r, count) !! Undelivered(r')
            && r'.pending.Keys == r.pending.Keys + Handed(r, count)
            && r'.acked == r.acked
            && Undelivered(r) == Undelivered(r') + Handed(r, count) + (r'.skipped - r.skipped)
            && (forall i :: i in Handed(r, count) ==> r'.pending[i] == Lease(worker, now))
            && (r.trimmed <= r.cursor ==> r'.skipped == r.skipped)
            && r.cursor <= r'.cursor
  {
    var r' := XReadGroup(r, worker, count, now);
    var gap := Ids(r.cursor, NextUp(r));
    if |r.log| <= NextUp(r) || count == 0 {
      assert Handed(r, count) == {};
    } else {
      assert r'.pending.Keys == r.pending.Keys + Handed(r, count);
      assert Delivered(r') == Delivered(r) + gap + Handed(r, count);
      assert r'.skipped - r.skipped == gap;
    }
  }

  lemma XAckMoves(r: Broker, id: nat)
    requires Partitioned(r)
    ensures Partitioned(XAck(r, id))
    ensures Undelivered(XAck(r, id)) == Undelivered(r)
    ensures XAck(r, id).pending.Keys == r.pending.Keys - {id}
    ensures XAck(r, id).acked == r.acked + (r.pending.Keys * {id})
  {
  }

  /** Lease recovery keeps the set of pending ids and touches nothing but the leases it takes. */
  lemma XAutoclaimMovesLeases(r: Broker, worker: string, ids: set<nat>, now: int)
    requires Partitioned(r) && ids <= r.pending.Keys
    ensures var r' := XAutoclaim(r, worker, ids, now);
            && Partitioned(r')
            && r'.pending.Keys == r.pending.Keys
            && r' == r.(pending := r'.pending)
            && (forall i :: i in ids ==> r'.pending[i] == Lease(worker, now))
            && (forall i :: i in r.pending && i !in ids ==> r'.pending[i] == r.pending[i])
  {
  }
}
