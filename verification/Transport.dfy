/** The transport over one queue's Redis state, and the outbox table, as the objects the
    application updates in place. */
module Transport {
  import opened Outcomes
  import opened Jobs
  import opened Codec
  import opened Redis
  import opened Protocol

  /** The items with these ids, each with its id. */
  function Picked<T>(items: seq<T>, ids: seq<nat>): (picked: seq<(nat, T)>)
    requires forall k :: 0 <= k < |ids| ==> ids[k] < |items|
    ensures |picked| == |ids|
    ensures forall k :: 0 <= k < |ids| ==> picked[k] == (ids[k], items[ids[k]])
  {
    seq(|ids|, k requires 0 <= k < |ids| => (ids[k], items[ids[k]]))
  }

  datatype ReadError = NoGroup | Undecodable

  /** What a caller gets for a reply: the entries that have an id, in order, or nothing at all when one of
      them has a status or a timestamp that raises what the decoding loop does not catch. */
  ghost predicate DecodesTo(entries: seq<(nat, Body)>, now: int, r: Result<seq<(nat, Job)>, ReadError>) {
    if exists i :: 0 <= i < |entries| && Raises(entries[i].1) then
      r == Err(Undecodable)
    else
      r.Ok? && ReadFrom(entries, now, r.value)
  }

  /** Every body on the wire is one the queue wrote for the job at its place. */
  predicate AllWritten(wire: seq<Body>, log: seq<Job>) {
    |wire| == |log| && forall i :: 0 <= i < |log| ==> Holds(wire[i], log[i])
  }

  /** Then a reply comes back complete, in order, each job as it was enqueued. */
  lemma RepliesAreComplete(wire: seq<Body>, log: seq<Job>, ids: seq<nat>, now: int,
                           r: Result<seq<(nat, Job)>, ReadError>)
    requires AllWritten(wire, log) && (forall k :: 0 <= k < |ids| ==> ids[k] < |log|)
    requires DecodesTo(Picked(wire, ids), now, r)
    ensures r == Ok(Picked(log, ids))
  {
    var entries := Picked(wire, ids);
    var jobs := seq(|ids|, k requires 0 <= k < |ids| => log[ids[k]]);
    forall k | 0 <= k < |ids| ensures Holds(entries[k].1, jobs[k]) {
      assert Holds(wire[ids[k]], log[ids[k]]);
    }
    WrittenDecode(entries, jobs, now);
    assert r.Ok? && r.value == Picked(log, ids);
  }

  /** `wire` is what the stream's entries hold, whoever wrote them; `log` is the jobs that stand for. */
  class RedisStreamTransport {
    var wire: seq<Body>
    var log: seq<Job>
    var trimmed: nat
    var hasGroup: bool
    var cursor: nat
    var pending: map<nat, Lease>
    var acked: set<nat>
    var skipped: set<nat>
    var dlqLog: seq<Job>
    var dlqLive: set<nat>

    function View(): Broker
      reads this
    {
      Broker(log, trimmed, hasGroup, cursor, pending, acked, skipped, dlqLog, dlqLive)
    }

    constructor ()
      ensures View() == EMPTY && AllWritten(wire, log)
    {
      wire := [];
      log, trimmed, hasGroup, cursor := [], 0, false, 0;
      pending, acked, skipped := map[], {}, {};
      dlqLog, dlqLive := [], {};
    }

    /** The state as somebody else's command left it. */
    method Load(r: Broker)
      requires forall i :: 0 <= i < |r.log| ==> r.log[i].status.Member?
      modifies this
      ensures View() == r && AllWritten(wire, log)
    {
      wire := seq(|r.log|, i requires 0 <= i < |r.log| => Parsed(ToDict(r.log[i]).value));
      log, trimmed, hasGroup, cursor := r.log, r.trimmed, r.hasGroup, r.cursor;
      pending, acked, skipped := r.pending, r.acked, r.skipped;
      dlqLog, dlqLive := r.dlqLog, r.dlqLive;
    }

    method EnsureGroup()
      modifies this`hasGroup, this`cursor
      ensures View() == Redis.EnsureGroup(old(View()))
      ensures hasGroup && cursor == if old(hasGroup) then old(cursor) else 0
    {
      // A second XGROUP CREATE raises BUSYGROUP, which is swallowed.
      if !hasGroup {
        hasGroup, cursor := true, 0;
      }
    }

    method StreamLength() returns (n: int)
      ensures n == Length(View())
      ensures trimmed <= |log| ==> n == |Ids(trimmed, |log|)|
    {
      if trimmed <= |log| {
        IdsSize(trimmed, |log|);
      }
      n := |log| - trimmed;
    }

    /** Serialising happens before XADD is sent; `trim` is where lazy trimming leaves the front. */
    method XAdd(job: Job, maxlen: nat, trim: nat) returns (r: Result<nat, EncodeError>)
      requires TrimAllowed(View(), maxlen, trim)
      modifies this
      ensures r.Ok? <==> job.status.Member?
      ensures r.Ok? ==> r.value == |old(log)| && View() == Redis.XAdd(old(View()), job, trim)
      ensures r.Ok? ==> log == old(log) + [job] && trimmed == trim
      ensures r.Ok? ==> |wire| == |old(wire)| + 1 && wire[..|old(wire)|] == old(wire) && Holds(wire[|old(wire)|], job)
      ensures r.Err? ==> View() == old(View()) && wire == old(wire)
      ensures old(AllWritten(wire, log)) ==> AllWritten(wire, log)
    {
      var body := ToDict(job);
      if body.Err? {
        return Err(body.error);
      }
      r := Ok(|log|);
      wire, log, trimmed := wire + [Parsed(body.value)], log + [job], trim;
    }

    method XAddDlq(job: Job) returns (r: Result<nat, EncodeError>)
      modifies this`dlqLog, this`dlqLive
      ensures r.Ok? <==> job.status.Member?
      ensures r.Ok? ==> r.value == |old(dlqLog)| && View() == Redis.XAddDlq(old(View()), job)
      ensures r.Ok? ==> dlqLog == old(dlqLog) + [job] && dlqLive == old(dlqLive) + {r.value}
      ensures r.Err? ==> View() == old(View())
    {
      var body := ToDict(job);
      if body.Err? {
        return Err(body.error);
      }
      r := Ok(|dlqLog|);
      dlqLog, dlqLive := dlqLog + [job], dlqLive + {|dlqLog|};
    }

    /** Claims what XREADGROUP hands out, then decodes it.  A group that does not exist raises; an entry
        that raises in decoding leaves the whole batch claimed. */
    method ReadGroup(worker: string, count: nat, now: int) returns (r: Result<seq<(nat, Job)>, ReadError>)
      requires trimmed <= |log| && cursor <= |log| && |wire| == |log|
      modifies this`pending, this`skipped, this`cursor
      ensures !hasGroup ==> r == Err(NoGroup) && View() == old(View())
      ensures hasGroup ==>
                && View() == XReadGroup(old(View()), worker, count, now)
                && DecodesTo(Picked(wire, HandedInOrder(old(View()), count)), now, r)
    {
      if !hasGroup {
        return Err(NoGroup);
      }
      var lo, hi, ids := NextUp(View()), ReadEnd(View(), count), HandedInOrder(View(), count);
      if lo < |log| && count > 0 {
        pending := pending + (map i | i in Ids(lo, hi) :: Lease(worker, now));
        skipped := skipped + Ids(cursor, lo);
        cursor := hi;
      }
      var decoded := DecodeBatch(Picked(wire, ids), now);
      r := if decoded.Ok? then Ok(decoded.value) else Err(Undecodable);
    }

    method XAck(id: nat) returns (n: nat)
      modifies this`pending, this`acked
      ensures View() == Redis.XAck(old(View()), id)
      ensures n == if id in old(pending) then 1 else 0
      ensures pending == old(pending) - {id} && acked == old(acked) + (if n == 1 then {id} else {})
    {
      if id in pending {
        pending, acked := pending - {id}, acked + {id};
        n := 1;
      } else {
        n := 0;
      }
    }

    /** XAUTOCLAIM from 0-0, then decoding.  The returned cursor is dropped, so the next call starts from
        the front again. */
    method AutoclaimStale(worker: string, minIdle: int, now: int, count: nat)
      returns (ids: seq<nat>, r: Result<seq<(nat, Job)>, ReadError>)
      requires |wire| == |log| && cursor <= |log| && (forall i :: i in pending ==> i < cursor)
      modifies this`pending
      ensures View() == XAutoclaim(old(View()), worker, Elements(ids), now)
      ensures forall k :: 0 <= k < |ids| ==> ids[k] < |wire|
      ensures forall k :: 0 < k < |ids| ==> ids[k - 1] < ids[k]
      ensures !hasGroup ==> ids == [] && r == Err(NoGroup)
      ensures hasGroup ==>
                && Elements(ids) == ReclaimedIds(old(View()), minIdle, now, count)
                && TakesFirst(old(pending), Elements(ids), minIdle, now, count)
                && DecodesTo(Picked(wire, ids), now, r)
    {
      hide TakesFirst, ReclaimedIds, ReadFrom, Raises;
      if !hasGroup {
        assert XAutoclaim(View(), worker, {}, now) == View();
        return [], Err(NoGroup);
      }
      ids := ScanStale(minIdle, now, count);
      ghost var after := XAutoclaim(View(), worker, Elements(ids), now);
      pending := map k | k in pending :: if k in ids then Lease(worker, now) else pending[k];
      assert pending == after.pending;
      var decoded := DecodeBatch(Picked(wire, ids), now);
      r := if decoded.Ok? then Ok(decoded.value) else Err(Undecodable);
    }

    /** The scan inside XAUTOCLAIM: stops after `count` stale ids or ten times as many pending ones. */
    method ScanStale(minIdle: int, now: int, count: nat) returns (ids: seq<nat>)
      requires forall i :: i in pending ==> i < cursor
      ensures forall k :: 0 < k < |ids| ==> ids[k - 1] < ids[k]
      ensures forall k :: 0 <= k < |ids| ==> ids[k] < cursor
      ensures Elements(ids) == ReclaimedIds(View(), minIdle, now, count)
      ensures TakesFirst(pending, Elements(ids), minIdle, now, count)
    {
      ids := [];
      var i, scanned := 0, 0;
      while i < cursor && |ids| < count && scanned < 10 * count
        invariant 0 <= i <= cursor
        invariant scanned == |Below(pending.Keys, i)| && |ids| == |Below(StaleIds(View(), minIdle, now), i)|
        invariant forall k :: 0 <= k < |ids| ==> ids[k] < i
        invariant forall k :: 0 < k < |ids| ==> ids[k - 1] < ids[k]
        invariant forall k: nat :: k < i ==> (k in ids <==> Reclaimed(View(), k, minIdle, now, count))
      {
        BelowStep(pending.Keys, i);
        BelowStep(StaleIds(View(), minIdle, now), i);
        if i in pending {
          scanned := scanned + 1;
          if now - pending[i].since >= minIdle {
            ids := ids + [i];
          }
        }
        i := i + 1;
      }
      forall k: nat | k >= i ensures !Reclaimed(View(), k, minIdle, now, count) {
        BelowGrows(pending.Keys, i, k);
        BelowGrows(StaleIds(View(), minIdle, now), i, k);
      }
      ReclaimsOldest(View(), minIdle, now, count);
    }

    /** Only the 200 newest live records are searched, newest first. */
    method ReadDlqEntry(jobId: string) returns (r: Option<(nat, Job)>)
      requires forall k :: k in dlqLive ==> k < |dlqLog|
      ensures r.Some? ==>
                && r.value.0 in dlqLive
                && r.value.1 == dlqLog[r.value.0]
                && r.value.1.id == jobId
                && (forall k :: k in dlqLive && k > r.value.0 ==> dlqLog[k].id != jobId)
                && |LiveFrom(dlqLive, r.value.0)| <= 200
      ensures r.None? ==> forall k :: k in dlqLive && dlqLog[k].id == jobId ==> |LiveFrom(dlqLive, k)| > 200
    {
      var i, seen := |dlqLog|, 0;
      while i > 0 && seen < 200
        invariant 0 <= i <= |dlqLog| && seen == |LiveFrom(dlqLive, i)| <= 200
        invariant forall k :: k in dlqLive && k >= i ==> dlqLog[k].id != jobId
      {
        i := i - 1;
        LiveFromStep(dlqLive, i);
        if i in dlqLive {
          seen := seen + 1;
          if dlqLog[i].id == jobId {
            return Some((i, dlqLog[i]));
          }
        }
      }
      forall k | k in dlqLive && dlqLog[k].id == jobId ensures |LiveFrom(dlqLive, k)| > 200 {
        LiveFromGrows(dlqLive, k, i);
      }
      r := None;
    }

    method DeleteDlqEntry(k: nat)
      modifies this`dlqLive
      ensures View() == XDelDlq(old(View()), k) && dlqLive == old(dlqLive) - {k}
    {
      dlqLive := dlqLive - {k};
    }
  }

  /** The live dead-letter records at or above `k`. */
  function LiveFrom(live: set<nat>, k: nat): (above: set<nat>)
    ensures forall r :: r in above <==> r in live && r >= k
  {
    set r | r in live && r >= k
  }

  lemma LiveFromStep(live: set<nat>, k: nat)
    ensures |LiveFrom(live, k)| == |LiveFrom(live, k + 1)| + (if k in live then 1 else 0)
  {
    assert LiveFrom(live, k) == LiveFrom(live, k + 1) + (if k in live then {k} else {});
  }

  lemma {:induction false} LiveFromGrows(live: set<nat>, k: nat, i: nat)
    requires k in live && k < i
    ensures |LiveFrom(live, k)| > |LiveFrom(live, i)|
    decreases i
  {
    LiveFromStep(live, i - 1);
    if k < i - 1 {
      LiveFromGrows(live, k, i - 1);
    }
  }

  datatype InsertError = Busy | NoValue | Duplicate | RolledBack

  class SqliteStore {
    var rows: map<string, Row>
    var durable: map<string, Row>
    var open: bool

    function View(): Database
      reads this
    {
      Database(rows, durable, open)
    }

    constructor ()
      ensures View() == Database(map[], map[], false)
    {
      rows, durable, open := map[], map[], false;
    }

    /** The tables as somebody else's statement left them. */
    method Load(db: Database)
      modifies this
      ensures View() == db
    {
      rows, durable, open := db.rows, db.durable, db.open;
    }

    method FindByIdempotencyKey(key: string) returns (found: bool)
      ensures found == KeyTaken(rows, key)
    {
      found := exists id :: id in rows && rows[id].job.key == Some(key);
    }

    /** Inside a transaction: binding the status value, then the two uniqueness constraints. */
    method InsertOutbox(job: Job) returns (r: Result<(), InsertError>)
      modifies this`rows
      ensures r.Ok? <==> Insertable(old(rows), job)
      ensures r.Ok? <==>
                && job.status.Member?
                && (forall id :: id in old(rows) ==>
                      id != job.id && (job.key.Some? ==> old(rows)[id].job.key != job.key))
      ensures r.Ok? ==> rows == WithRow(old(rows), job)
      ensures r.Ok? ==> rows == old(rows)[job.id := Row(job, job.status.status, job.attempts)]
      ensures r.Err? ==> rows == old(rows)
    {
      if !job.status.Member? {
        return Err(NoValue);
      }
      if job.id in rows {
        return Err(Duplicate);
      }
      if job.key.Some? {
        var taken := FindByIdempotencyKey(job.key.value);
        if taken {
          return Err(Duplicate);
        }
      }
      rows := rows[job.id := Row(job, job.status.status, job.attempts)];
      r := Ok(());
    }

    /** BEGIN IMMEDIATE, insert, COMMIT; any exception in between rolls back to what was committed. */
    method InsertInTransaction(job: Job, fails: bool) returns (r: Result<(), InsertError>)
      requires !open ==> rows == durable
      modifies this
      ensures r.Ok? <==> !fails && Accepts(old(View()), job)
      ensures r.Ok? ==> View() == Committing(old(View()), job)
      ensures r.Ok? ==> durable == rows && !open
      ensures r.Err? ==> View() == old(View())
    {
      if open {
        return Err(Busy);
      }
      r := InsertOutbox(job);
      if r.Ok? && fails {
        r := Err(RolledBack);
      }
      if r.Ok? {
        durable := rows;
      } else {
        rows := durable;
      }
    }

    /** No COMMIT follows. */
    method UpdateStatus(id: string, status: JobStatus, attempts: Option<int>)
      modifies this`rows, this`open
      ensures View() == Updating(old(View()), id, status, attempts)
      ensures open && rows.Keys == old(rows).Keys && (forall i :: i in rows && i != id ==> rows[i] == old(rows)[i])
      ensures id in rows ==>
                rows[id] == Row(old(rows)[id].job, status,
                                if attempts.Some? then attempts.value else old(rows)[id].attempts)
    {
      open := true;
      if id in rows {
        if attempts.Some? {
          rows := rows[id := rows[id].(status := status, attempts := attempts.value)];
        } else {
          rows := rows[id := rows[id].(status := status)];
        }
      }
    }
  }
}
