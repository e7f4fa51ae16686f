/** What the outbox promises: rows before entries, one XADD per key and per id, truthful statuses. */
module Outbox {
  import opened Outcomes
  import opened Jobs
  import opened Redis
  import opened Protocol
  import opened NoLoss
  import Capacity

  // -- outbox first, and at most once -------------------------------------------

  /** The call's row is in the outbox (with a store) or it went straight on (without one). */
  predicate Inserted(call: Call) {
    call.phase == Ready || call.phase.Added? || call.phase.Done?
  }

  predicate Appended(call: Call) {
    call.phase.Added? || call.phase.Done?
  }

  /** Call `c` put the row for `id` into the outbox. */
  ghost predicate Wrote(s: State, c: nat, id: string) {
    c in s.calls && Inserted(s.calls[c]) && s.calls[c].job.id == id
  }

  /** Call `c` appended entry `i`. */
  ghost predicate Sent(s: State, c: nat, i: nat) {
    c in s.calls && Appended(s.calls[c]) && s.calls[c].phase.entry == i
  }

  ghost predicate RowBehind(s: State, call: Call) {
    && call.job.status.Member?
    && call.job.id in s.db.rows
    && s.db.rows[call.job.id].job == call.job
    && (Appended(call) ==> call.phase.entry < |s.redis.log| && s.redis.log[call.phase.entry] == call.job)
  }

  ghost predicate HasWriter(s: State, id: string) {
    exists c :: Wrote(s, c, id)
  }

  ghost predicate HasSender(s: State, i: nat) {
    exists c :: Sent(s, c, i)
  }

  /** Every inserted call has its row, and its entry once appended. */
  ghost predicate Backed(s: State) {
    forall c :: c in s.calls && Inserted(s.calls[c]) ==> RowBehind(s, s.calls[c])
  }

  ghost predicate AllApart(s: State) {
    forall c, c' :: c in s.calls && c' in s.calls && c != c' && Inserted(s.calls[c]) && Inserted(s.calls[c']) ==>
      Apart(s.calls[c].job, s.calls[c'].job)
  }

  /** Every row and every entry comes from a call. */
  ghost predicate Sourced(s: State) {
    && (forall id :: id in s.db.rows ==> s.db.rows[id].job.id == id && HasWriter(s, id))
    && (forall i :: 0 <= i < |s.redis.log| ==> HasSender(s, i))
  }

  ghost predicate Ordered(s: State) {
    Backed(s) && AllApart(s) && Sourced(s)
  }

  /** Neither the same id nor the same key. */
  predicate Apart(a: Job, b: Job) {
    a.id != b.id && (a.key.Some? ==> a.key != b.key)
  }

  /** Steps by which a call's outbox and stream effects change. */
  predicate Writes(s: State, e: Event)
    requires Enabled(s, e)
  {
    (e.Insert? && Inserted(Apply(s, e).calls[e.c])) || e.Append?
  }

  predicate SameWrite(a: Call, b: Call) {
    && a.job == b.job
    && Inserted(a) == Inserted(b)
    && Appended(a) == Appended(b)
    && (Appended(a) ==> a.phase.entry == b.phase.entry)
  }

  predicate Updates(e: Event) {
    e.Begin? || e.Settle? || e.Rollback?
  }

  lemma DatabaseKept(s: State, e: Event)
    requires Enabled(s, e) && !Writes(s, e) && !Updates(e)
    ensures Apply(s, e).db == s.db
  {
  }

  /** The same ids, each with the job it was inserted with. */
  ghost predicate SameJobs(rows: map<string, Row>, rows': map<string, Row>) {
    rows'.Keys == rows.Keys && forall id :: id in rows ==> rows'[id].job == rows[id].job
  }

  lemma UpdatingKeepsJobs(db: Database, id: string, status: JobStatus, attempts: Option<int>)
    ensures SameJobs(db.rows, Updating(db, id, status, attempts).rows)
  {
  }

  lemma JobsKept(s: State, e: Event)
    requires Committed(s.db) && Enabled(s, e) && Updates(e)
    ensures SameJobs(s.db.rows, Apply(s, e).db.rows)
  {
    hide Updating, WithStatus;
    match e
    case Begin(d, entry, written) =>
      UpdatingKeepsJobs(s.db, s.redis.log[entry].id, Processing, Some(s.redis.log[entry].attempts));
    case Settle(d, written) =>
      var w := s.work[d];
      UpdatingKeepsJobs(s.db, w.job.id, FinalStatus(w.pc), if w.pc == Retrying then Some(w.job.attempts) else None);
    case Rollback =>
  }

  lemma LogKept(s: State, e: Event)
    requires Enabled(s, e) && !e.Append?
    ensures Apply(s, e).redis.log == s.redis.log
  {
  }

  /** Any other step leaves the rows' jobs, the log and what has been inserted as they were. */
  lemma QuietStep(s: State, e: Event)
    requires Committed(s.db) && Enabled(s, e) && !Writes(s, e)
    ensures Apply(s, e).redis.log == s.redis.log
    ensures Apply(s, e).db.rows.Keys == s.db.rows.Keys
    ensures forall id :: id in s.db.rows ==> Apply(s, e).db.rows[id].job == s.db.rows[id].job
  {
    hide Apply, Enabled;
    LogKept(s, e);
    if Updates(e) {
      JobsKept(s, e);
    } else {
      DatabaseKept(s, e);
    }
  }

  lemma QuietCallStep(s: State, e: Event, c: nat)
    requires Enabled(s, e) && !Writes(s, e) && c in Apply(s, e).calls
    ensures c in s.calls ==> SameWrite(s.calls[c], Apply(s, e).calls[c])
    ensures c !in s.calls ==> !Inserted(Apply(s, e).calls[c])
  {
  }

  /** Writers and senders stay. */
  lemma SourcesStay(s: State, e: Event, c: nat)
    requires Enabled(s, e) && c in s.calls && Inserted(s.calls[c])
    ensures c in Apply(s, e).calls
    ensures Inserted(Apply(s, e).calls[c]) && Apply(s, e).calls[c].job == s.calls[c].job
    ensures Appended(s.calls[c]) ==>
              Appended(Apply(s, e).calls[c]) && Apply(s, e).calls[c].phase.entry == s.calls[c].phase.entry
  {
  }

  lemma SourcedStep(s: State, e: Event)
    requires Ordered(s) && Committed(s.db) && Enabled(s, e) && s.cfg.hasStore
    ensures Sourced(Apply(s, e))
  {
    var s' := Apply(s, e);
    if !Writes(s, e) {
      QuietStep(s, e);
    }
    forall id | id in s'.db.rows ensures s'.db.rows[id].job.id == id && HasWriter(s', id) {
      if id in s.db.rows {
        var c :| Wrote(s, c, id);
        SourcesStay(s, e, c);
        assert Wrote(s', c, id);
      } else {
        assert Wrote(s', e.c, id);
      }
    }
    forall i | 0 <= i < |s'.redis.log| ensures HasSender(s', i) {
      if i < |s.redis.log| {
        assert HasSender(s, i);
        var c :| Sent(s, c, i);
        SourcesStay(s, e, c);
        assert Sent(s', c, i);
      } else {
        assert Sent(s', e.c, i);
      }
    }
  }

  lemma QuietBacked(s: State, e: Event)
    requires Ordered(s) && Committed(s.db) && Enabled(s, e) && !Writes(s, e)
    ensures Backed(Apply(s, e)) && AllApart(Apply(s, e))
  {
    var s' := Apply(s, e);
    QuietStep(s, e);
    forall c | c in s'.calls && Inserted(s'.calls[c])
      ensures c in s.calls && Inserted(s.calls[c]) && s.calls[c].job == s'.calls[c].job && RowBehind(s', s'.calls[c])
    {
      QuietCallStep(s, e, c);
      assert RowBehind(s, s.calls[c]);
    }
  }

  lemma InsertBacked(s: State, e: Event)
    requires Ordered(s) && Enabled(s, e) && e.Insert? && Writes(s, e) && s.cfg.hasStore
    ensures Backed(Apply(s, e)) && AllApart(Apply(s, e))
  {
    var s' := Apply(s, e);
    var call := s.calls[e.c];
    assert s' == s.(calls := s.calls[e.c := call.(phase := Ready)], db := Committing(s.db, call.job));
    forall c | c in s.calls && Inserted(s.calls[c])
      ensures Apart(call.job, s.calls[c].job) && Apart(s.calls[c].job, call.job) && RowBehind(s', s.calls[c])
    {
      assert RowBehind(s, s.calls[c]);
    }
  }

  lemma AppendBacked(s: State, e: Event)
    requires Ordered(s) && Enabled(s, e) && e.Append?
    ensures Backed(Apply(s, e)) && AllApart(Apply(s, e))
  {
    var s' := Apply(s, e);
    var call := s.calls[e.c];
    assert s'.calls == s.calls[e.c := call.(phase := Added(|s.redis.log|))];
    assert s'.redis.log == s.redis.log + [call.job];
    forall c | c in s.calls && Inserted(s.calls[c]) ensures RowBehind(s', s.calls[c]) {
      assert RowBehind(s, s.calls[c]);
    }
  }

  lemma {:induction false} AlwaysOrdered(cfg: Config, trace: seq<Event>)
    requires Run(cfg, trace) && cfg.hasStore
    ensures Ordered(After(cfg, trace)) && After(cfg, trace).cfg == cfg
  {
    if trace != [] {
      var before := trace[..|trace| - 1];
      var s := After(cfg, before);
      var e := trace[|trace| - 1];
      AlwaysOrdered(cfg, before);
      AlwaysCommitted(cfg, before);
      SourcedStep(s, e);
      if !Writes(s, e) {
        QuietBacked(s, e);
      } else if e.Insert? {
        InsertBacked(s, e);
      } else {
        AppendBacked(s, e);
      }
      KeepsConfig(s, e);
    }
  }

  /** Every job on the stream or in the dead-letter stream has its row. */
  lemma OutboxFirst(cfg: Config, trace: seq<Event>)
    requires Run(cfg, trace) && cfg.hasStore
    ensures var s := After(cfg, trace);
            && (forall i :: 0 <= i < |s.redis.log| ==>
                  s.redis.log[i].id in s.db.rows && s.db.rows[s.redis.log[i].id].job == s.redis.log[i])
            && (forall r :: 0 <= r < |s.redis.dlqLog| ==> s.redis.dlqLog[r].id in s.db.rows)
  {
    var s := After(cfg, trace);
    AlwaysOrdered(cfg, trace);
    forall i | 0 <= i < |s.redis.log|
      ensures s.redis.log[i].id in s.db.rows && s.db.rows[s.redis.log[i].id].job == s.redis.log[i]
    {
      assert HasSender(s, i);
      var c :| Sent(s, c, i);
      assert RowBehind(s, s.calls[c]);
    }
    forall r | 0 <= r < |s.redis.dlqLog| ensures s.redis.dlqLog[r].id in s.db.rows {
      var i := DeadLetterSource(cfg, trace, r);
    }
  }

  /** ... and the rows without an entry are exactly those of calls that stopped, or stand, between
      the commit and the XADD. */
  lemma OrphanRows(cfg: Config, trace: seq<Event>, id: string)
    requires Run(cfg, trace) && cfg.hasStore && id in After(cfg, trace).db.rows
    ensures var s := After(cfg, trace);
            (forall i :: 0 <= i < |s.redis.log| ==> s.redis.log[i].id != id) <==>
            (exists c :: c in s.calls && s.calls[c].phase == Ready && s.calls[c].job.id == id)
  {
    var s := After(cfg, trace);
    AlwaysOrdered(cfg, trace);
    assert HasWriter(s, id);
    var c :| Wrote(s, c, id);
    assert RowBehind(s, s.calls[c]);
    if s.calls[c].phase == Ready {
      forall i | 0 <= i < |s.redis.log| ensures s.redis.log[i].id != id {
        assert HasSender(s, i);
        var c' :| Sent(s, c', i);
        assert RowBehind(s, s.calls[c']);
      }
    } else {
      assert s.redis.log[s.calls[c].phase.entry].id == id;
    }
  }

  /** At most one call per job id, and at most one per idempotency key, ever reaches XADD. */
  lemma OneAppendPerKey(cfg: Config, trace: seq<Event>, c: nat, c': nat)
    requires Run(cfg, trace) && cfg.hasStore && c != c'
    requires c in After(cfg, trace).calls && Appended(After(cfg, trace).calls[c])
    requires c' in After(cfg, trace).calls && Appended(After(cfg, trace).calls[c'])
    ensures Apart(After(cfg, trace).calls[c].job, After(cfg, trace).calls[c'].job)
  {
    AlwaysOrdered(cfg, trace);
  }

  /** The same about the stream itself: no two entries share an id or a key. */
  lemma NoDuplicateEntries(cfg: Config, trace: seq<Event>, i: nat, j: nat)
    requires Run(cfg, trace) && cfg.hasStore && i != j
    requires i < |After(cfg, trace).redis.log| && j < |After(cfg, trace).redis.log|
    ensures Apart(After(cfg, trace).redis.log[i], After(cfg, trace).redis.log[j])
  {
    var s := After(cfg, trace);
    AlwaysOrdered(cfg, trace);
    assert HasSender(s, i) && HasSender(s, j);
    var c :| Sent(s, c, i);
    var c' :| Sent(s, c', j);
    assert RowBehind(s, s.calls[c]) && RowBehind(s, s.calls[c']);
  }

  // -- which calls go in ----------------------------------------------------------

  /** Another call has put a row with the id or the key of `job` into the outbox. */
  ghost predicate Rival(s: State, c: nat, job: Job) {
    && c in s.calls && (s.calls[c].phase == Ready || s.calls[c].phase.Added? || s.calls[c].phase.Done?)
    && (s.calls[c].job.id == job.id || (job.key.Some? && s.calls[c].job.key == job.key))
  }

  /** With a store, a call is refused at its insert if and only if the insert fails, a status update is
      open, the status cannot be bound, or another call of the run went in with the same id or key;
      otherwise it goes on. */
  lemma InsertRefusedIff(cfg: Config, trace: seq<Event>, c: nat, fails: bool)
    requires Run(cfg, trace) && cfg.hasStore && Enabled(After(cfg, trace), Insert(c, fails))
    ensures var s, phase := After(cfg, trace), Apply(After(cfg, trace), Insert(c, fails)).calls[c].phase;
            var job := s.calls[c].job;
            && (phase == Refused <==>
                  fails || s.db.open || !job.status.Member? || exists c' :: c' != c && Rival(s, c', job))
            && (phase != Refused ==> phase == Ready)
  {
    hide Apply;
    var s := After(cfg, trace);
    var job := s.calls[c].job;
    AlwaysOrdered(cfg, trace);
    InsertStep(s, c, fails);
    if c' :| c' != c && Rival(s, c', job) {
      assert RowBehind(s, s.calls[c']);
    }
    if id :| id in s.db.rows && (id == job.id || (job.key.Some? && s.db.rows[id].job.key == job.key)) {
      RivalOf(s, id, job);
    }
  }

  /** The same in terms of the rows. */
  lemma InsertStep(s: State, c: nat, fails: bool)
    requires Enabled(s, Insert(c, fails)) && s.cfg.hasStore
    ensures var phase, job := Apply(s, Insert(c, fails)).calls[c].phase, s.calls[c].job;
            && (phase == Refused <==>
                  || fails || s.db.open || !job.status.Member?
                  || exists id :: id in s.db.rows &&
                       (id == job.id || (job.key.Some? && s.db.rows[id].job.key == job.key)))
            && (phase != Refused ==> phase == Ready)
  {
  }

  lemma RivalOf(s: State, id: string, job: Job)
    requires Ordered(s) && id in s.db.rows && (id == job.id || (job.key.Some? && s.db.rows[id].job.key == job.key))
    ensures exists c :: Rival(s, c, job)
  {
    assert HasWriter(s, id);
    var c :| Wrote(s, c, id);
    assert RowBehind(s, s.calls[c]);
    assert Rival(s, c, job);
  }

  /** ... and at its lookup if and only if it was given a key and another call went in with it. */
  lemma LookupRefusedIff(cfg: Config, trace: seq<Event>, c: nat)
    requires Run(cfg, trace) && cfg.hasStore && Enabled(After(cfg, trace), Lookup(c))
    ensures var s, phase := After(cfg, trace), Apply(After(cfg, trace), Lookup(c)).calls[c].phase;
            var call := s.calls[c];
            && (phase == Refused <==>
                  call.lookup && call.job.key.Some? &&
                  exists c' :: c' in s.calls && Inserted(s.calls[c']) && s.calls[c'].job.key == call.job.key)
            && (phase != Refused ==> phase == Looked)
  {
    var s := After(cfg, trace);
    var job := s.calls[c].job;
    AlwaysOrdered(cfg, trace);
    if c' :| c' in s.calls && Inserted(s.calls[c']) && s.calls[c'].job.key == job.key {
      assert RowBehind(s, s.calls[c']);
    }
    if id :| id in s.db.rows && s.db.rows[id].job.key == job.key {
      assert HasWriter(s, id);
      var c' :| Wrote(s, c', id);
      assert RowBehind(s, s.calls[c']);
    }
  }

  predicate WritesStatus(e: Event) {
    (e.Begin? && e.written) || (e.Settle? && e.written)
  }

  /** The n-th step wrote a status, and the connection has not been lost since. */
  ghost predicate OpenedAt(trace: seq<Event>, n: nat) {
    n < |trace| && WritesStatus(trace[n]) && forall k :: n < k < |trace| ==> !trace[k].Rollback?
  }

  /** A transaction is open if and only if a status has been written since the connection was last lost,
      however long ago. */
  lemma {:induction false} OpenIff(cfg: Config, trace: seq<Event>)
    requires Run(cfg, trace)
    ensures After(cfg, trace).cfg == cfg
    ensures After(cfg, trace).db.open <==> cfg.hasStore && exists n :: OpenedAt(trace, n)
  {
    hide Apply, Enabled, OpenedAt;
    if trace == [] {
      forall n: nat {
        OpenedWithin(trace, n);
      }
    } else {
      var before, e := trace[..|trace| - 1], trace[|trace| - 1];
      OpenIff(cfg, before);
      KeepsConfig(After(cfg, before), e);
      OpenStep(After(cfg, before), e);
      assert trace == before + [e];
      forall n: nat
        ensures OpenedAt(trace, n) <==>
                if n == |before| then WritesStatus(e) else OpenedAt(before, n) && !e.Rollback?
      {
        OpenedStill(before, e, n);
      }
      assert OpenedAt(trace, |before|) == WritesStatus(e);
      if n: nat :| OpenedAt(before, n) {
        OpenedWithin(before, n);
        assert OpenedAt(trace, n) == !e.Rollback?;
      }
    }
  }

  lemma OpenedWithin(trace: seq<Event>, n: nat)
    ensures OpenedAt(trace, n) ==> n < |trace|
  {
  }

  lemma OpenedStill(before: seq<Event>, e: Event, n: nat)
    ensures OpenedAt(before + [e], n) <==>
            if n == |before| then WritesStatus(e) else OpenedAt(before, n) && !e.Rollback?
  {
    assert (before + [e])[|before|] == e;
    assert forall k :: 0 <= k < |before| ==> (before + [e])[k] == before[k];
  }

  lemma OpenStep(s: State, e: Event)
    requires Enabled(s, e)
    ensures Apply(s, e).db.open <==> (s.cfg.hasStore && WritesStatus(e)) || (s.db.open && !e.Rollback?)
  {
  }

  // -- losing calls -------------------------------------------------------------

  predicate ByCall(e: Event, c: nat) {
    match e
    case CheckDepth(c', _, _, _) => c' == c
    case Lookup(c') => c' == c
    case Insert(c', _) => c' == c
    case Append(c', _) => c' == c
    case DropRecord(c') => c' == c
    case HaltCall(c') => c' == c
    case _ => false
  }

  lemma CallWriteInserts(s: State, e: Event, c: nat)
    requires Enabled(s, e) && ByCall(e, c)
    ensures c in Apply(s, e).calls
    ensures (Apply(s, e).redis == s.redis && Apply(s, e).db.rows == s.db.rows) || Inserted(Apply(s, e).calls[c])
  {
  }

  lemma InsertedStep(s: State, e: Event, c: nat)
    requires Enabled(s, e) && c in s.calls && Inserted(s.calls[c])
    ensures c in Apply(s, e).calls && Inserted(Apply(s, e).calls[c])
  {
  }

  lemma {:induction false} InsertedStays(cfg: Config, trace: seq<Event>, n: nat, c: nat)
    requires Run(cfg, trace) && n <= |trace|
    requires c in At(cfg, trace, n).calls && Inserted(At(cfg, trace, n).calls[c])
    ensures c in After(cfg, trace).calls && Inserted(After(cfg, trace).calls[c])
    decreases |trace| - n
  {
    if n == |trace| {
      assert trace[..n] == trace;
    } else {
      AtStep(cfg, trace, n);
      InsertedStep(At(cfg, trace, n), trace[n], c);
      InsertedStays(cfg, trace, n + 1, c);
    }
  }

  /** A call that is refused (queue full, key conflict, failed insert) changes nothing at any of its
      steps. */
  lemma LosersTouchNothing(cfg: Config, trace: seq<Event>, n: nat, c: nat)
    requires Run(cfg, trace) && n < |trace| && ByCall(trace[n], c)
    requires c in After(cfg, trace).calls && After(cfg, trace).calls[c].phase == Refused
    ensures At(cfg, trace, n + 1).redis == At(cfg, trace, n).redis
    ensures At(cfg, trace, n + 1).db.rows == At(cfg, trace, n).db.rows
  {
    AtStep(cfg, trace, n);
    CallWriteInserts(At(cfg, trace, n), trace[n], c);
    if Inserted(At(cfg, trace, n + 1).calls[c]) {
      InsertedStays(cfg, trace, n + 1, c);
    }
  }

  // -- replays with a store --------------------------------------------------------

  lemma NewlyInserted(s: State, e: Event, c: nat)
    requires Enabled(s, e) && c in Apply(s, e).calls && Inserted(Apply(s, e).calls[c])
    requires c in s.calls ==> !Inserted(s.calls[c])
    ensures c in s.calls && (s.cfg.hasStore ==> Accepts(s.db, s.calls[c].job))
  {
  }

  /** A dead letter's row is still there, so with a store the PRIMARY KEY refuses every replay: none ever
      gets past its insert, whatever status it is given. */
  lemma {:induction false} ReplayNeverInserted(cfg: Config, trace: seq<Event>, c: nat)
    requires Run(cfg, trace) && cfg.hasStore
    requires c in After(cfg, trace).calls && After(cfg, trace).calls[c].replayOf.Some?
    ensures !Inserted(After(cfg, trace).calls[c])
  {
    var before := trace[..|trace| - 1];
    var s, e := After(cfg, before), trace[|trace| - 1];
    if c in s.calls {
      CallKept(s, e, c);
      ReplayNeverInserted(cfg, before, c);
    }
    if Inserted(After(cfg, trace).calls[c]) {
      NewlyInserted(s, e, c);
      AlwaysSound(cfg, before);
      AlwaysOrdered(cfg, before);
      OutboxFirst(cfg, before);
      assert false;
    }
  }

  // -- without a store ----------------------------------------------------------

  /** A call without a key, past its insert: nothing has stopped it. */
  lemma Submit(cfg: Config, trace: seq<Event>, c: nat, job: Job) returns (more: seq<Event>)
    requires Run(cfg, trace) && After(cfg, trace).cfg == cfg && !cfg.hasStore
    requires c !in After(cfg, trace).calls && Length(After(cfg, trace).redis) < cfg.maxDepth
    ensures Run(cfg, more)
    ensures var s := After(cfg, trace);
            After(cfg, more) == s.(calls := s.calls[c := Call(job, false, None, Ready, false)])
  {
    var steps := [CheckDepth(c, job, None, None), Lookup(c), Insert(c, false)];
    more := trace;
    for i := 0 to 3
      invariant Run(cfg, more)
      invariant var s := After(cfg, trace);
                After(cfg, more) ==
                  if i == 0 then s
                  else s.(calls := s.calls[c := Call(job, false, None, [Checked, Looked, Ready][i - 1], false)])
    {
      Extend(cfg, more, steps[i]);
      more := more + [steps[i]];
    }
  }

  /** Any two jobs can both be appended, whatever their ids and keys. */
  lemma BothAppended(cfg: Config, a: Job, b: Job) returns (trace: seq<Event>)
    requires !cfg.hasStore && cfg.maxDepth >= 1 && a.status.Member? && b.status.Member?
    ensures Run(cfg, trace) && After(cfg, trace).redis.log == [a, b]
  {
    trace := Submit(cfg, [], 0, a);
    trace := Submit(cfg, trace, 1, b);
    Extend(cfg, trace, Append(0, 0));
    trace := trace + [Append(0, 0)];
    Extend(cfg, trace, Append(1, 0));
    trace := trace + [Append(1, 0)];
  }

  /** In no run do two entries share an id or a key. */
  ghost predicate KeysEnforced(cfg: Config) {
    forall trace: seq<Event>, i: nat, j: nat ::
      Run(cfg, trace) && i < |After(cfg, trace).redis.log| && j < |After(cfg, trace).redis.log| && i != j ==>
        Apart(After(cfg, trace).redis.log[i], After(cfg, trace).redis.log[j])
  }

  /** Idempotency keys are enforced if and only if a store is configured, or nothing is let in. */
  lemma KeysEnforcedIffStore(cfg: Config)
    ensures KeysEnforced(cfg) <==> cfg.hasStore || cfg.maxDepth == 0
  {
    if cfg.hasStore || cfg.maxDepth == 0 {
      forall trace: seq<Event>, i: nat, j: nat |
        Run(cfg, trace) && i < |After(cfg, trace).redis.log| && j < |After(cfg, trace).redis.log| && i != j
        ensures Apart(After(cfg, trace).redis.log[i], After(cfg, trace).redis.log[j])
      {
        if cfg.hasStore {
          NoDuplicateEntries(cfg, trace, i, j);
        } else {
          Capacity.ClosedQueue(cfg, trace);
          assert false;
        }
      }
    } else {
      var a := Job("a", "kind", "", Member(Pending), 0, 0, 3, Some("key"), "default");
      var trace := BothAppended(cfg, a, a.(id := "b"));
      assert !Apart(After(cfg, trace).redis.log[0], After(cfg, trace).redis.log[1]);
    }
  }

  // -- what is committed ----------------------------------------------------------

  /** A row as it was inserted. */
  predicate AsInserted(row: Row) {
    row.job.status == Member(row.status) && row.attempts == row.job.attempts
  }

  /** The committed table holds the same jobs, each as it was inserted; and the two tables differ only
      while a transaction is open. */
  ghost predicate Committed(db: Database) {
    && db.durable.Keys == db.rows.Keys
    && (forall id :: id in db.durable ==> AsInserted(db.durable[id]) && db.durable[id].job == db.rows[id].job)
    && (!db.open ==> db.rows == db.durable)
  }

  lemma CommittedStep(s: State, e: Event)
    requires Committed(s.db) && Enabled(s, e)
    ensures Committed(Apply(s, e).db)
  {
    match e
    case Insert(c, fails) =>
    case Begin(d, entry, written) =>
    case Settle(d, written) =>
    case Rollback =>
    case _ => assert Apply(s, e).db == s.db;
  }

  lemma {:induction false} AlwaysCommitted(cfg: Config, trace: seq<Event>)
    requires Run(cfg, trace)
    ensures Committed(After(cfg, trace).db)
  {
    if trace != [] {
      var before := trace[..|trace| - 1];
      AlwaysCommitted(cfg, before);
      CommittedStep(After(cfg, before), trace[|trace| - 1]);
    }
  }

  /** Losing the connection loses every status written in the run, however long ago, and no row. */
  lemma UpdatesDoNotSurvive(cfg: Config, trace: seq<Event>, id: string)
    requires Run(cfg, trace) && id in After(cfg, trace).db.rows
    ensures var left := Apply(After(cfg, trace), Rollback).db.rows;
            id in left && AsInserted(left[id]) && left[id].job == After(cfg, trace).db.rows[id].job
  {
    AlwaysCommitted(cfg, trace);
  }

  /** From the first status update until the connection is lost, every insert is refused: nothing
      else ends the transaction the update opened. */
  lemma {:induction false} OpenUpdateBlocksInserts(cfg: Config, trace: seq<Event>, n: nat)
    requires Run(cfg, trace) && n <= |trace| && At(cfg, trace, n).db.open && cfg.hasStore
    requires forall k :: n <= k < |trace| ==> !trace[k].Rollback?
    ensures After(cfg, trace).db.open && After(cfg, trace).db.durable == At(cfg, trace, n).db.durable
    decreases |trace| - n
  {
    if n == |trace| {
      assert trace[..n] == trace;
    } else {
      AtStep(cfg, trace, n);
      PrefixRuns(cfg, trace, n);
      AlwaysOrdered(cfg, trace[..n]);
      OpenUpdateBlocksInserts(cfg, trace, n + 1);
    }
  }

  // -- truthful statuses --------------------------------------------------------

  /** Delivery `d` of job `id` failed with its retry budget spent. */
  ghost predicate GaveUp(s: State, d: nat, id: string) {
    && d in s.work
    && s.work[d].job.id == id
    && s.work[d].entry < |s.redis.log|
    && s.work[d].job == s.redis.log[s.work[d].entry].(attempts := s.redis.log[s.work[d].entry].attempts + 1)
    && ShouldDlq(s.work[d].job)
  }

  ghost predicate Ran(s: State, k: nat, id: string) {
    k in s.okEntries && k < |s.redis.log| && s.redis.log[k].id == id
  }

  /** A status other than the one the row was inserted with tells the truth. */
  ghost predicate RowTrue(s: State, id: string, row: Row) {
    && (row.status == Completed && row.job.status != Member(Completed) ==> exists k :: Ran(s, k, id))
    && (row.status == Dead && row.job.status != Member(Dead) ==> exists d :: GaveUp(s, d, id))
  }

  ghost predicate Truthful(s: State) {
    forall id :: id in s.db.rows ==> RowTrue(s, id, s.db.rows[id])
  }

  /** What has happened stays happened. */
  lemma EvidenceStays(s: State, e: Event, k: nat, id: string)
    requires Sound(s) && Enabled(s, e)
    ensures Ran(s, k, id) ==> Ran(Apply(s, e), k, id)
    ensures GaveUp(s, k, id) ==> GaveUp(Apply(s, e), k, id)
  {
    RedisStep(s, e);
    if GaveUp(s, k, id) {
      assert DeliveryOk(s, s.work[k]);
      assert Apply(s, e).redis.log[s.work[k].entry] == s.redis.log[s.work[k].entry];
    }
  }

  lemma RowStaysTrue(s: State, e: Event, id: string, row: Row)
    requires Sound(s) && Enabled(s, e) && RowTrue(s, id, row)
    ensures RowTrue(Apply(s, e), id, row)
  {
    forall k: nat {
      EvidenceStays(s, e, k, id);
    }
    if k :| Ran(s, k, id) {
      assert Ran(Apply(s, e), k, id);
    }
    if d :| GaveUp(s, d, id) {
      assert GaveUp(Apply(s, e), d, id);
    }
  }

  /** How a step can change a row. */
  lemma RowStep(s: State, e: Event, id: string)
    requires Committed(s.db) && Enabled(s, e) && id in Apply(s, e).db.rows
    ensures var row := Apply(s, e).db.rows[id];
            || (id in s.db.rows && row == s.db.rows[id])
            || row.job.status == Member(row.status)
            || row.status == Processing
            || (e.Settle? && s.work[e.d].job.id == id && row.status == FinalStatus(s.work[e.d].pc))
  {
  }

  /** What the last update of a delivery writes: COMPLETED and DEAD leave the attempts column as it was,
      FAILED sets it to the delivery's count, and no other row changes. */
  lemma SettleWrites(s: State, d: nat)
    requires Enabled(s, Settle(d, true)) && s.cfg.hasStore
    ensures var rows, w := Apply(s, Settle(d, true)).db.rows, s.work[d];
            && rows.Keys == s.db.rows.Keys
            && (forall id :: id in rows && id != w.job.id ==> rows[id] == s.db.rows[id])
            && (w.job.id in rows ==>
                  && rows[w.job.id].job == s.db.rows[w.job.id].job
                  && rows[w.job.id].status ==
                       (match w.pc case AckTried => Completed case DlqTried => Dead case _ => Failed)
                  && rows[w.job.id].attempts ==
                       if w.pc == Retrying then w.job.attempts else s.db.rows[w.job.id].attempts)
  {
  }

  lemma TruthfulStep(s: State, e: Event)
    requires Sound(s) && Truthful(s) && Committed(s.db) && Enabled(s, e)
    ensures Truthful(Apply(s, e))
  {
    var s' := Apply(s, e);
    forall id | id in s'.db.rows ensures RowTrue(s', id, s'.db.rows[id]) {
      RowStep(s, e, id);
      if id in s.db.rows && s'.db.rows[id] == s.db.rows[id] {
        RowStaysTrue(s, e, id, s.db.rows[id]);
      } else if e.Settle? {
        assert DeliveryOk(s, s.work[e.d]);
        if s.work[e.d].pc == AckTried {
          assert Ran(s', s.work[e.d].entry, id);
        } else if s.work[e.d].pc == DlqTried {
          assert GaveUp(s', e.d, id);
        }
      }
    }
  }

  lemma {:induction false} AlwaysTruthful(cfg: Config, trace: seq<Event>)
    requires Run(cfg, trace)
    ensures Truthful(After(cfg, trace))
  {
    if trace != [] {
      var before := trace[..|trace| - 1];
      AlwaysTruthful(cfg, before);
      AlwaysSound(cfg, before);
      AlwaysCommitted(cfg, before);
      TruthfulStep(After(cfg, before), trace[|trace| - 1]);
    }
  }

  /** A row that became COMPLETED belongs to a job whose handler returned normally in this run. */
  lemma CompletedIsTrue(cfg: Config, trace: seq<Event>, id: string)
    requires Run(cfg, trace) && id in After(cfg, trace).db.rows
    requires After(cfg, trace).db.rows[id].status == Completed
    requires After(cfg, trace).db.rows[id].job.status != Member(Completed)
    ensures exists n, d: nat :: 0 <= n < |trace| && trace[n] == Return(d)
              && d in After(cfg, trace).work && After(cfg, trace).work[d].job.id == id
  {
    AlwaysTruthful(cfg, trace);
    AlwaysSound(cfg, trace);
    var s := After(cfg, trace);
    var k :| Ran(s, k, id);
    var n, d := OkEntryReturned(cfg, trace, k);
    assert DeliveryOk(s, s.work[d]);
  }

  /** A row that became DEAD belongs to a job some delivery of which failed with attempts above
      max_retries; and although the dead-letter write may have failed, the job is not lost. */
  lemma DeadIsTrue(cfg: Config, trace: seq<Event>, id: string) returns (d: nat)
    requires Run(cfg, trace) && id in After(cfg, trace).db.rows
    requires After(cfg, trace).db.rows[id].status == Dead
    requires After(cfg, trace).db.rows[id].job.status != Member(Dead)
    ensures GaveUp(After(cfg, trace), d, id)
    ensures After(cfg, trace).redis.trimmed == 0 ==> NotLost(After(cfg, trace), After(cfg, trace).work[d].job)
  {
    AlwaysTruthful(cfg, trace);
    AlwaysSound(cfg, trace);
    var s := After(cfg, trace);
    d :| GaveUp(s, d, id);
    if s.redis.trimmed == 0 {
      NoJobLost(cfg, trace, s.work[d].entry);
      var t :| Stands(s, t, s.redis.log[s.work[d].entry]);
      assert Stands(s, t, s.work[d].job);
    }
  }

  // -- which entries can be dead-lettered ----------------------------------------

  /** A dead-letter record is a copy of an entry whose stored budget was already spent: the stream
      body is never rewritten, so redelivery starts from the same count every time. */
  lemma {:induction false} DeadLetterSource(cfg: Config, trace: seq<Event>, r: nat) returns (i: nat)
    requires Run(cfg, trace) && r < |After(cfg, trace).redis.dlqLog|
    ensures i < |After(cfg, trace).redis.log|
    ensures var s := After(cfg, trace);
            && s.redis.dlqLog[r] == s.redis.log[i].(attempts := s.redis.log[i].attempts + 1)
            && s.redis.log[i].attempts >= s.redis.log[i].maxRetries
  {
    var before := trace[..|trace| - 1];
    var s := After(cfg, before);
    var e := trace[|trace| - 1];
    AlwaysSound(cfg, before);
    RedisStep(s, e);
    if r < |s.redis.dlqLog| {
      i := DeadLetterSource(cfg, before, r);
    } else {
      ParkAppends(s, e);
      assert DeliveryOk(s, s.work[e.d]);
      i := s.work[e.d].entry;
    }
  }

  lemma ParkAppends(s: State, e: Event)
    requires Enabled(s, e) && Apply(s, e).redis.dlqLog != s.redis.dlqLog
    ensures e.Park? && e.applied && Apply(s, e).redis.dlqLog == s.redis.dlqLog + [s.work[e.d].job]
  {
  }

  /** A failing delivery takes the dead-letter branch if and only if its entry was enqueued with
      attempts >= max_retries, however often the entry has been delivered before. */
  lemma DlqDecisionIsFixed(cfg: Config, trace: seq<Event>, d: nat)
    requires Run(cfg, trace) && Enabled(After(cfg, trace), Fail(d))
    ensures After(cfg, trace).work[d].entry < |After(cfg, trace).redis.log|
    ensures var s := After(cfg, trace);
            var job := s.redis.log[s.work[d].entry];
            && (Apply(s, Fail(d)).work[d].pc == Exhausted <==> job.attempts >= job.maxRetries)
            && (Apply(s, Fail(d)).work[d].pc == Retrying <==> job.attempts < job.maxRetries)
  {
    AlwaysSound(cfg, trace);
    assert DeliveryOk(After(cfg, trace), After(cfg, trace).work[d]);
  }

  /** So jobs enqueued with budget left never reach the dead-letter stream by redelivery. */
  lemma BudgetLeftNeverDeadLettered(cfg: Config, trace: seq<Event>)
    requires Run(cfg, trace)
    requires forall i :: 0 <= i < |After(cfg, trace).redis.log| ==>
               After(cfg, trace).redis.log[i].attempts < After(cfg, trace).redis.log[i].maxRetries
    ensures After(cfg, trace).redis.dlqLog == []
  {
    if After(cfg, trace).redis.dlqLog != [] {
      var i := DeadLetterSource(cfg, trace, 0);
      assert false;
    }
  }
}
