/** The delivery protocol as a state machine.  Producers, workers, lease recovery and replay
    interleave at every await; a crash or a cancellation halts a call or a delivery anywhere. */
module Protocol {
  import opened Outcomes
  import opened Jobs
  import opened Redis

  /** Head room that enqueueing adds to the depth limit when it caps the stream. */
  const SLACK: nat := 1000

  datatype Config = Config(maxDepth: nat, hasStore: bool)

  /** An outbox row: the job as inserted, and the columns that later updates overwrite. */
  datatype Row = Row(job: Job, status: JobStatus, attempts: int)

  /** Where an enqueue call stands.  `Refused` is a call that raised before writing anything. */
  datatype Phase = Checked | Looked | Ready | Added(entry: nat) | Done(entry: nat) | Refused

  /** An enqueue call; `replayOf` is the dead-letter record a replay is re-enqueueing. */
  datatype Call = Call(job: Job, lookup: bool, replayOf: Option<nat>, phase: Phase, halted: bool)

  /** Where one execution of an entry stands. */
  datatype Pc = Started | Returned | AckTried | Exhausted | DlqWritten | DlqTried | Retrying | Finished

  datatype Delivery = Delivery(entry: nat, job: Job, pc: Pc, halted: bool)

  /** The outbox: `rows` as the writing connection sees them, `durable` what has been committed.  `open`
      says that a status update has begun a transaction, which nothing commits; SQLite has one writer
      at a time, so there is at most one. */
  datatype Database = Database(rows: map<string, Row>, durable: map<string, Row>, open: bool)

  /** The shared state.  The last three fields are history: entries whose handler returned
      normally, entries copied to the dead-letter stream, and records whose replay was appended. */
  datatype State = State(
    cfg: Config,
    redis: Broker,
    db: Database,
    calls: map<nat, Call>,
    work: map<nat, Delivery>,
    okEntries: set<nat>,
    parked: set<nat>,
    replayed: set<nat>)

  function Initial(cfg: Config): State {
    State(cfg, EMPTY, Database(map[], map[], false), map[], map[], {}, {}, {})
  }

  datatype Event =
    | CheckDepth(c: nat, job: Job, key: Option<string>, replayOf: Option<nat>)
    | Lookup(c: nat)
    | Insert(c: nat, fails: bool)
    | Append(c: nat, trim: nat)
    | DropRecord(c: nat)
    | HaltCall(c: nat)
    | CreateGroup
    | Read(worker: string, count: nat, now: int)
    | Claim(worker: string, ids: set<nat>, now: int)
    | Begin(d: nat, entry: nat, written: bool)
    | Return(d: nat)
    | Fail(d: nat)
    | Ack(d: nat, applied: bool)
    | Park(d: nat, applied: bool, seen: bool)
    | Settle(d: nat, written: bool)
    | HaltDelivery(d: nat)
    | Rollback

  // -- the outbox -------------------------------------------------------------

  predicate KeyTaken(rows: map<string, Row>, key: string) {
    exists id :: id in rows && rows[id].job.key == Some(key)
  }

  /** The PRIMARY KEY and the partial UNIQUE index; a status that is not a member has no value to bind. */
  predicate Insertable(rows: map<string, Row>, job: Job) {
    && job.status.Member?
    && job.id !in rows
    && (job.key.Some? ==> !KeyTaken(rows, job.key.value))
  }

  function WithRow(rows: map<string, Row>, job: Job): map<string, Row>
    requires job.status.Member?
  {
    rows[job.id := Row(job, job.status.status, job.attempts)]
  }

  function WithStatus(rows: map<string, Row>, id: string, status: JobStatus, attempts: Option<int>): map<string, Row> {
    if id !in rows then
      rows
    else if attempts.Some? then
      rows[id := rows[id].(status := status, attempts := attempts.value)]
    else
      rows[id := rows[id].(status := status)]
  }

  // -- steps ------------------------------------------------------------------

  /** An empty key counts as no key. */
  predicate Given(key: Option<string>) {
    key.Some? && key.value != ""
  }

  function Keyed(job: Job, key: Option<string>): Job {
    if Given(key) then job.(key := key) else job
  }

  /** The same work to do: all but the status and the count. */
  predicate SameWork(a: Job, b: Job) {
    a == b.(status := a.status, attempts := a.attempts)
  }

  predicate InPhase(s: State, c: nat, phase: Phase) {
    c in s.calls && !s.calls[c].halted && s.calls[c].phase == phase
  }

  predicate AtPc(s: State, d: nat, pc: Pc) {
    d in s.work && !s.work[d].halted && s.work[d].pc == pc
  }

  function AtPhase(s: State, c: nat, phase: Phase): State
    requires c in s.calls
  {
    s.(calls := s.calls[c := s.calls[c].(phase := phase)])
  }

  function Moved(s: State, d: nat, pc: Pc): State
    requires d in s.work
  {
    s.(work := s.work[d := s.work[d].(pc := pc)])
  }

  predicate Enabled(s: State, e: Event) {
    match e
    case CheckDepth(c, job, key, replayOf) =>
      && c !in s.calls
      && (replayOf.Some? ==>
            replayOf.value < |s.redis.dlqLog| && SameWork(Keyed(job, key), s.redis.dlqLog[replayOf.value]))
    case Lookup(c) => InPhase(s, c, Checked)
    case Insert(c, fails) => InPhase(s, c, Looked)
    case Append(c, trim) =>
      && InPhase(s, c, Ready)
      && s.calls[c].job.status.Member?
      && TrimAllowed(s.redis, s.cfg.maxDepth + SLACK, trim)
    case DropRecord(c) =>
      c in s.calls && !s.calls[c].halted && s.calls[c].phase.Added? && s.calls[c].replayOf.Some?
    case HaltCall(c) => c in s.calls && !s.calls[c].halted && !s.calls[c].phase.Refused?
    case CreateGroup => true
    case Read(worker, count, now) => s.redis.hasGroup
    case Claim(worker, ids, now) => ids <= s.redis.pending.Keys
    case Begin(d, entry, written) =>
      d !in s.work && entry in s.redis.pending.Keys + s.redis.acked && entry < |s.redis.log|
    case Return(d) => AtPc(s, d, Started)
    case Fail(d) => AtPc(s, d, Started)
    case Ack(d, applied) => AtPc(s, d, Returned) || AtPc(s, d, DlqWritten)
    case Park(d, applied, seen) => AtPc(s, d, Exhausted) && (seen ==> applied)
    case Settle(d, written) => AtPc(s, d, AckTried) || AtPc(s, d, DlqTried) || AtPc(s, d, Retrying)
    case HaltDelivery(d) => d in s.work && !s.work[d].halted
    case Rollback => true
  }

  function Checking(s: State, c: nat, job: Job, key: Option<string>, replayOf: Option<nat>): State {
    var phase := if Length(s.redis) >= s.cfg.maxDepth then Refused else Checked;
    s.(calls := s.calls[c := Call(Keyed(job, key), Given(key), replayOf, phase, false)])
  }

  function LookingUp(s: State, c: nat): State
    requires InPhase(s, c, Checked)
  {
    var call := s.calls[c];
    if call.lookup && s.cfg.hasStore && call.job.key.Some? && KeyTaken(s.db.rows, call.job.key.value) then
      AtPhase(s, c, Refused)
    else
      AtPhase(s, c, Looked)
  }

  /** BEGIN IMMEDIATE is refused while another transaction is open. */
  predicate Accepts(db: Database, job: Job) {
    !db.open && Insertable(db.rows, job)
  }

  /** COMMIT makes durable whatever the connection sees. */
  function Committing(db: Database, job: Job): Database
    requires job.status.Member?
  {
    Database(WithRow(db.rows, job), WithRow(db.rows, job), false)
  }

  /** An UPDATE opens a transaction, whether or not it finds its row. */
  function Updating(db: Database, id: string, status: JobStatus, attempts: Option<int>): Database {
    db.(rows := WithStatus(db.rows, id, status, attempts), open := true)
  }

  function Reverting(db: Database): Database {
    Database(db.durable, db.durable, false)
  }

  function Inserting(s: State, c: nat, fails: bool): State
    requires InPhase(s, c, Looked)
  {
    if !s.cfg.hasStore then
      AtPhase(s, c, Ready)
    else if fails || !Accepts(s.db, s.calls[c].job) then
      AtPhase(s, c, Refused)
    else
      AtPhase(s, c, Ready).(db := Committing(s.db, s.calls[c].job))
  }

  function Appending(s: State, c: nat, trim: nat): State
    requires InPhase(s, c, Ready)
  {
    var call := s.calls[c];
    AtPhase(s, c, Added(|s.redis.log|)).(
      redis := XAdd(s.redis, call.job, trim),
      replayed := if call.replayOf.Some? then s.replayed + {call.replayOf.value} else s.replayed)
  }

  function Beginning(s: State, d: nat, entry: nat, written: bool): State
    requires entry < |s.redis.log|
  {
    var job := s.redis.log[entry];
    s.(work := s.work[d := Delivery(entry, job, Started, false)],
       db := if s.cfg.hasStore && written then Updating(s.db, job.id, Processing, Some(job.attempts)) else s.db)
  }

  function Failing(s: State, d: nat): State
    requires d in s.work
  {
    var job := s.work[d].job.(attempts := s.work[d].job.attempts + 1);
    s.(work := s.work[d := s.work[d].(job := job, pc := if ShouldDlq(job) then Exhausted else Retrying)])
  }

  function Acking(s: State, d: nat, applied: bool): State
    requires d in s.work
  {
    Moved(s, d, if s.work[d].pc == Returned then AckTried else DlqTried).(
      redis := if applied then XAck(s.redis, s.work[d].entry) else s.redis)
  }

  function Parking(s: State, d: nat, applied: bool, seen: bool): State
    requires d in s.work
  {
    Moved(s, d, if seen then DlqWritten else DlqTried).(
      redis := if applied then XAddDlq(s.redis, s.work[d].job) else s.redis,
      parked := if applied then s.parked + {s.work[d].entry} else s.parked)
  }

  function FinalStatus(pc: Pc): JobStatus {
    if pc == AckTried then Completed else if pc == DlqTried then Dead else Failed
  }

  function Settling(s: State, d: nat, written: bool): State
    requires d in s.work
  {
    var del := s.work[d];
    var attempts := if del.pc == Retrying then Some(del.job.attempts) else None;
    Moved(s, d, Finished).(
      db := if s.cfg.hasStore && written then Updating(s.db, del.job.id, FinalStatus(del.pc), attempts) else s.db)
  }

  function Apply(s: State, e: Event): State
    requires Enabled(s, e)
  {
    match e
    case CheckDepth(c, job, key, replayOf) => Checking(s, c, job, key, replayOf)
    case Lookup(c) => LookingUp(s, c)
    case Insert(c, fails) => Inserting(s, c, fails)
    case Append(c, trim) => Appending(s, c, trim)
    case DropRecord(c) =>
      AtPhase(s, c, Done(s.calls[c].phase.entry)).(redis := XDelDlq(s.redis, s.calls[c].replayOf.value))
    case HaltCall(c) => s.(calls := s.calls[c := s.calls[c].(halted := true)])
    case CreateGroup => s.(redis := EnsureGroup(s.redis))
    case Read(worker, count, now) => s.(redis := XReadGroup(s.redis, worker, count, now))
    case Claim(worker, ids, now) => s.(redis := XAutoclaim(s.redis, worker, ids, now))
    case Begin(d, entry, written) => Beginning(s, d, entry, written)
    case Return(d) => Moved(s, d, Returned).(okEntries := s.okEntries + {s.work[d].entry})
    case Fail(d) => Failing(s, d)
    case Ack(d, applied) => Acking(s, d, applied)
    case Park(d, applied, seen) => Parking(s, d, applied, seen)
    case Settle(d, written) => Settling(s, d, written)
    case HaltDelivery(d) => s.(work := s.work[d := s.work[d].(halted := true)])
    case Rollback => s.(db := Reverting(s.db))
  }

  lemma KeepsConfig(s: State, e: Event)
    requires Enabled(s, e)
    ensures Apply(s, e).cfg == s.cfg
  {
  }

  // -- runs -------------------------------------------------------------------

  ghost predicate Run(cfg: Config, trace: seq<Event>)
    decreases |trace|, 0
  {
    trace == [] ||
    (Run(cfg, trace[..|trace| - 1]) && Enabled(After(cfg, trace[..|trace| - 1]), trace[|trace| - 1]))
  }

  /** The state a run has reached. */
  ghost function After(cfg: Config, trace: seq<Event>): State
    requires Run(cfg, trace)
    decreases |trace|, 1
  {
    if trace == [] then
      Initial(cfg)
    else
      Apply(After(cfg, trace[..|trace| - 1]), trace[|trace| - 1])
  }

  lemma Extend(cfg: Config, trace: seq<Event>, e: Event)
    requires Run(cfg, trace) && Enabled(After(cfg, trace), e)
    ensures Run(cfg, trace + [e])
    ensures After(cfg, trace + [e]) == Apply(After(cfg, trace), e)
  {
  }

  lemma {:induction false} PrefixRuns(cfg: Config, trace: seq<Event>, n: nat)
    requires Run(cfg, trace) && n <= |trace|
    ensures Run(cfg, trace[..n])
  {
    if n == |trace| {
      assert trace[..n] == trace;
    } else {
      PrefixRuns(cfg, trace[..|trace| - 1], n);
      assert trace[..|trace| - 1][..n] == trace[..n];
    }
  }

  /** The state in which the n-th event of a run fires. */
  ghost function At(cfg: Config, trace: seq<Event>, n: nat): State
    requires Run(cfg, trace) && n <= |trace|
  {
    PrefixRuns(cfg, trace, n);
    After(cfg, trace[..n])
  }

  lemma AtStep(cfg: Config, trace: seq<Event>, n: nat)
    requires Run(cfg, trace) && n < |trace|
    ensures Enabled(At(cfg, trace, n), trace[n])
    ensures At(cfg, trace, n + 1) == Apply(At(cfg, trace, n), trace[n])
  {
    PrefixRuns(cfg, trace, n + 1);
    assert trace[..n + 1][..n] == trace[..n];
  }
}
