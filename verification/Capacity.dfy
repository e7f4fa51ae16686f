/** How far the stream can outgrow its depth limit, and exactly when MAXLEN can evict a live job. */
module Capacity {
  import opened Outcomes
  import opened Jobs
  import opened Redis
  import opened Protocol
  import opened NoLoss

  predicate PastCheck(call: Call) {
    !call.halted && call.phase in {Checked, Looked, Ready}
  }

  /** The calls between their depth check and their XADD. */
  function Crowd(s: State): set<nat> {
    set c | c in s.calls && PastCheck(s.calls[c])
  }

  /** At no point of the run are more than `limit` calls in that window. */
  ghost predicate CrowdAtMost(cfg: Config, trace: seq<Event>, limit: nat)
    requires Run(cfg, trace)
    decreases |trace|
  {
    && |Crowd(After(cfg, trace))| <= limit
    && (trace != [] ==> CrowdAtMost(cfg, trace[..|trace| - 1], limit))
  }

  /** A step either admits one call below the depth limit, or turns a call of the crowd into an
      entry, or adds nothing. */
  lemma CrowdStep(s: State, e: Event)
    requires Enabled(s, e) && Partitioned(s.redis)
    ensures var s', n := Apply(s, e), |s.redis.log|;
            || (Crowd(s') <= Crowd(s) && |s'.redis.log| == n)
            || (exists c :: Crowd(s') == Crowd(s) + {c} && |s'.redis.log| == n && Length(s.redis) < s.cfg.maxDepth)
            || (exists c :: c in Crowd(s) && Crowd(s') == Crowd(s) - {c} && |s'.redis.log| == n + 1)
  {
    var s' := Apply(s, e);
    match e
    case CheckDepth(c, job, key, replayOf) =>
      if s'.calls[c].phase == Checked {
        assert Crowd(s') == Crowd(s) + {c};
      }
    case Append(c, trim) => assert Crowd(s') == Crowd(s) - {c};
    case Read(worker, count, now) => XReadGroupMoves(s.redis, worker, count, now);
    case _ =>
  }

  lemma {:induction false} CfgFixed(cfg: Config, trace: seq<Event>)
    requires Run(cfg, trace)
    ensures After(cfg, trace).cfg == cfg
  {
    if trace != [] {
      CfgFixed(cfg, trace[..|trace| - 1]);
      KeepsConfig(After(cfg, trace[..|trace| - 1]), trace[|trace| - 1]);
    }
  }

  lemma Smaller(a: set<nat>, b: set<nat>)
    requires a <= b
    ensures |a| <= |b|
  {
    assert b == a + (b - a);
  }

  lemma TrimStep(s: State, e: Event)
    requires Enabled(s, e) && Apply(s, e).redis.trimmed != s.redis.trimmed
    ensures Length(Apply(s, e).redis) >= s.cfg.maxDepth + SLACK
    ensures Length(s.redis) + 1 > s.cfg.maxDepth + SLACK
    ensures e.Append? && e.c in Crowd(s)
  {
  }

  // -- a full queue stays full ------------------------------------------------------

  /** Eviction only ever happens above the limit and leaves the stream above it. */
  ghost predicate EvictedOnlyWhenFull(s: State) {
    s.redis.trimmed <= |s.redis.log| && (s.redis.trimmed == 0 || Length(s.redis) >= s.cfg.maxDepth + SLACK)
  }

  lemma {:induction false} AlwaysEvictedOnlyWhenFull(cfg: Config, trace: seq<Event>)
    requires Run(cfg, trace)
    ensures EvictedOnlyWhenFull(After(cfg, trace))
  {
    if trace != [] {
      var before := trace[..|trace| - 1];
      var s, e := After(cfg, before), trace[|trace| - 1];
      AlwaysEvictedOnlyWhenFull(cfg, before);
      AlwaysSound(cfg, before);
      RedisStep(s, e);
      KeepsConfig(s, e);
      if Apply(s, e).redis.trimmed != s.redis.trimmed {
        TrimStep(s, e);
      }
    }
  }

  /** In every reachable state an enqueue is refused for depth if and only if as many jobs as the limit
      were ever appended, whatever has been acknowledged, dead-lettered or evicted since. */
  lemma RefusedIff(cfg: Config, trace: seq<Event>, e: Event)
    requires Run(cfg, trace) && e.CheckDepth? && Enabled(After(cfg, trace), e)
    ensures Apply(After(cfg, trace), e).calls[e.c].phase == Refused <==> |After(cfg, trace).redis.log| >= cfg.maxDepth
  {
    CfgFixed(cfg, trace);
    AlwaysEvictedOnlyWhenFull(cfg, trace);
  }

  /** Once a queue is full it refuses every later enqueue of the run: retrying after a while, as the error
      suggests, never helps. */
  lemma FullForGood(cfg: Config, trace: seq<Event>, m: nat, n: nat)
    requires Run(cfg, trace) && m <= n < |trace| && trace[n].CheckDepth?
    requires Length(At(cfg, trace, m).redis) >= cfg.maxDepth
    ensures trace[n].c in At(cfg, trace, n + 1).calls && At(cfg, trace, n + 1).calls[trace[n].c].phase == Refused
  {
    AtStep(cfg, trace, n);
    PrefixRuns(cfg, trace, m);
    PrefixRuns(cfg, trace, n);
    AlwaysEvictedOnlyWhenFull(cfg, trace[..m]);
    LogOnlyGrows(cfg, trace[..m], trace[..n]);
    RefusedIff(cfg, trace[..n], trace[n]);
  }

  /** A queue accepts no more than this many jobs in its whole life. */
  lemma {:induction false} LifetimeBound(cfg: Config, trace: seq<Event>, limit: nat)
    requires Run(cfg, trace) && CrowdAtMost(cfg, trace, limit) && limit >= 1
    ensures |After(cfg, trace).redis.log| + |Crowd(After(cfg, trace))| <= cfg.maxDepth + limit - 1
  {
    if trace != [] {
      var before := trace[..|trace| - 1];
      var s, s' := After(cfg, before), After(cfg, trace);
      LifetimeBound(cfg, before, limit);
      AlwaysSound(cfg, before);
      CfgFixed(cfg, before);
      AlwaysEvictedOnlyWhenFull(cfg, before);
      CrowdStep(s, trace[|trace| - 1]);
      if Crowd(s') <= Crowd(s) && |s'.redis.log| == |s.redis.log| {
        Smaller(Crowd(s'), Crowd(s));
      }
    }
  }

  /** In particular the stream never outgrows the limit by more than the crowd can bring in. */
  lemma DepthBound(cfg: Config, trace: seq<Event>, limit: nat)
    requires Run(cfg, trace) && CrowdAtMost(cfg, trace, limit) && limit >= 1
    ensures Length(After(cfg, trace).redis) + |Crowd(After(cfg, trace))| <= cfg.maxDepth + limit - 1
  {
    LifetimeBound(cfg, trace, limit);
  }

  // -- eviction -------------------------------------------------------------------

  /** With at most SLACK + 1 calls in the window, nothing is ever evicted. */
  lemma {:induction false} NothingEvicted(cfg: Config, trace: seq<Event>, limit: nat)
    requires Run(cfg, trace) && CrowdAtMost(cfg, trace, limit) && 1 <= limit <= SLACK + 1
    ensures After(cfg, trace).redis.trimmed == 0
  {
    if trace != [] {
      var before := trace[..|trace| - 1];
      var s := After(cfg, before);
      var e := trace[|trace| - 1];
      NothingEvicted(cfg, before, limit);
      if After(cfg, trace).redis.trimmed != 0 {
        TrimStep(s, e);
        DepthBound(cfg, before, limit);
        CfgFixed(cfg, before);
        assert false;
      }
    }
  }

  /** The combined guarantee: no job is lost as long as the crowd stays within the slack. */
  lemma NoJobLostUnderLoad(cfg: Config, trace: seq<Event>, limit: nat, i: nat)
    requires Run(cfg, trace) && CrowdAtMost(cfg, trace, limit) && 1 <= limit <= SLACK + 1
    requires i < |After(cfg, trace).redis.log|
    ensures After(cfg, trace).redis.trimmed == 0
    ensures NotLost(After(cfg, trace), After(cfg, trace).redis.log[i])
  {
    NothingEvicted(cfg, trace, limit);
    NoJobLost(cfg, trace, i);
  }

  // -- the slack is exact -----------------------------------------------------------

  /** A name of length `k`, so that different positions have different names. */
  function Name(k: nat): (s: string)
    ensures |s| == k
  {
    if k == 0 then "" else Name(k - 1) + "j"
  }

  /** A fresh job whose name tells its position. */
  predicate Nth(job: Job, k: nat) {
    |job.id| == k && job.status == Member(Pending) && job.key == None
  }

  function NthJob(k: nat): (job: Job)
    ensures Nth(job, k)
  {
    Job(Name(k), "kind", "", Member(Pending), 0, 0, 3, None, "default")
  }

  /** `n` jobs appended and `m` more calls ready to append, by calls numbered in order. */
  ghost predicate Loaded(s: State, n: nat, m: nat) {
    && |s.redis.log| == n
    && (forall i :: 0 <= i < n ==> |s.redis.log[i].id| == i)
    && s.redis == EMPTY.(log := s.redis.log)
    && s.work == map[] && s.okEntries == {} && !s.db.open
    && CallsLoaded(s.calls, n, m)
    && (forall c :: c in s.calls ==> Nth(s.calls[c].job, c) && s.calls[c].replayOf == None)
    && (forall id :: id in s.db.rows ==> |id| < n + m && s.db.rows[id].job.key == None)
  }

  ghost predicate CallsLoaded(calls: map<nat, Call>, n: nat, m: nat) {
    && (forall c :: c in calls ==> c < n + m && !calls[c].halted)
    && (forall c :: c in calls && c < n ==> calls[c].phase.Added?)
    && (forall c :: n <= c < n + m ==> c in calls && calls[c].phase == Ready)
  }

  lemma LoadedCrowd(s: State, n: nat, m: nat)
    requires CallsLoaded(s.calls, n, m)
    ensures Crowd(s) == Ids(n, n + m) && |Crowd(s)| == m
  {
    assert Crowd(s) == Ids(n, n + m);
    IdsSize(n, n + m);
  }

  function WithCall(s: State, c: nat, job: Job, phase: Phase): State {
    s.(calls := s.calls[c := Call(job, false, None, phase, false)])
  }

  /** The three steps by which a fresh call without a key reaches Ready. */
  lemma CheckPasses(s: State, c: nat, job: Job)
    requires c !in s.calls && Length(s.redis) < s.cfg.maxDepth
    ensures Enabled(s, CheckDepth(c, job, None, None))
    ensures Apply(s, CheckDepth(c, job, None, None)) == WithCall(s, c, job, Checked)
  {
  }

  lemma LookupPasses(s: State, c: nat, job: Job)
    ensures Enabled(WithCall(s, c, job, Checked), Lookup(c))
    ensures Apply(WithCall(s, c, job, Checked), Lookup(c)) == WithCall(s, c, job, Looked)
  {
  }

  lemma InsertPasses(s: State, c: nat, job: Job)
    requires Insertable(s.db.rows, job) && !s.db.open
    ensures Enabled(WithCall(s, c, job, Looked), Insert(c, false))
    ensures var db := if s.cfg.hasStore then Committing(s.db, job) else s.db;
            Apply(WithCall(s, c, job, Looked), Insert(c, false)) == WithCall(s, c, job, Ready).(db := db)
  {
  }

  lemma ReadyLoads(s: State, n: nat, m: nat, job: Job, db: Database)
    requires Loaded(s, n, m) && Nth(job, n + m)
    requires db == s.db || db == Committing(s.db, job)
    ensures Loaded(WithCall(s, n + m, job, Ready).(db := db), n, m + 1)
  {
  }

  lemma InPhaseCrowd(s: State, c: nat, job: Job, phase: Phase)
    requires c !in s.calls && phase in {Checked, Looked, Ready}
    ensures |Crowd(WithCall(s, c, job, phase))| == |Crowd(s)| + 1
  {
    assert Crowd(WithCall(s, c, job, phase)) == Crowd(s) + {c};
  }

  /** Some run within the crowd limit ends in `s`. */
  ghost predicate Reachable(cfg: Config, s: State, limit: nat) {
    exists trace: seq<Event> :: Run(cfg, trace) && CrowdAtMost(cfg, trace, limit) && After(cfg, trace) == s
  }

  lemma ReachStep(cfg: Config, s: State, e: Event, limit: nat)
    requires Reachable(cfg, s, limit) && Enabled(s, e) && |Crowd(Apply(s, e))| <= limit
    ensures Reachable(cfg, Apply(s, e), limit)
  {
    var trace: seq<Event> :| Run(cfg, trace) && CrowdAtMost(cfg, trace, limit) && After(cfg, trace) == s;
    Extend(cfg, trace, e);
    assert (trace + [e])[..|trace + [e]| - 1] == trace;
    assert CrowdAtMost(cfg, trace + [e], limit);
  }

  /** A reachable loaded state, under the configuration it started from. */
  ghost predicate Piled(cfg: Config, s: State, n: nat, m: nat, limit: nat) {
    Reachable(cfg, s, limit) && s.cfg == cfg && Loaded(s, n, m)
  }

  /** One more call passes its check and reaches Ready. */
  lemma Arrive(cfg: Config, s: State, n: nat, m: nat, limit: nat) returns (s': State)
    requires Piled(cfg, s, n, m, limit) && n < cfg.maxDepth && m < limit
    ensures Piled(cfg, s', n, m + 1, limit)
  {
    var c, job := n + m, NthJob(n + m);
    LoadedCrowd(s, n, m);
    CheckPasses(s, c, job);
    InPhaseCrowd(s, c, job, Checked);
    ReachStep(cfg, s, CheckDepth(c, job, None, None), limit);
    LookupPasses(s, c, job);
    InPhaseCrowd(s, c, job, Looked);
    ReachStep(cfg, WithCall(s, c, job, Checked), Lookup(c), limit);
    s' := ArriveReady(cfg, s, n, m, job, limit);
  }

  lemma ArriveReady(cfg: Config, s: State, n: nat, m: nat, job: Job, limit: nat) returns (s': State)
    requires s.cfg == cfg && Loaded(s, n, m) && Nth(job, n + m) && m < limit
    requires Reachable(cfg, WithCall(s, n + m, job, Looked), limit)
    ensures Piled(cfg, s', n, m + 1, limit)
  {
    var c := n + m;
    var db := if s.cfg.hasStore then Committing(s.db, job) else s.db;
    InsertPasses(s, c, job);
    ReadyLoads(s, n, m, job, db);
    s' := WithCall(s, c, job, Ready).(db := db);
    LoadedCrowd(s', n, m + 1);
    ReachStep(cfg, WithCall(s, c, job, Looked), Insert(c, false), limit);
  }

  /** The first ready call appends, evicting nothing. */
  lemma Land(cfg: Config, s: State, n: nat, m: nat, limit: nat) returns (s': State)
    requires Piled(cfg, s, n, m, limit) && m >= 1
    ensures Piled(cfg, s', n + 1, m - 1, limit)
  {
    assert InPhase(s, n, Ready);
    s' := LandState(s, n, m);
    LoadedCrowd(s, n, m);
    LoadedCrowd(s', n + 1, m - 1);
    ReachStep(cfg, s, Append(n, 0), limit);
  }

  lemma LandState(s: State, n: nat, m: nat) returns (s': State)
    requires Loaded(s, n, m) && m >= 1
    ensures Enabled(s, Append(n, 0)) && s' == Apply(s, Append(n, 0)) && s'.cfg == s.cfg
    ensures Loaded(s', n + 1, m - 1)
  {
    assert InPhase(s, n, Ready);
    s' := Apply(s, Append(n, 0));
  }

  /** Sequential calls fill the stream to just below the limit; then `m` calls rush in together. */
  lemma {:induction false} Rush(cfg: Config, n: nat, m: nat, limit: nat) returns (s: State)
    requires n < cfg.maxDepth && m <= limit && 1 <= limit
    ensures Piled(cfg, s, n, m, limit)
    decreases n + m, n
  {
    if m > 0 {
      s := Rush(cfg, n, m - 1, limit);
      s := Arrive(cfg, s, n, m - 1, limit);
    } else if n > 0 {
      s := Rush(cfg, n - 1, 0, limit);
      s := Arrive(cfg, s, n - 1, 0, limit);
      s := Land(cfg, s, n - 1, 1, limit);
    } else {
      s := Initial(cfg);
      StartIsReachable(cfg, limit);
    }
  }

  lemma StartIsReachable(cfg: Config, limit: nat)
    ensures Reachable(cfg, Initial(cfg), limit)
  {
    assert Crowd(Initial(cfg)) == {};
    assert CrowdAtMost(cfg, [], limit) && After(cfg, []) == Initial(cfg);
  }

  /** ... and `k` of them append. */
  lemma {:induction false} Pile(cfg: Config, k: nat, m: nat, limit: nat) returns (s: State)
    requires cfg.maxDepth >= 1 && k + m <= limit && 1 <= limit
    ensures Piled(cfg, s, cfg.maxDepth - 1 + k, m, limit)
    decreases k
  {
    if k == 0 {
      s := Rush(cfg, cfg.maxDepth - 1, m, limit);
    } else {
      s := Pile(cfg, k - 1, m + 1, limit);
      s := Land(cfg, s, cfg.maxDepth - 1 + k - 1, m + 1, limit);
    }
  }

  /** The last call of the crowd appends and MAXLEN evicts entry 0. */
  lemma LastEvicts(s: State, n: nat)
    requires Loaded(s, n, 1) && n == s.cfg.maxDepth + SLACK
    ensures Enabled(s, Append(n, 1))
    ensures Crowd(Apply(s, Append(n, 1))) == {}
    ensures FirstEvicted(Apply(s, Append(n, 1)))
  {
  }

  ghost predicate FirstEvicted(s: State) {
    && |s.redis.log| > 0
    && (forall i :: 0 <= i < |s.redis.log| ==> |s.redis.log[i].id| == i)
    && s.redis == EMPTY.(log := s.redis.log, trimmed := 1)
    && s.okEntries == {}
  }

  lemma FirstIsLost(s: State)
    requires Sound(s) && FirstEvicted(s)
    ensures !NotLost(s, s.redis.log[0])
  {
  }

  /** One call too many, and the oldest job is evicted before any worker saw it. */
  lemma OneTooMany(cfg: Config) returns (s: State)
    requires cfg.maxDepth >= 1
    ensures Reachable(cfg, s, SLACK + 2)
    ensures Sound(s) && |s.redis.log| > 0 && !NotLost(s, s.redis.log[0])
  {
    var before := Pile(cfg, SLACK + 1, 1, SLACK + 2);
    var n := cfg.maxDepth + SLACK;
    LastEvicts(before, n);
    s := Apply(before, Append(n, 1));
    ReachStep(cfg, before, Append(n, 1), SLACK + 2);
    ReachableIsSound(cfg, s, SLACK + 2);
    FirstIsLost(s);
  }

  lemma ReachableIsSound(cfg: Config, s: State, limit: nat)
    requires Reachable(cfg, s, limit)
    ensures Sound(s)
  {
    var trace: seq<Event> :| Run(cfg, trace) && CrowdAtMost(cfg, trace, limit) && After(cfg, trace) == s;
    AlwaysSound(cfg, trace);
  }

  lemma ReachLoosens(cfg: Config, s: State, limit: nat, wider: nat)
    requires Reachable(cfg, s, limit) && limit <= wider
    ensures Reachable(cfg, s, wider)
  {
    var trace: seq<Event> :| Run(cfg, trace) && CrowdAtMost(cfg, trace, limit) && After(cfg, trace) == s;
    CrowdLoosens(cfg, trace, limit, wider);
  }

  lemma {:induction false} CrowdLoosens(cfg: Config, trace: seq<Event>, limit: nat, wider: nat)
    requires Run(cfg, trace) && CrowdAtMost(cfg, trace, limit) && limit <= wider
    ensures CrowdAtMost(cfg, trace, wider)
  {
    if trace != [] {
      CrowdLoosens(cfg, trace[..|trace| - 1], limit, wider);
    }
  }

  // -- a drained queue is still full ------------------------------------------------

  /** `n` jobs were appended and read, and the first `k` of them acknowledged. */
  ghost predicate Drained(s: State, n: nat, k: nat) {
    && k <= n == |s.redis.log| && s.redis.trimmed == 0 && s.redis.cursor == n
    && s.redis.pending.Keys == Ids(k, n) && s.redis.acked == Ids(0, k)
    && (forall d :: d in s.work ==> d < k) && Crowd(s) == {}
  }

  lemma ReadAll(cfg: Config, s: State, n: nat) returns (s': State)
    requires Piled(cfg, s, n, 0, 1) && n >= 1
    ensures Reachable(cfg, s', 1) && Drained(s', n, 0)
  {
    var grouped := Apply(s, CreateGroup);
    LoadedCrowd(s, n, 0);
    assert Crowd(grouped) == Crowd(s) == {};
    ReachStep(cfg, s, CreateGroup, 1);
    s' := Apply(grouped, Read("w", n, 0));
    assert Crowd(s') == {};
    ReachStep(cfg, grouped, Read("w", n, 0), 1);
  }

  lemma WorkKeepsCrowd(s: State, e: Event)
    requires Enabled(s, e) && (e.Begin? || e.Return? || e.Ack?)
    ensures Crowd(Apply(s, e)) == Crowd(s)
  {
  }

  lemma AckMovesOne(r: Broker, n: nat, k: nat)
    requires k < n && r.pending.Keys == Ids(k, n) && r.acked == Ids(0, k)
    ensures XAck(r, k).pending.Keys == Ids(k + 1, n) && XAck(r, k).acked == Ids(0, k + 1)
  {
  }

  lemma BeginAndReturn(s: State, k: nat)
    requires k !in s.work && k in s.redis.pending && k < |s.redis.log|
    ensures Enabled(s, Begin(k, k, false)) && Enabled(Apply(s, Begin(k, k, false)), Return(k))
    ensures var w := Delivery(k, s.redis.log[k], Returned, false);
            Apply(Apply(s, Begin(k, k, false)), Return(k)) ==
              s.(work := s.work[k := w], okEntries := s.okEntries + {k})
  {
    var begun := Apply(s, Begin(k, k, false));
    assert begun == s.(work := s.work[k := Delivery(k, s.redis.log[k], Started, false)]);
  }

  lemma AckOne(cfg: Config, s: State, n: nat, k: nat) returns (s': State)
    requires Reachable(cfg, s, 1) && Drained(s, n, k) && k < n
    ensures Reachable(cfg, s', 1) && Drained(s', n, k + 1)
  {
    hide Apply, Enabled, Reachable, Crowd;
    BeginAndReturn(s, k);
    var begun := Apply(s, Begin(k, k, false));
    WorkKeepsCrowd(s, Begin(k, k, false));
    ReachStep(cfg, s, Begin(k, k, false), 1);
    WorkKeepsCrowd(begun, Return(k));
    ReachStep(cfg, begun, Return(k), 1);
    s' := AckReturned(cfg, Apply(begun, Return(k)), n, k);
  }

  lemma AckReturned(cfg: Config, s: State, n: nat, k: nat) returns (s': State)
    requires Reachable(cfg, s, 1) && k < n && AtPc(s, k, Returned) && s.work[k].entry == k
    requires n == |s.redis.log| && s.redis.trimmed == 0 && s.redis.cursor == n && Crowd(s) == {}
    requires s.redis.pending.Keys == Ids(k, n) && s.redis.acked == Ids(0, k) && forall d :: d in s.work ==> d <= k
    ensures Reachable(cfg, s', 1) && Drained(s', n, k + 1)
  {
    hide Reachable, Crowd, Ids;
    WorkKeepsCrowd(s, Ack(k, true));
    ReachStep(cfg, s, Ack(k, true), 1);
    AckMovesOne(s.redis, n, k);
    s' := Apply(s, Ack(k, true));
  }

  lemma {:induction false} AckAll(cfg: Config, s: State, n: nat, k: nat) returns (s': State)
    requires Reachable(cfg, s, 1) && Drained(s, n, k)
    ensures Reachable(cfg, s', 1) && Drained(s', n, n)
    decreases n - k
  {
    s' := s;
    if k < n {
      s' := AckOne(cfg, s, n, k);
      s' := AckAll(cfg, s', n, k + 1);
    }
  }

  /** For every depth limit there is a run, with no two calls at once, in which every job was acknowledged
      and nothing waits or is pending, and yet every enqueue is refused as full. */
  lemma DrainedStillRefuses(cfg: Config) returns (s: State)
    requires cfg.maxDepth >= 1
    ensures Reachable(cfg, s, 1) && |s.redis.log| == cfg.maxDepth
    ensures s.redis.acked == Ids(0, cfg.maxDepth) && s.redis.pending == map[] && Undelivered(s.redis) == {}
    ensures forall e: Event :: e.CheckDepth? && Enabled(s, e) ==> Apply(s, e).calls[e.c].phase == Refused
  {
    var n := cfg.maxDepth;
    s := Rush(cfg, n - 1, 1, 1);
    s := Land(cfg, s, n - 1, 1, 1);
    s := ReadAll(cfg, s, n);
    s := AckAll(cfg, s, n, 0);
    assert s.redis.pending == map[];
    var trace: seq<Event> :| Run(cfg, trace) && CrowdAtMost(cfg, trace, 1) && After(cfg, trace) == s;
    forall e: Event | e.CheckDepth? && Enabled(s, e) ensures Apply(s, e).calls[e.c].phase == Refused {
      RefusedIff(cfg, trace, e);
    }
  }

  ghost predicate KeepsAll(s: State) {
    Sound(s) && forall i :: 0 <= i < |s.redis.log| ==> NotLost(s, s.redis.log[i])
  }

  /** No run whose crowd stays within `limit` ever loses a job. */
  ghost predicate KeepsJobs(cfg: Config, limit: nat) {
    forall s: State :: Reachable(cfg, s, limit) ==> KeepsAll(s)
  }

  lemma ReachableKeepsAll(cfg: Config, s: State, limit: nat)
    requires Reachable(cfg, s, limit) && 1 <= limit <= SLACK + 1
    ensures KeepsAll(s)
  {
    var trace: seq<Event> :| Run(cfg, trace) && CrowdAtMost(cfg, trace, limit) && After(cfg, trace) == s;
    AlwaysSound(cfg, trace);
    forall i: nat | i < |s.redis.log| ensures NotLost(s, s.redis.log[i]) {
      NoJobLostUnderLoad(cfg, trace, limit, i);
    }
  }

  /** A queue of depth zero lets nothing in. */
  lemma {:induction false} ClosedQueue(cfg: Config, trace: seq<Event>)
    requires Run(cfg, trace) && cfg.maxDepth == 0
    ensures Crowd(After(cfg, trace)) == {} && After(cfg, trace).redis.log == []
  {
    if trace != [] {
      var before := trace[..|trace| - 1];
      ClosedQueue(cfg, before);
      AlwaysSound(cfg, before);
      CfgFixed(cfg, before);
      CrowdStep(After(cfg, before), trace[|trace| - 1]);
    }
  }

  lemma ClosedKeepsAll(cfg: Config, s: State, limit: nat)
    requires cfg.maxDepth == 0 && Reachable(cfg, s, limit)
    ensures KeepsAll(s)
  {
    var trace: seq<Event> :| Run(cfg, trace) && CrowdAtMost(cfg, trace, limit) && After(cfg, trace) == s;
    AlwaysSound(cfg, trace);
    ClosedQueue(cfg, trace);
  }

  /** The slack is exact: jobs survive every schedule if and only if at most 1001 enqueue calls may be
      past their depth check at once, or the queue lets nothing in. */
  lemma SlackIsExact(cfg: Config, limit: nat)
    ensures KeepsJobs(cfg, limit) <==> limit <= 1001 || cfg.maxDepth == 0
  {
    if cfg.maxDepth == 0 {
      forall s: State | Reachable(cfg, s, limit) ensures KeepsAll(s) {
        ClosedKeepsAll(cfg, s, limit);
      }
    } else if limit <= SLACK + 1 {
      forall s: State | Reachable(cfg, s, limit) ensures KeepsAll(s) {
        ReachLoosens(cfg, s, limit, SLACK + 1);
        ReachableKeepsAll(cfg, s, SLACK + 1);
      }
    } else {
      var s := OneTooMany(cfg);
      ReachLoosens(cfg, s, SLACK + 2, limit);
      assert !KeepsAll(s);
    }
  }
}
