/** No job is lost, and no acknowledgement comes before its justification. */
module NoLoss {
  import opened Jobs
  import opened Redis
  import opened Protocol

  // -- what every step keeps ----------------------------------------------------

  /** How a delivery's copy of the job relates to the entry it came from. */
  ghost predicate DeliveryOk(s: State, w: Delivery) {
    && w.entry < |s.redis.log|
    && w.entry < s.redis.cursor
    && var job := s.redis.log[w.entry];
       var again := job.(attempts := job.attempts + 1);
       match w.pc
       case Started => w.job == job
       case Returned => w.job == job && w.entry in s.okEntries
       case AckTried => w.job == job && w.entry in s.okEntries
       case Exhausted => w.job == again && ShouldDlq(again)
       case DlqWritten => w.job == again && ShouldDlq(again) && w.entry in s.parked
       case DlqTried => w.job == again && ShouldDlq(again)
       case Retrying => w.job == again && !ShouldDlq(again)
       case Finished => w.job == job || w.job == again
  }

  ghost predicate WorkSound(s: State) {
    forall d :: d in s.work ==> DeliveryOk(s, s.work[d])
  }

  /** A replay carries the work of its record, which counts as replayed once the job is appended. */
  ghost predicate CallOk(s: State, call: Call) {
    call.replayOf.Some? ==>
      && call.replayOf.value < |s.redis.dlqLog|
      && SameWork(call.job, s.redis.dlqLog[call.replayOf.value])
      && (call.phase.Added? ==> call.replayOf.value in s.replayed)
  }

  ghost predicate CallsSound(s: State) {
    forall c :: c in s.calls ==> CallOk(s, s.calls[c])
  }

  ghost predicate HistorySound(s: State) {
    && (forall i :: i in s.okEntries || i in s.parked ==> i < |s.redis.log|)
    && (forall i :: i in s.redis.acked ==> i in s.okEntries || i in s.parked)
    && (forall k :: k in s.replayed ==> k < |s.redis.dlqLog|)
  }

  ghost predicate Sound(s: State) {
    Partitioned(s.redis) && HistorySound(s) && CallsSound(s) && WorkSound(s)
  }

  /** What only ever grows. */
  ghost predicate Grows(s: State, s': State) {
    && s.redis.log <= s'.redis.log
    && s.redis.dlqLog <= s'.redis.dlqLog
    && s.redis.trimmed <= s'.redis.trimmed
    && s.redis.cursor <= s'.redis.cursor
    && (s.redis.hasGroup ==> s'.redis.hasGroup)
    && s.okEntries <= s'.okEntries
    && s.parked <= s'.parked
    && s.replayed <= s'.replayed
  }

  lemma RedisStep(s: State, e: Event)
    requires Partitioned(s.redis) && Enabled(s, e)
    ensures Partitioned(Apply(s, e).redis)
    ensures Grows(s, Apply(s, e))
  {
    match e
    case Read(worker, count, now) => XReadGroupMoves(s.redis, worker, count, now);
    case Claim(worker, ids, now) => XAutoclaimMovesLeases(s.redis, worker, ids, now);
    case CreateGroup => EnsureGroupKeepsAll(s.redis);
    case Ack(d, applied) => XAckMoves(s.redis, s.work[d].entry);
    case _ =>
  }

  lemma DeliveryStaysOk(s: State, s': State, w: Delivery)
    requires DeliveryOk(s, w) && Grows(s, s')
    ensures DeliveryOk(s', w)
  {
  }

  lemma KnownDeliveryStep(s: State, e: Event, d: nat)
    requires Sound(s) && Enabled(s, e) && d in s.work
    ensures d in Apply(s, e).work && DeliveryOk(Apply(s, e), Apply(s, e).work[d])
  {
    var s' := Apply(s, e);
    var w := s.work[d];
    RedisStep(s, e);
    DeliveryStaysOk(s, s', w);
    if s'.work[d] != w.(halted := s'.work[d].halted) {
      OwnDeliveryStep(s, e, d);
    }
  }

  /** A step that moves a delivery or changes its copy of the job is one of its own. */
  lemma OwnDeliveryStep(s: State, e: Event, d: nat)
    requires Enabled(s, e) && d in s.work && DeliveryOk(s, s.work[d]) && DeliveryOk(Apply(s, e), s.work[d])
    requires Apply(s, e).work[d] != s.work[d].(halted := Apply(s, e).work[d].halted)
    ensures DeliveryOk(Apply(s, e), Apply(s, e).work[d])
  {
    assert (e.Return? || e.Fail? || e.Ack? || e.Park? || e.Settle?) && e.d == d;
  }

  lemma WorkStep(s: State, e: Event)
    requires Sound(s) && Enabled(s, e)
    ensures WorkSound(Apply(s, e))
  {
    var s' := Apply(s, e);
    RedisStep(s, e);
    forall d | d in s'.work ensures DeliveryOk(s', s'.work[d]) {
      if d in s.work {
        KnownDeliveryStep(s, e, d);
      } else {
        assert e.Begin?;
      }
    }
  }

  lemma CallsStep(s: State, e: Event)
    requires Sound(s) && Enabled(s, e)
    ensures CallsSound(Apply(s, e))
  {
    var s' := Apply(s, e);
    RedisStep(s, e);
    forall c | c in s'.calls ensures CallOk(s', s'.calls[c]) {
      if c in s.calls {
        assert CallOk(s, s.calls[c]);
        CallKept(s, e, c);
        if s.calls[c].replayOf.Some? {
          DlqKept(s, s', s.calls[c]);
        }
      }
    }
  }

  /** A call's job and its record never change, and it is Added only after marking the record. */
  lemma CallKept(s: State, e: Event, c: nat)
    requires Enabled(s, e) && c in s.calls
    ensures var call := Apply(s, e).calls;
            && c in call
            && call[c] == s.calls[c].(phase := call[c].phase, halted := call[c].halted)
            && (call[c].phase.Added? ==>
                  || s.calls[c].phase.Added?
                  || (call[c].replayOf.Some? ==> call[c].replayOf.value in Apply(s, e).replayed))
  {
  }

  lemma DlqKept(s: State, s': State, call: Call)
    requires CallOk(s, call) && Grows(s, s') && call.replayOf.Some?
    ensures call.replayOf.value < |s'.redis.dlqLog|
    ensures s'.redis.dlqLog[call.replayOf.value] == s.redis.dlqLog[call.replayOf.value]
  {
  }

  lemma HistoryStep(s: State, e: Event)
    requires Sound(s) && Enabled(s, e)
    ensures HistorySound(Apply(s, e))
  {
    RedisStep(s, e);
    match e
    case Append(c, trim) => assert CallOk(s, s.calls[c]);
    case Return(d) => assert DeliveryOk(s, s.work[d]);
    case Ack(d, applied) => assert DeliveryOk(s, s.work[d]);
    case Park(d, applied, seen) => assert DeliveryOk(s, s.work[d]);
    case _ =>
  }

  lemma SoundStep(s: State, e: Event)
    requires Sound(s) && Enabled(s, e)
    ensures Sound(Apply(s, e))
    ensures Grows(s, Apply(s, e))
  {
    RedisStep(s, e);
    WorkStep(s, e);
    CallsStep(s, e);
    HistoryStep(s, e);
  }

  lemma {:induction false} AlwaysSound(cfg: Config, trace: seq<Event>)
    requires Run(cfg, trace)
    ensures Sound(After(cfg, trace))
  {
    if trace != [] {
      AlwaysSound(cfg, trace[..|trace| - 1]);
      SoundStep(After(cfg, trace[..|trace| - 1]), trace[|trace| - 1]);
    }
  }

  // -- coverage -----------------------------------------------------------------

  /** Something that still stands for a job. */
  datatype Token = Entry(k: nat) | Record(r: nat)

  /** An entry stands for its job once its handler has returned normally, or while it is neither
      acknowledged nor copied to the dead-letter stream; a dead-letter record, until it is deleted or
      its replay has been appended. */
  ghost predicate Covers(s: State, t: Token, job: Job) {
    match t
    case Entry(k) =>
      && k < |s.redis.log|
      && SameWork(s.redis.log[k], job)
      && (k in s.okEntries || (k !in s.parked && k !in s.redis.acked))
    case Record(r) =>
      && r < |s.redis.dlqLog|
      && SameWork(s.redis.dlqLog[r], job)
      && r in s.redis.dlqLive
      && r !in s.replayed
  }

  /** What stands for the job after the step: parking hands over to the new record, and appending
      a replay hands over to the new entry. */
  function NextToken(s: State, e: Event, t: Token): Token
    requires Enabled(s, e)
  {
    match e
    case Park(d, applied, seen) =>
      if applied && t == Entry(s.work[d].entry) && t.k !in s.okEntries then Record(|s.redis.dlqLog|) else t
    case Append(c, trim) =>
      var replayOf := s.calls[c].replayOf;
      if replayOf.Some? && t == Record(replayOf.value) then Entry(|s.redis.log|) else t
    case _ => t
  }

  lemma CoverEntryStep(s: State, e: Event, k: nat, job: Job)
    requires Sound(s) && Enabled(s, e) && Covers(s, Entry(k), job)
    ensures Covers(Apply(s, e), NextToken(s, e, Entry(k)), job)
  {
  }

  lemma CoverRecordStep(s: State, e: Event, r: nat, job: Job)
    requires Sound(s) && Enabled(s, e) && Covers(s, Record(r), job)
    ensures Covers(Apply(s, e), NextToken(s, e, Record(r)), job)
  {
  }

  lemma CoverStep(s: State, e: Event, t: Token, job: Job)
    requires Sound(s) && Enabled(s, e) && Covers(s, t, job)
    ensures Covers(Apply(s, e), NextToken(s, e, t), job)
  {
    match t
    case Entry(k) => CoverEntryStep(s, e, k, job);
    case Record(r) => CoverRecordStep(s, e, r, job);
  }

  /** What stands for entry `i` at the end of a run: itself when it is appended, and from then on
      whatever each step hands over to. */
  ghost function Follow(cfg: Config, trace: seq<Event>, i: nat): Token
    requires Run(cfg, trace) && i < |After(cfg, trace).redis.log|
    decreases |trace|
  {
    var before := trace[..|trace| - 1];
    if i < |After(cfg, before).redis.log| then
      NextToken(After(cfg, before), trace[|trace| - 1], Follow(cfg, before, i))
    else
      Entry(i)
  }

  lemma {:induction false} FollowCovers(cfg: Config, trace: seq<Event>, i: nat)
    requires Run(cfg, trace) && i < |After(cfg, trace).redis.log|
    ensures Covers(After(cfg, trace), Follow(cfg, trace, i), After(cfg, trace).redis.log[i])
  {
    var before := trace[..|trace| - 1];
    var s, e := After(cfg, before), trace[|trace| - 1];
    AlwaysSound(cfg, before);
    SoundStep(s, e);
    if i < |s.redis.log| {
      FollowCovers(cfg, before, i);
      assert Apply(s, e).redis.log[i] == s.redis.log[i];
      CoverStep(s, e, Follow(cfg, before, i), s.redis.log[i]);
    } else {
      AppendedIsNew(s, e);
    }
  }

  lemma AppendedIsNew(s: State, e: Event)
    requires Sound(s) && Enabled(s, e) && Apply(s, e).redis.log != s.redis.log
    ensures var s' := Apply(s, e);
            && |s'.redis.log| == |s.redis.log| + 1
            && Covers(s', Entry(|s.redis.log|), s'.redis.log[|s.redis.log|])
            && e.Append?
  {
  }

  // -- the theorem, in the queue's own terms --------------------------------------

  /** Entry `k` is ahead of the group's cursor and still in the stream, or claimed, or has had a handler
      run return normally. */
  ghost predicate InHand(s: State, k: nat) {
    (s.redis.trimmed <= k && k in Undelivered(s.redis)) || k in s.redis.pending || k in s.okEntries
  }

  /** `t` stands for `job`: an entry with that work in hand, or a live dead-letter record of it. */
  ghost predicate Stands(s: State, t: Token, job: Job) {
    match t
    case Entry(k) => k < |s.redis.log| && SameWork(s.redis.log[k], job) && InHand(s, k)
    case Record(r) => r < |s.redis.dlqLog| && SameWork(s.redis.dlqLog[r], job) && r in s.redis.dlqLive
  }

  ghost predicate NotLost(s: State, job: Job) {
    exists t: Token :: Stands(s, t, job)
  }

  /** `t` is an entry with that work which was evicted while no worker held it and none had succeeded. */
  ghost predicate EvictedWaiting(s: State, t: Token, job: Job) {
    && t.Entry? && t.k < |s.redis.log| && SameWork(s.redis.log[t.k], job)
    && t.k < s.redis.trimmed && !InHand(s, t.k)
  }

  lemma CoveredStands(s: State, t: Token, job: Job)
    requires Sound(s) && Covers(s, t, job)
    ensures Stands(s, t, job) || EvictedWaiting(s, t, job)
  {
  }

  /** In every reachable state of every interleaving, each appended entry is followed to something that
      stands for it: it, or the replay of its record, still waits, is claimed or has succeeded; or its
      record is in the dead-letter stream.  The one way to be lost is to be evicted while waiting. */
  lemma LostOnlyByEviction(cfg: Config, trace: seq<Event>, i: nat)
    requires Run(cfg, trace) && i < |After(cfg, trace).redis.log|
    ensures var s, t := After(cfg, trace), Follow(cfg, trace, i);
            Stands(s, t, s.redis.log[i]) || EvictedWaiting(s, t, s.redis.log[i])
  {
    AlwaysSound(cfg, trace);
    FollowCovers(cfg, trace, i);
    CoveredStands(After(cfg, trace), Follow(cfg, trace, i), After(cfg, trace).redis.log[i]);
  }

  /** So without eviction no job is ever lost. */
  lemma NoJobLost(cfg: Config, trace: seq<Event>, i: nat)
    requires Run(cfg, trace) && After(cfg, trace).redis.trimmed == 0
    requires i < |After(cfg, trace).redis.log|
    ensures Stands(After(cfg, trace), Follow(cfg, trace, i), After(cfg, trace).redis.log[i])
    ensures NotLost(After(cfg, trace), After(cfg, trace).redis.log[i])
  {
    LostOnlyByEviction(cfg, trace, i);
  }

  // -- no two jobs share what stands for them --------------------------------------

  ghost predicate Exists(s: State, t: Token) {
    match t
    case Entry(k) => k < |s.redis.log|
    case Record(r) => r < |s.redis.dlqLog|
  }

  lemma NextTokensDiffer(s: State, e: Event, t: Token, u: Token)
    requires Enabled(s, e) && Exists(s, t) && Exists(s, u) && t != u
    ensures NextToken(s, e, t) != NextToken(s, e, u)
  {
  }

  /** At its n-th event the run appends entry `j` as the replay of the record that stood for entry `i`. */
  ghost predicate ReplayedAs(cfg: Config, trace: seq<Event>, n: nat, i: nat, j: nat)
    requires Run(cfg, trace)
  {
    && n < |trace|
    && trace[n].Append?
    && i < j == |At(cfg, trace, n).redis.log|
    && trace[n].c in At(cfg, trace, n).calls
    && var replayOf := At(cfg, trace, n).calls[trace[n].c].replayOf;
       replayOf.Some? && FollowedAt(cfg, trace, n, i) == Record(replayOf.value)
  }

  ghost function FollowedAt(cfg: Config, trace: seq<Event>, n: nat, i: nat): Token
    requires Run(cfg, trace) && n <= |trace| && i < |At(cfg, trace, n).redis.log|
  {
    PrefixRuns(cfg, trace, n);
    Follow(cfg, trace[..n], i)
  }

  /** Two entries come to share what stands for them only if one is the replay of the other's record:
      whatever ids the jobs have, one of them never stands in for another. */
  lemma {:induction false} OneTokenPerJob(cfg: Config, trace: seq<Event>, i: nat, j: nat) returns (n: nat)
    requires Run(cfg, trace)
    requires i < j < |After(cfg, trace).redis.log| && Follow(cfg, trace, i) == Follow(cfg, trace, j)
    ensures ReplayedAs(cfg, trace, n, i, j)
  {
    var before := trace[..|trace| - 1];
    var s, e := After(cfg, before), trace[|trace| - 1];
    AlwaysSound(cfg, before);
    SoundStep(s, e);
    if j < |s.redis.log| {
      FollowCovers(cfg, before, i);
      FollowCovers(cfg, before, j);
      if Follow(cfg, before, i) != Follow(cfg, before, j) {
        NextTokensDiffer(s, e, Follow(cfg, before, i), Follow(cfg, before, j));
      }
      n := OneTokenPerJob(cfg, before, i, j);
      assert before[..n] == trace[..n];
    } else {
      n := |trace| - 1;
      AppendedIsNew(s, e);
      FollowCovers(cfg, before, i);
    }
  }

  // -- acknowledgement order --------------------------------------------------------

  /** `trace` has, at index m, what lets delivery d acknowledge its entry. */
  predicate Justifies(trace: seq<Event>, m: int, d: nat) {
    0 <= m < |trace| && (trace[m] == Return(d) || trace[m] == Park(d, true, true))
  }

  ghost predicate Justified(trace: seq<Event>, d: nat) {
    exists m :: Justifies(trace, m, d)
  }

  /** Deliveries keep their entry, and become able to acknowledge it only by the two events. */
  lemma DeliveryStep(s: State, e: Event, d: nat)
    requires Enabled(s, e) && d in Apply(s, e).work
    ensures d in s.work ==> Apply(s, e).work[d].entry == s.work[d].entry
    ensures Apply(s, e).work[d].pc in {Returned, DlqWritten} ==>
              || (d in s.work && s.work[d].pc in {Returned, DlqWritten})
              || e == Return(d)
              || e == Park(d, true, true)
  {
  }

  lemma WorkOnlyGrows(s: State, e: Event, d: nat)
    requires Enabled(s, e) && d in s.work
    ensures d in Apply(s, e).work
  {
  }

  lemma AckedStep(s: State, e: Event, i: nat)
    requires Enabled(s, e) && i in Apply(s, e).redis.acked && i !in s.redis.acked
    ensures e.Ack? && e.applied && e.d in s.work && s.work[e.d].entry == i
  {
  }

  lemma {:induction false} AckersAreJustified(cfg: Config, trace: seq<Event>, d: nat)
    requires Run(cfg, trace)
    requires d in After(cfg, trace).work && After(cfg, trace).work[d].pc in {Returned, DlqWritten}
    ensures Justified(trace, d)
  {
    var before := trace[..|trace| - 1];
    var e := trace[|trace| - 1];
    DeliveryStep(After(cfg, before), e, d);
    if e == Return(d) || e == Park(d, true, true) {
      assert Justifies(trace, |trace| - 1, d);
    } else {
      AckersAreJustified(cfg, before, d);
      var m :| Justifies(before, m, d);
      assert Justifies(trace, m, d);
    }
  }

  /** Every XACK of a run is preceded, in the same delivery, by a normal handler return or by a
      successful dead-letter append. */
  lemma AckComesAfterItsReason(cfg: Config, trace: seq<Event>, n: nat)
    requires Run(cfg, trace) && n < |trace| && trace[n].Ack?
    ensures exists m :: m < n && Justifies(trace, m, trace[n].d)
  {
    AtStep(cfg, trace, n);
    PrefixRuns(cfg, trace, n);
    AckersAreJustified(cfg, trace[..n], trace[n].d);
    var m :| Justifies(trace[..n], m, trace[n].d);
    assert m < n && Justifies(trace, m, trace[n].d);
  }

  lemma {:induction false} AckedWasAcknowledged(cfg: Config, trace: seq<Event>, i: nat) returns (n: nat, d: nat)
    requires Run(cfg, trace) && i in After(cfg, trace).redis.acked
    ensures n < |trace| && trace[n] == Ack(d, true)
    ensures d in After(cfg, trace).work && After(cfg, trace).work[d].entry == i
  {
    var before := trace[..|trace| - 1];
    var e := trace[|trace| - 1];
    if i in After(cfg, before).redis.acked {
      n, d := AckedWasAcknowledged(cfg, before, i);
      WorkOnlyGrows(After(cfg, before), e, d);
    } else {
      AckedStep(After(cfg, before), e, i);
      n, d := |trace| - 1, e.d;
      WorkOnlyGrows(After(cfg, before), e, d);
    }
    DeliveryStep(After(cfg, before), e, d);
  }

  lemma OkStep(s: State, e: Event, k: nat)
    requires Enabled(s, e) && k in Apply(s, e).okEntries && k !in s.okEntries
    ensures e.Return? && e.d in s.work && s.work[e.d].entry == k
  {
  }

  /** An entry counts as succeeded only because a delivery of it returned normally. */
  lemma {:induction false} OkEntryReturned(cfg: Config, trace: seq<Event>, k: nat) returns (n: nat, d: nat)
    requires Run(cfg, trace) && k in After(cfg, trace).okEntries
    ensures n < |trace| && trace[n] == Return(d)
    ensures d in After(cfg, trace).work && After(cfg, trace).work[d].entry == k
  {
    var before := trace[..|trace| - 1];
    var e := trace[|trace| - 1];
    if k in After(cfg, before).okEntries {
      n, d := OkEntryReturned(cfg, before, k);
    } else {
      OkStep(After(cfg, before), e, k);
      n, d := |trace| - 1, e.d;
    }
    WorkOnlyGrows(After(cfg, before), e, d);
    DeliveryStep(After(cfg, before), e, d);
  }

  /** So an entry that left the pending list either succeeded or was dead-lettered first, by the
      very delivery that acknowledged it; whatever else happens leaves it pending. */
  lemma AckedEntryWasHandled(cfg: Config, trace: seq<Event>, i: nat)
    requires Run(cfg, trace) && i in After(cfg, trace).redis.acked
    ensures exists d: nat, m, n :: 0 <= m < n < |trace| && trace[n] == Ack(d, true) && Justifies(trace, m, d)
              && d in After(cfg, trace).work && After(cfg, trace).work[d].entry == i
  {
    var n, d := AckedWasAcknowledged(cfg, trace, i);
    AckComesAfterItsReason(cfg, trace, n);
    var m :| m < n && Justifies(trace, m, d);
  }

  /** An entry that has been executed, in whatever way the execution ended, is pending or acknowledged. */
  lemma {:induction false} ExecutedStaysClaimed(cfg: Config, trace: seq<Event>, d: nat)
    requires Run(cfg, trace) && d in After(cfg, trace).work
    ensures var s := After(cfg, trace);
            s.work[d].entry in s.redis.pending || s.work[d].entry in s.redis.acked
  {
    var before := trace[..|trace| - 1];
    var s, e := After(cfg, before), trace[|trace| - 1];
    if d in s.work {
      ExecutedStaysClaimed(cfg, before, d);
      DeliveryStep(s, e, d);
      AlwaysSound(cfg, before);
      RedisStep(s, e);
      ClaimedStep(s, e, s.work[d].entry);
    }
  }

  /** No step takes an entry out of both. */
  lemma ClaimedStep(s: State, e: Event, i: nat)
    requires Partitioned(s.redis) && Enabled(s, e) && (i in s.redis.pending || i in s.redis.acked)
    ensures i in Apply(s, e).redis.pending || i in Apply(s, e).redis.acked
  {
  }

  /** What a step of a delivery leaves behind for the rest of the run. */
  ghost predicate Effect(s: State, e: Event) {
    match e
    case Begin(d, entry, _) => d in s.work && s.work[d].entry == entry
    case Return(d) => d in s.work && s.work[d].entry in s.okEntries
    case Ack(d, applied) => d in s.work && (applied ==> s.work[d].entry in s.redis.acked)
    case Park(d, applied, _) =>
      && d in s.work && s.work[d].entry < |s.redis.log|
      && var job := s.redis.log[s.work[d].entry];
         applied ==> job.(attempts := job.attempts + 1) in s.redis.dlqLog
    case _ => true
  }

  lemma EffectNow(s: State, e: Event)
    requires Sound(s) && Enabled(s, e)
    requires e.Ack? ==> s.work[e.d].entry in s.redis.pending || s.work[e.d].entry in s.redis.acked
    ensures Effect(Apply(s, e), e)
  {
    if e.Park? {
      assert DeliveryOk(s, s.work[e.d]);
    }
  }

  lemma EffectKept(s: State, e: Event, f: Event)
    requires Sound(s) && Enabled(s, e) && Effect(s, f)
    ensures Effect(Apply(s, e), f)
  {
    hide Apply, Enabled, Partitioned, HistorySound, CallsSound, WorkSound;
    RedisStep(s, e);
    AckedOnlyGrows(s, e);
    if f.Begin? || f.Return? || f.Ack? || f.Park? {
      WorkOnlyGrows(s, e, f.d);
      DeliveryStep(s, e, f.d);
    }
  }

  lemma AckedOnlyGrows(s: State, e: Event)
    requires Enabled(s, e)
    ensures s.redis.acked <= Apply(s, e).redis.acked
  {
  }

  /** What has been acknowledged, dead-lettered or has succeeded at some step of a run is so at its end. */
  lemma {:induction false} EffectsLast(cfg: Config, trace: seq<Event>, e: Event)
    requires Run(cfg, trace) && e in trace
    ensures Effect(After(cfg, trace), e)
  {
    var before, last := trace[..|trace| - 1], trace[|trace| - 1];
    AlwaysSound(cfg, before);
    assert trace == before + [last];
    if e in before {
      EffectsLast(cfg, before, e);
      EffectKept(After(cfg, before), last, e);
    } else {
      if e.Ack? {
        ExecutedStaysClaimed(cfg, before, e.d);
      }
      EffectNow(After(cfg, before), e);
    }
  }

  lemma {:induction false} LogOnlyGrows(cfg: Config, start: seq<Event>, trace: seq<Event>)
    requires Run(cfg, trace) && start <= trace
    ensures Run(cfg, start) && After(cfg, start).redis.log <= After(cfg, trace).redis.log
  {
    if trace == start {
    } else {
      var before := trace[..|trace| - 1];
      assert start <= before;
      LogOnlyGrows(cfg, start, before);
      AlwaysSound(cfg, before);
      RedisStep(After(cfg, before), trace[|trace| - 1]);
    }
  }

  /** So a timeout, an exception, a cancellation or a crash at any await leaves the entry pending, or
      it was acknowledged by a delivery that had first returned normally or dead-lettered the job. */
  lemma AbandonedEntryStays(cfg: Config, trace: seq<Event>, d: nat)
    requires Run(cfg, trace) && d in After(cfg, trace).work
    ensures var s := After(cfg, trace);
            var i := s.work[d].entry;
            i in s.redis.pending ||
            exists d': nat, m, n :: 0 <= m < n < |trace| && trace[n] == Ack(d', true) && Justifies(trace, m, d')
              && d' in s.work && s.work[d'].entry == i
  {
    var s := After(cfg, trace);
    ExecutedStaysClaimed(cfg, trace, d);
    if s.work[d].entry in s.redis.acked {
      AckedEntryWasHandled(cfg, trace, s.work[d].entry);
    }
  }

  // -- hand-outs ------------------------------------------------------------------

  /** What the n-th event of a run hands to a worker. */
  ghost function HandedAt(cfg: Config, trace: seq<Event>, n: nat): set<nat>
    requires Run(cfg, trace) && n < |trace|
  {
    if trace[n].Read? then Handed(At(cfg, trace, n).redis, trace[n].count) else {}
  }

  lemma {:induction false} CursorOnlyAdvances(cfg: Config, trace: seq<Event>, m: nat, n: nat)
    requires Run(cfg, trace) && m <= n <= |trace|
    ensures At(cfg, trace, m).redis.cursor <= At(cfg, trace, n).redis.cursor
    decreases n - m
  {
    if m < n {
      AtStep(cfg, trace, m);
      PrefixRuns(cfg, trace, m);
      AlwaysSound(cfg, trace[..m]);
      var s := At(cfg, trace, m);
      match trace[m] {
        case Read(worker, count, now) => XReadGroupMoves(s.redis, worker, count, now);
        case CreateGroup => EnsureGroupKeepsAll(s.redis);
        case _ =>
      }
      CursorOnlyAdvances(cfg, trace, m + 1, n);
    }
  }

  /** No id is handed out by two reads of one run, whoever makes them. */
  lemma HandedOutOnce(cfg: Config, trace: seq<Event>, m: nat, n: nat)
    requires Run(cfg, trace) && m < n < |trace|
    ensures HandedAt(cfg, trace, m) !! HandedAt(cfg, trace, n)
  {
    AtStep(cfg, trace, m);
    PrefixRuns(cfg, trace, m);
    AlwaysSound(cfg, trace[..m]);
    if trace[m].Read? {
      XReadGroupMoves(At(cfg, trace, m).redis, trace[m].worker, trace[m].count, trace[m].now);
      CursorOnlyAdvances(cfg, trace, m + 1, n);
    }
  }

  // -- every job in the system can be serialised ----------------------------------

  ghost predicate Encodable(s: State) {
    forall i :: 0 <= i < |s.redis.log| ==> s.redis.log[i].status.Member?
  }

  lemma EncodableStep(s: State, e: Event)
    requires Encodable(s) && Enabled(s, e)
    ensures Encodable(Apply(s, e))
  {
  }

  lemma {:induction false} LogEncodable(cfg: Config, trace: seq<Event>)
    requires Run(cfg, trace)
    ensures Encodable(After(cfg, trace))
  {
    if trace != [] {
      var before := trace[..|trace| - 1];
      LogEncodable(cfg, before);
      EncodableStep(After(cfg, before), trace[|trace| - 1]);
    }
  }
}
