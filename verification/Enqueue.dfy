/** Enqueueing a job, and replaying a dead letter. */
module Enqueue {
  import opened Outcomes
  import opened Jobs
  import opened Redis
  import opened Protocol
  import opened NoLoss
  import opened Outbox
  import opened Transport
  import opened Site
  import opened Execute
  import Budget

  datatype EnqueueError =
    | Invalid
    | Unavailable
    | QueueFull
    | IdempotencyConflict
    | InsertFailed
    | NotAppended

  /** What the environment does during one call. */
  datatype CallPlan = CallPlan(
    valid: bool,
    depthKnown: bool,
    insertFails: bool,
    append: Reply,
    trim: nat,
    others: seq<seq<Event>>)

  /** What the shared state held against a call when its turn came, if anything. */
  datatype Fate = Passed | Full | KeyConflict | RowRefused

  /** Once the command has reached Redis. */
  function AppendedScript(c: nat, plan: CallPlan): Course {
    Wait(OthersAt(plan.others, 4), if plan.append.Arrives? then Stop else Do(HaltCall(c), Stop))
  }

  /** From the XADD on; `t` is where lazy trimming leaves the front. */
  function AppendScript(c: nat, job: Job, plan: CallPlan, t: nat): Course {
    if !Applied(plan.append) || !job.status.Member? then
      Do(HaltCall(c), Stop)
    else
      Do(Append(c, t), AppendedScript(c, plan))
  }

  function InsertScript(c: nat, job: Job, plan: CallPlan, fate: Fate, t: nat): Course {
    Do(Insert(c, plan.insertFails),
       if fate == RowRefused then Stop else Wait(OthersAt(plan.others, 3), AppendScript(c, job, plan, t)))
  }

  function LookupScript(c: nat, job: Job, plan: CallPlan, fate: Fate, t: nat): Course {
    Do(Lookup(c),
       if fate == KeyConflict then Stop else Wait(OthersAt(plan.others, 2), InsertScript(c, job, plan, fate, t)))
  }

  function CheckScript(c: nat, job: Job, key: Option<string>, replayOf: Option<nat>, plan: CallPlan, fate: Fate,
                       t: nat): Course
  {
    Do(CheckDepth(c, job, key, replayOf),
       if fate == Full then Stop
       else Wait(OthersAt(plan.others, 1), LookupScript(c, Keyed(job, key), plan, fate, t)))
  }

  /** The steps one call takes, their order, and the awaits between them: the specification of `Enqueue`. */
  function CallScript(c: nat, job: Job, key: Option<string>, replayOf: Option<nat>, plan: CallPlan, fate: Fate,
                      t: nat): Course
  {
    if !plan.valid then
      Stop
    else
      Wait(OthersAt(plan.others, 0),
           if plan.depthKnown then CheckScript(c, job, key, replayOf, plan, fate, t) else Stop)
  }

  lemma CallIsMine(c: nat, job: Job, key: Option<string>, replayOf: Option<nat>, plan: CallPlan, fate: Fate, t: nat)
    ensures AllMine(CallScript(c, job, key, replayOf, plan, fate, t), Producer(c))
  {
    assert AllMine(AppendedScript(c, plan), Producer(c));
    assert AllMine(AppendScript(c, Keyed(job, key), plan, t), Producer(c));
    assert AllMine(InsertScript(c, Keyed(job, key), plan, fate, t), Producer(c));
    assert AllMine(LookupScript(c, Keyed(job, key), plan, fate, t), Producer(c));
    assert AllMine(CheckScript(c, job, key, replayOf, plan, fate, t), Producer(c));
  }

  // -- the fate of a call, from the state it starts in and what the others do ---------

  /** From the insert on. */
  function InsertFate(s: State, job: Job, plan: CallPlan): Fate {
    if s.cfg.hasStore && (plan.insertFails || !Accepts(s.db, job)) then RowRefused else Passed
  }

  /** From the lookup on. */
  function LookupFate(s: State, c: nat, job: Job, lookup: bool, plan: CallPlan): Fate {
    if lookup && s.cfg.hasStore && job.key.Some? && KeyTaken(s.db.rows, job.key.value) then
      KeyConflict
    else
      InsertFate(Elapsed(Next(s, Lookup(c)), OthersAt(plan.others, 2), Producer(c)), job, plan)
  }

  /** From the depth check on. */
  function CheckFate(s: State, c: nat, job: Job, key: Option<string>, replayOf: Option<nat>, plan: CallPlan): Fate {
    if Length(s.redis) >= s.cfg.maxDepth then
      Full
    else
      LookupFate(Elapsed(Next(s, CheckDepth(c, job, key, replayOf)), OthersAt(plan.others, 1), Producer(c)), c,
                 Keyed(job, key), Given(key), plan)
  }

  /** The state in which a call started in `s` checks the depth. */
  function AtCheck(s: State, c: nat, plan: CallPlan): State {
    Elapsed(s, OthersAt(plan.others, 0), Producer(c))
  }

  /** Without a store only the depth can stop a call. */
  lemma FateWithoutStore(s: State, c: nat, job: Job, key: Option<string>, replayOf: Option<nat>, plan: CallPlan)
    requires !s.cfg.hasStore
    ensures CheckFate(s, c, job, key, replayOf, plan) == if Length(s.redis) >= s.cfg.maxDepth then Full else Passed
  {
    var e := CheckDepth(c, job, key, replayOf);
    NextKeepsConfig(s, e);
    ElapsedKeepsConfig(Next(s, e), OthersAt(plan.others, 1), Producer(c));
    var looked := Elapsed(Next(s, e), OthersAt(plan.others, 1), Producer(c));
    NextKeepsConfig(looked, Lookup(c));
    ElapsedKeepsConfig(Next(looked, Lookup(c)), OthersAt(plan.others, 2), Producer(c));
  }

  /** What stands against a call at each of its three steps, in terms of what is in Redis and the table. */
  lemma FateMeans(s: State, c: nat, job: Job, key: Option<string>, replayOf: Option<nat>, plan: CallPlan)
    ensures CheckFate(s, c, job, key, replayOf, plan) == Full <==> |s.redis.log| - s.redis.trimmed >= s.cfg.maxDepth
    ensures forall lookup :: LookupFate(s, c, job, lookup, plan) == KeyConflict <==>
              lookup && s.cfg.hasStore && job.key.Some? &&
              exists id :: id in s.db.rows && s.db.rows[id].job.key == job.key
    ensures InsertFate(s, job, plan) == RowRefused <==>
            s.cfg.hasStore &&
            (plan.insertFails || s.db.open || !job.status.Member? ||
             exists id :: id in s.db.rows &&
               (id == job.id || (job.key.Some? && s.db.rows[id].job.key == job.key)))
    ensures InsertFate(s, job, plan) != RowRefused ==> InsertFate(s, job, plan) == Passed
  {
  }

  lemma NextKeepsConfig(s: State, e: Event)
    ensures Next(s, e).cfg == s.cfg
  {
    if Enabled(s, e) {
      KeepsConfig(s, e);
    }
  }

  /** How the call ends: None is success. */
  function Failure(job: Job, plan: CallPlan, fate: Fate): Option<EnqueueError> {
    if !plan.valid then
      Some(Invalid)
    else if !plan.depthKnown then
      Some(Unavailable)
    else
      match fate
      case Full => Some(QueueFull)
      case KeyConflict => Some(IdempotencyConflict)
      case RowRefused => Some(InsertFailed)
      case Passed => if job.status.Member? && plan.append.Arrives? then None else Some(NotAppended)
  }

  /** Which error belongs to which end of the call, in terms of the steps it has taken by then. */
  lemma FailureMeans(c: nat, job: Job, key: Option<string>, replayOf: Option<nat>, plan: CallPlan, fate: Fate, t: nat)
    ensures var own, failure := Steps(CallScript(c, job, key, replayOf, plan, fate, t)), Failure(job, plan, fate);
            var check, insert := CheckDepth(c, job, key, replayOf), Insert(c, plan.insertFails);
            && (failure == Some(Invalid) <==> !plan.valid)
            && (failure == Some(Unavailable) <==> plan.valid && !plan.depthKnown)
            && (failure in {Some(Invalid), Some(Unavailable)} <==> own == [])
            && (failure == Some(QueueFull) <==> own == [check])
            && (failure == Some(IdempotencyConflict) <==> own == [check, Lookup(c)])
            && (failure == Some(InsertFailed) <==> own == [check, Lookup(c), insert])
            && (failure == Some(NotAppended) <==> HaltCall(c) in own)
            && (failure == None <==> own == [check, Lookup(c), insert, Append(c, t)])
  {
    hide Steps, CallScript;
    CallInOrder(c, job, key, replayOf, plan, fate, t);
  }

  lemma CallInOrder(c: nat, job: Job, key: Option<string>, replayOf: Option<nat>, plan: CallPlan, fate: Fate, t: nat)
    ensures var check, insert := CheckDepth(c, job, key, replayOf), Insert(c, plan.insertFails);
            Steps(CallScript(c, job, key, replayOf, plan, fate, t)) ==
            if !plan.valid || !plan.depthKnown then []
            else if fate == Full then [check]
            else if fate == KeyConflict then [check, Lookup(c)]
            else if fate == RowRefused then [check, Lookup(c), insert]
            else if !Applied(plan.append) || !job.status.Member? then [check, Lookup(c), insert, HaltCall(c)]
            else [check, Lookup(c), insert, Append(c, t)] + if plan.append.Arrives? then [] else [HaltCall(c)]
  {
    var keyed := Keyed(job, key);
    OneStep(HaltCall(c));
    assert Steps(AppendScript(c, keyed, plan, t)) ==
           if !Applied(plan.append) || !job.status.Member? then [HaltCall(c)]
           else [Append(c, t)] + if plan.append.Arrives? then [] else [HaltCall(c)];
    assert Steps(InsertScript(c, keyed, plan, fate, t)) ==
           [Insert(c, plan.insertFails)] + (if fate == RowRefused then [] else Steps(AppendScript(c, keyed, plan, t)));
    assert Steps(LookupScript(c, keyed, plan, fate, t)) ==
           [Lookup(c)] + (if fate == KeyConflict then [] else Steps(InsertScript(c, keyed, plan, fate, t)));
    assert Steps(CheckScript(c, job, key, replayOf, plan, fate, t)) ==
           [CheckDepth(c, job, key, replayOf)] +
           (if fate == Full then [] else Steps(LookupScript(c, keyed, plan, fate, t)));
  }

  /** The awaits of a call that goes all the way. */
  lemma CallAwaits(c: nat, job: Job, key: Option<string>, replayOf: Option<nat>, plan: CallPlan, t: nat)
    requires plan.valid && plan.depthKnown && Applied(plan.append) && job.status.Member?
    ensures CallScript(c, job, key, replayOf, plan, Passed, t) ==
            Wait(OthersAt(plan.others, 0), Do(CheckDepth(c, job, key, replayOf),
            Wait(OthersAt(plan.others, 1), Do(Lookup(c),
            Wait(OthersAt(plan.others, 2), Do(Insert(c, plan.insertFails),
            Wait(OthersAt(plan.others, 3), Do(Append(c, t),
            Wait(OthersAt(plan.others, 4), if plan.append.Arrives? then Stop else Do(HaltCall(c), Stop))))))))))
  {
  }

  predicate Ends(r: Result<nat, EnqueueError>, failure: Option<EnqueueError>) {
    match r
    case Ok(_) => failure.None?
    case Err(error) => failure == Some(error)
  }

  /** Where the call stands when it has ended: refused exactly when the shared state was against it, and
      with its job on the stream at the returned id when it succeeded. */
  predicate Placed(s: State, c: nat, job: Job, replayOf: Option<nat>, fate: Fate, r: Result<nat, EnqueueError>) {
    && c in s.calls && s.calls[c].job == job && s.calls[c].replayOf == replayOf
    && (fate != Passed <==> s.calls[c].phase == Refused)
    && (r.Ok? ==> InPhase(s, c, Added(r.value)) && r.value < |s.redis.log| && s.redis.log[r.value] == job)
  }

  /** A job gets as far as XADD exactly when everything before lets it through; and enqueueing never
      drops a record. */
  lemma ScriptAppends(c: nat, job: Job, key: Option<string>, replayOf: Option<nat>, plan: CallPlan, fate: Fate, t: nat)
    ensures var own := Steps(CallScript(c, job, key, replayOf, plan, fate, t));
            && (Append(c, t) in own <==>
                  plan.valid && plan.depthKnown && fate == Passed && Applied(plan.append) && job.status.Member?)
            && (forall e :: e in own && e.Append? ==> e == Append(c, t))
            && (forall e :: e in own ==> !e.DropRecord?)
  {
    hide Steps, CallScript;
    CallInOrder(c, job, key, replayOf, plan, fate, t);
  }

  /** The key a caller gives replaces the job's own; an empty one counts as not given. */
  lemma KeyIsCarried(job: Job, key: Option<string>)
    ensures Keyed(job, key).key == (if key == None || key == Some("") then job.key else key)
    ensures Keyed(job, key).(key := job.key) == job
  {
  }

  /** A replay carries the work of its record. */
  predicate ReplaysWork(r: Broker, job: Job, key: Option<string>, replayOf: Option<nat>) {
    replayOf.Some? ==> replayOf.value < |r.dlqLog| && SameWork(Keyed(job, key), r.dlqLog[replayOf.value])
  }

  class Enqueuer {
    const site: Site

    constructor (site: Site)
      ensures this.site == site
    {
      this.site := site;
    }

    method Await(k: nat, c: nat, plan: CallPlan)
      requires site.Valid()
      modifies site, site.transport, site.store
      ensures site.Valid()
      ensures site.trace == old(site.trace) + Meanwhile(old(site.View()), OthersAt(plan.others, k), Producer(c))
      ensures site.View() == Elapsed(old(site.View()), OthersAt(plan.others, k), Producer(c))
      ensures c in old(site.calls) ==> c in site.calls && site.calls[c] == old(site.calls[c])
      ensures c !in old(site.calls) ==> c !in site.calls
      ensures Grows(old(site.View()), site.View())
    {
      site.Await(OthersAt(plan.others, k), Producer(c));
    }

    /** Under every schedule of the others, what happens from the call to its end is exactly what the script
        says: validation, depth check, key lookup, outbox row, XADD, in that order, each taken if and only
        if everything before it went well, and at each await the steps the others take then.  Whether
        anything stands against the call is known from the state it starts in and the schedule. */
    method Enqueue(c: nat, job: Job, key: Option<string>, replayOf: Option<nat>, plan: CallPlan)
      returns (r: Result<nat, EnqueueError>, ghost fate: Fate, ghost t: nat)
      requires site.Valid() && c !in site.calls
      requires ReplaysWork(site.transport.View(), job, key, replayOf)
      modifies site, site.transport, site.store
      ensures site.Valid()
      ensures site.trace == old(site.trace) +
                Unfold(old(site.View()), CallScript(c, job, key, replayOf, plan, fate, t), Producer(c))
      ensures site.View() == Arrive(old(site.View()), CallScript(c, job, key, replayOf, plan, fate, t), Producer(c))
      ensures Own(site.trace, Producer(c)) == Steps(CallScript(c, job, key, replayOf, plan, fate, t))
      ensures fate == CheckFate(AtCheck(old(site.View()), c, plan), c, job, key, replayOf, plan)
      ensures Ends(r, Failure(job, plan, fate))
      ensures if plan.valid && plan.depthKnown then Placed(site.View(), c, Keyed(job, key), replayOf, fate, r)
              else c !in site.calls
    {
      hide Run, After, Own, Unfold, Arrive, Meanwhile, Elapsed, Apply, Enabled, CheckFate;
      ghost var start, s := site.trace, site.View();
      UnknownHasNoSteps(site.cfg, start, Producer(c));
      r, fate, t := EnqueueOnce(c, job, key, replayOf, plan);
      CallIsMine(c, job, key, replayOf, plan, fate, t);
      OwnUnfold(s, CallScript(c, job, key, replayOf, plan, fate, t), Producer(c));
      OwnJoin(start, Unfold(s, CallScript(c, job, key, replayOf, plan, fate, t), Producer(c)), Producer(c));
    }

    method EnqueueOnce(c: nat, job: Job, key: Option<string>, replayOf: Option<nat>, plan: CallPlan)
      returns (r: Result<nat, EnqueueError>, ghost fate: Fate, ghost t: nat)
      requires site.Valid() && c !in site.calls
      requires ReplaysWork(site.transport.View(), job, key, replayOf)
      modifies site, site.transport, site.store
      ensures site.Valid()
      ensures site.trace == old(site.trace) +
                Unfold(old(site.View()), CallScript(c, job, key, replayOf, plan, fate, t), Producer(c))
      ensures site.View() == Arrive(old(site.View()), CallScript(c, job, key, replayOf, plan, fate, t), Producer(c))
      ensures fate == CheckFate(AtCheck(old(site.View()), c, plan), c, job, key, replayOf, plan)
      ensures Ends(r, Failure(job, plan, fate))
      ensures if plan.valid && plan.depthKnown then Placed(site.View(), c, Keyed(job, key), replayOf, fate, r)
              else c !in site.calls
    {
      hide Run, After, Own, Unfold, Arrive, Meanwhile, Elapsed, Apply, Enabled, CheckFate;
      ghost var start, s := site.trace, site.View();
      fate, t := CheckFate(AtCheck(site.View(), c, plan), c, job, key, replayOf, plan), 0;
      AlongStop(start, s, Producer(c));
      if !plan.valid {
        return Err(Invalid), fate, t;
      }
      Await(0, c, plan);
      AlongStop(site.trace, site.View(), Producer(c));
      if !plan.depthKnown {
        AlongWait(start, s, OthersAt(plan.others, 0), Stop, Producer(c));
        return Err(Unavailable), fate, t;
      }
      r, fate, t := EnqueueMeasured(c, job, key, replayOf, plan);
      AlongWait(start, s, OthersAt(plan.others, 0), CheckScript(c, job, key, replayOf, plan, fate, t), Producer(c));
    }

    method EnqueueMeasured(c: nat, job: Job, key: Option<string>, replayOf: Option<nat>, plan: CallPlan)
      returns (r: Result<nat, EnqueueError>, ghost fate: Fate, ghost t: nat)
      requires site.Valid() && c !in site.calls && plan.valid && plan.depthKnown
      requires ReplaysWork(site.transport.View(), job, key, replayOf)
      modifies site, site.transport, site.store
      ensures site.Valid()
      ensures site.trace == old(site.trace) +
                Unfold(old(site.View()), CheckScript(c, job, key, replayOf, plan, fate, t), Producer(c))
      ensures site.View() == Arrive(old(site.View()), CheckScript(c, job, key, replayOf, plan, fate, t), Producer(c))
      ensures fate == CheckFate(old(site.View()), c, job, key, replayOf, plan)
      ensures Ends(r, Failure(job, plan, fate))
      ensures Placed(site.View(), c, Keyed(job, key), replayOf, fate, r)
    {
      hide Run, After, Own, Unfold, Arrive, Meanwhile, Elapsed, Apply, Enabled, LookupFate;
      ghost var start, s, e := site.trace, site.View(), CheckDepth(c, job, key, replayOf);
      var full := CheckQueueDepth(c, job, key, replayOf);
      ghost var checked, after := site.trace, site.View();
      if full {
        AlongLast(start, s, e, Producer(c));
        return Err(QueueFull), Full, 0;
      }
      Await(1, c, plan);
      r, fate, t := EnqueueUnchecked(c, plan);
      ghost var rest := LookupScript(c, Keyed(job, key), plan, fate, t);
      AlongWait(checked, after, OthersAt(plan.others, 1), rest, Producer(c));
      AlongStep(start, s, e, Wait(OthersAt(plan.others, 1), rest), Producer(c));
      assert Failure(job, plan, fate) == Failure(Keyed(job, key), plan, fate);
    }

    method EnqueueUnchecked(c: nat, plan: CallPlan)
      returns (r: Result<nat, EnqueueError>, ghost fate: Fate, ghost t: nat)
      requires site.Valid() && InPhase(site.View(), c, Checked) && plan.valid && plan.depthKnown
      modifies site, site.transport, site.store
      ensures site.Valid() && fate != Full
      ensures var call, s := old(site.calls[c]), old(site.View());
              && site.trace == old(site.trace) + Unfold(s, LookupScript(c, call.job, plan, fate, t), Producer(c))
              && site.View() == Arrive(s, LookupScript(c, call.job, plan, fate, t), Producer(c))
              && fate == LookupFate(s, c, call.job, call.lookup, plan)
              && Ends(r, Failure(call.job, plan, fate))
              && Placed(site.View(), c, call.job, call.replayOf, fate, r)
    {
      hide Run, After, Own, Unfold, Arrive, Meanwhile, Elapsed, Apply, Enabled, InsertFate;
      ghost var start, s, job := site.trace, site.View(), site.calls[c].job;
      var conflict := LookUpKey(c);
      ghost var looked, after := site.trace, site.View();
      if conflict {
        AlongLast(start, s, Lookup(c), Producer(c));
        return Err(IdempotencyConflict), KeyConflict, 0;
      }
      Await(2, c, plan);
      r, fate, t := EnqueueLookedUp(c, plan);
      AlongWait(looked, after, OthersAt(plan.others, 2), InsertScript(c, job, plan, fate, t), Producer(c));
      AlongStep(start, s, Lookup(c), Wait(OthersAt(plan.others, 2), InsertScript(c, job, plan, fate, t)), Producer(c));
    }

    method EnqueueLookedUp(c: nat, plan: CallPlan)
      returns (r: Result<nat, EnqueueError>, ghost fate: Fate, ghost t: nat)
      requires site.Valid() && InPhase(site.View(), c, Looked) && plan.valid && plan.depthKnown
      modifies site, site.transport, site.store
      ensures site.Valid() && fate in {Passed, RowRefused}
      ensures var call, s := old(site.calls[c]), old(site.View());
              && site.trace == old(site.trace) + Unfold(s, InsertScript(c, call.job, plan, fate, t), Producer(c))
              && site.View() == Arrive(s, InsertScript(c, call.job, plan, fate, t), Producer(c))
              && fate == InsertFate(s, call.job, plan)
              && Ends(r, Failure(call.job, plan, fate))
              && Placed(site.View(), c, call.job, call.replayOf, fate, r)
    {
      hide Run, After, Own, Unfold, Arrive, Meanwhile, Elapsed, Apply, Enabled;
      ghost var start, s, job := site.trace, site.View(), site.calls[c].job;
      var inserted := InsertRow(c, plan.insertFails);
      ghost var done, after := site.trace, site.View();
      if !inserted {
        AlongLast(start, s, Insert(c, plan.insertFails), Producer(c));
        return Err(InsertFailed), RowRefused, 0;
      }
      Await(3, c, plan);
      fate := Passed;
      r, t := AppendJob(c, plan);
      ghost var rest := Wait(OthersAt(plan.others, 3), AppendScript(c, job, plan, t));
      AlongWait(done, after, OthersAt(plan.others, 3), AppendScript(c, job, plan, t), Producer(c));
      AlongStep(start, s, Insert(c, plan.insertFails), rest, Producer(c));
    }

    method CheckQueueDepth(c: nat, job: Job, key: Option<string>, replayOf: Option<nat>) returns (full: bool)
      requires site.Valid() && c !in site.calls
      requires ReplaysWork(site.transport.View(), job, key, replayOf)
      modifies site
      ensures site.Valid() && site.trace == old(site.trace) + [CheckDepth(c, job, key, replayOf)]
      ensures site.View() == Next(old(site.View()), CheckDepth(c, job, key, replayOf))
      ensures full <==> Length(site.transport.View()) >= site.cfg.maxDepth
      ensures c in site.calls
      ensures site.calls[c] == Call(Keyed(job, key), Given(key), replayOf, if full then Refused else Checked, false)
    {
      hide Run, After, Own;
      var depth := site.transport.StreamLength();
      full := depth >= site.cfg.maxDepth;
      var keyed := if Given(key) then job.(key := key) else job;
      site.calls := site.calls[c := Call(keyed, Given(key), replayOf, if full then Refused else Checked, false)];
      site.Log(CheckDepth(c, job, key, replayOf), Producer(c));
    }

    method LookUpKey(c: nat) returns (conflict: bool)
      requires site.Valid() && InPhase(site.View(), c, Checked)
      modifies site
      ensures site.Valid() && site.trace == old(site.trace) + [Lookup(c)]
      ensures site.View() == Next(old(site.View()), Lookup(c))
      ensures var call := old(site.calls[c]);
              && (conflict <==> call.lookup && site.cfg.hasStore && call.job.key.Some? &&
                                KeyTaken(site.store.rows, call.job.key.value))
              && c in site.calls && site.calls[c] == call.(phase := if conflict then Refused else Looked)
    {
      hide Run, After, Own;
      var call := site.calls[c];
      conflict := false;
      if call.lookup && site.cfg.hasStore && call.job.key.Some? {
        conflict := site.store.FindByIdempotencyKey(call.job.key.value);
      }
      site.calls := site.calls[c := call.(phase := if conflict then Refused else Looked)];
      site.Log(Lookup(c), Producer(c));
    }

    method InsertRow(c: nat, fails: bool) returns (inserted: bool)
      requires site.Valid() && InPhase(site.View(), c, Looked)
      modifies site, site.store
      ensures site.Valid() && site.trace == old(site.trace) + [Insert(c, fails)]
      ensures site.View() == Next(old(site.View()), Insert(c, fails))
      ensures inserted <==> !site.cfg.hasStore || (!fails && Accepts(old(site.store.View()), old(site.calls[c].job)))
      ensures c in site.calls && site.calls[c] == old(site.calls[c]).(phase := if inserted then Ready else Refused)
    {
      hide Run, After, Own;
      AlwaysCommitted(site.cfg, site.trace);
      var call := site.calls[c];
      inserted := true;
      if site.cfg.hasStore {
        var r := site.store.InsertInTransaction(call.job, fails);
        inserted := r.Ok?;
      }
      site.calls := site.calls[c := call.(phase := if inserted then Ready else Refused)];
      site.Log(Insert(c, fails), Producer(c));
    }

    method AppendJob(c: nat, plan: CallPlan) returns (r: Result<nat, EnqueueError>, ghost t: nat)
      requires site.Valid() && InPhase(site.View(), c, Ready) && plan.valid && plan.depthKnown
      modifies site, site.transport, site.store
      ensures site.Valid()
      ensures var call, s := old(site.calls[c]), old(site.View());
              && site.trace == old(site.trace) + Unfold(s, AppendScript(c, call.job, plan, t), Producer(c))
              && site.View() == Arrive(s, AppendScript(c, call.job, plan, t), Producer(c))
              && Ends(r, Failure(call.job, plan, Passed))
              && Placed(site.View(), c, call.job, call.replayOf, Passed, r)
    {
      hide Run, After, Own, Unfold, Arrive, Meanwhile, Elapsed, Apply, Enabled;
      ghost var start, s := site.trace, site.View();
      if !Applied(plan.append) || !site.calls[c].job.status.Member? {
        // Serialising raised, or the command never reached Redis.
        HaltEnqueue(c);
        AlongLast(start, s, HaltCall(c), Producer(c));
        return Err(NotAppended), 0;
      }
      var i;
      i, t := SendAppend(c, plan.trim);
      ghost var sent, after := site.trace, site.View();
      Await(4, c, plan);
      ghost var waited, later, rest := site.trace, site.View(), Course.Stop;
      AlongStop(waited, later, Producer(c));
      if plan.append.Arrives? {
        r := Ok(i);
      } else {
        HaltEnqueue(c);
        AlongLast(waited, later, HaltCall(c), Producer(c));
        r, rest := Err(NotAppended), Do(HaltCall(c), Course.Stop);
      }
      AlongWait(sent, after, OthersAt(plan.others, 4), rest, Producer(c));
      AlongStep(start, s, Append(c, t), Wait(OthersAt(plan.others, 4), rest), Producer(c));
    }

    method SendAppend(c: nat, trim: nat) returns (i: nat, t: nat)
      requires site.Valid() && InPhase(site.View(), c, Ready) && site.calls[c].job.status.Member?
      modifies site, site.transport
      ensures site.Valid() && site.trace == old(site.trace) + [Append(c, t)]
      ensures site.View() == Next(old(site.View()), Append(c, t))
      ensures InPhase(site.View(), c, Added(i)) && site.calls[c] == old(site.calls[c]).(phase := Added(i))
      ensures i < |site.transport.log| && site.transport.log[i] == old(site.calls[c].job)
    {
      hide Run, After, Own, AllWritten;
      AlwaysSound(site.cfg, site.trace);
      var maxlen := site.cfg.maxDepth + SLACK;
      t := if TrimAllowed(site.transport.View(), maxlen, trim) then trim else site.transport.trimmed;
      var call := site.calls[c];
      var r := site.transport.XAdd(call.job, maxlen, t);
      i := r.value;
      site.calls := site.calls[c := call.(phase := Added(i))];
      if call.replayOf.Some? {
        site.replayed := site.replayed + {call.replayOf.value};
      }
      site.Log(Append(c, t), Producer(c));
    }

    method HaltEnqueue(c: nat)
      requires site.Valid() && c in site.calls && !site.calls[c].halted && !site.calls[c].phase.Refused?
      modifies site
      ensures site.Valid() && site.trace == old(site.trace) + [HaltCall(c)]
      ensures site.View() == Next(old(site.View()), HaltCall(c))
      ensures c in site.calls && site.calls[c] == old(site.calls[c]).(halted := true)
    {
      hide Run, After, Own;
      site.calls := site.calls[c := site.calls[c].(halted := true)];
      site.Log(HaltCall(c), Producer(c));
    }

    // -- replay -----------------------------------------------------------------

    /** Find the record, re-enqueue its job with a fresh count, then delete the record.  `status` is
        what the endpoint assigns to the job; no validation hook is passed.  It succeeds exactly when the
        record is found and the state at the depth check lets it through. */
    method Replay(c: nat, jobId: string, status: StatusField, plan: CallPlan, drop: Reply)
      returns (r: Result<nat, ReplayError>, ghost k: nat, ghost fate: Fate, ghost t: nat)
      requires site.Valid() && c !in site.calls && plan.valid
      modifies site, site.transport, site.store
      ensures site.Valid()
      ensures r == Err(NotInDlq) <==> !Findable(old(site.transport.View()), jobId)
      ensures r == Err(NotInDlq) ==> site.trace == old(site.trace) && Own(site.trace, Producer(c)) == []
      ensures r != Err(NotInDlq) ==>
                && NewestRecord(old(site.transport.View()), jobId, k)
                && site.trace == old(site.trace) + Meanwhile(old(site.View()), OthersAt(plan.others, 5), Producer(c)) +
                     ReplayUnfold(Found(old(site.View()), c, plan), c, Renewed(old(site.transport.dlqLog)[k], status),
                                  k, plan, fate, t, drop)
                && ReplayEnds(site.View(), Own(site.trace, Producer(c)), c,
                              Renewed(old(site.transport.dlqLog)[k], status), k, plan, fate, t, drop, r)
      ensures r.Ok? <==> && Findable(old(site.transport.View()), jobId)
                         && LetsThrough(AtCheck(Found(old(site.View()), c, plan), c, plan), status, plan, drop)
      ensures plan.others == [] ==>
                (r.Ok? <==> Findable(old(site.transport.View()), jobId) &&
                            LetsThrough(old(site.View()), status, plan, drop))
    {
      hide Run, After, Own, Unfold, Arrive, Meanwhile, Apply, Enabled;
      k, fate, t := 0, Passed, 0;
      AlwaysSound(site.cfg, site.trace);
      UnknownHasNoSteps(site.cfg, site.trace, Producer(c));
      var found := site.transport.ReadDlqEntry(jobId);
      if found.None? {
        return Err(NotInDlq), k, fate, t;
      }
      var (record, dead) := found.value;
      k := record;
      Await(5, c, plan);
      r, fate, t := ReplayRecord(c, Renewed(dead, status), record, plan, drop);
    }

    method ReplayRecord(c: nat, job: Job, k: nat, plan: CallPlan, drop: Reply)
      returns (r: Result<nat, ReplayError>, ghost fate: Fate, ghost t: nat)
      requires site.Valid() && c !in site.calls && plan.valid
      requires k < |site.transport.dlqLog| && SameWork(job, site.transport.dlqLog[k])
      modifies site, site.transport, site.store
      ensures site.Valid()
      ensures site.trace == old(site.trace) + ReplayUnfold(old(site.View()), c, job, k, plan, fate, t, drop)
      ensures ReplayEnds(site.View(), Own(site.trace, Producer(c)), c, job, k, plan, fate, t, drop, r)
      ensures r.Ok? <==> LetsThrough(AtCheck(old(site.View()), c, plan), job.status, plan, drop)
    {
      hide Run, After, Own, Unfold, Arrive, Meanwhile, Elapsed, Apply, Enabled, CheckFate, LetsThrough, Placed;
      ghost var start, s := site.trace, site.View();
      var added;
      added, fate, t := Enqueue(c, job, None, Some(k), plan);
      if site.cfg.hasStore {
        StoredReplayFails(site.cfg, site.trace, c, job, k, plan, fate, added);
      }
      ReplayVerdict(s, c, job, k, plan, drop);
      PlacedOk(site.View(), c, job, Some(k), fate, added);
      if added.Err? {
        AlongStop(site.trace, site.View(), Producer(c));
        return Err(NotEnqueued(added.error)), fate, t;
      }
      r := DropRecord(c, plan, drop, added.value);
    }

    method DropRecord(c: nat, plan: CallPlan, drop: Reply, i: nat) returns (r: Result<nat, ReplayError>)
      requires site.Valid() && InPhase(site.View(), c, Added(i)) && site.calls[c].replayOf.Some?
      requires i < |site.transport.log|
      modifies site, site.transport, site.store
      ensures site.Valid()
      ensures site.trace == old(site.trace) + Unfold(old(site.View()), DropScript(c, plan, drop), Producer(c))
      ensures Own(site.trace, Producer(c)) == old(Own(site.trace, Producer(c))) + Steps(DropScript(c, plan, drop))
      ensures i < |site.transport.log| && site.transport.log[i] == old(site.transport.log[i])
      ensures r == if drop.Arrives? then Ok(i) else Err(NotDropped)
      ensures Applied(drop) ==> old(site.calls[c].replayOf.value) !in site.transport.dlqLive
    {
      hide Run, After, Own, Unfold, Arrive, Meanwhile, Elapsed, Apply, Enabled;
      ghost var start, s, e := site.trace, site.View(), if Applied(drop) then Event.DropRecord(c) else HaltCall(c);
      Await(6, c, plan);
      ghost var waited, later := site.trace, site.View();
      if Applied(drop) {
        SendDelete(c, i);
      } else {
        HaltEnqueue(c);
      }
      r := if drop.Arrives? then Ok(i) else Err(NotDropped);
      AlongLast(waited, later, e, Producer(c));
      AlongWait(start, s, OthersAt(plan.others, 6), Do(e, Stop), Producer(c));
      OwnUnfold(s, DropScript(c, plan, drop), Producer(c));
      OwnJoin(start, Unfold(s, DropScript(c, plan, drop), Producer(c)), Producer(c));
    }

    method SendDelete(c: nat, i: nat)
      requires site.Valid() && InPhase(site.View(), c, Added(i)) && site.calls[c].replayOf.Some?
      modifies site, site.transport
      ensures site.Valid() && site.trace == old(site.trace) + [Event.DropRecord(c)]
      ensures site.View() == Next(old(site.View()), Event.DropRecord(c))
      ensures old(site.calls[c].replayOf.value) !in site.transport.dlqLive
      ensures site.transport.log == old(site.transport.log)
    {
      hide Run, After, Own;
      site.transport.DeleteDlqEntry(site.calls[c].replayOf.value);
      site.calls := site.calls[c := site.calls[c].(phase := Done(i))];
      site.Log(Event.DropRecord(c), Producer(c));
    }

    /** As the endpoint stands: it assigns the plain string "pending" to `job.status`, so no replay
        ever succeeds, reaches the stream or drops its record. */
    method ReplayDlqJob(c: nat, jobId: string, plan: CallPlan, drop: Reply) returns (r: Result<nat, ReplayError>)
      requires site.Valid() && c !in site.calls && plan.valid
      modifies site, site.transport, site.store
      ensures site.Valid() && r.Err?
      ensures r == Err(NotInDlq) <==> !Findable(old(site.transport.View()), jobId)
      ensures forall e :: e in Own(site.trace, Producer(c)) ==> !e.Append? && !e.DropRecord?
    {
      hide Run, After, Own, Unfold, Arrive, Meanwhile, Elapsed, Apply, Enabled;
      ghost var k, fate, t;
      r, k, fate, t := Replay(c, jobId, Text("pending"), plan, drop);
      if r != Err(NotInDlq) {
        ScriptAppends(c, Renewed(old(site.transport.dlqLog)[k], Text("pending")), None, Some(k), plan, fate, t);
      }
    }
  }

  datatype ReplayError = NotInDlq | NotEnqueued(error: EnqueueError) | NotDropped

  /** The job a replay enqueues. */
  function Renewed(record: Job, status: StatusField): Job {
    record.(status := status, attempts := 0)
  }

  /** It is the same work with its whole budget back: failing again and again with its count carried, it
      runs max_retries + 1 times before it is dead-lettered a second time. */
  lemma ReplayRestoresBudget(record: Job, status: StatusField, plans: nat -> Plan)
    requires record.maxRetries >= 0 && forall i :: Budget.Fails(plans(i))
    ensures SameWork(Renewed(record, status), record) && Renewed(record, status).status == status
    ensures |Budget.Chain(Renewed(record, status), plans)| == record.maxRetries + 1
  {
    Budget.ChainSpendsTheBudget(Renewed(record, status), plans);
  }

  /** A record of the job is live and among the 200 newest. */
  predicate Findable(r: Broker, jobId: string) {
    exists k :: k in r.dlqLive && k < |r.dlqLog| && r.dlqLog[k].id == jobId && |LiveFrom(r.dlqLive, k)| <= 200
  }

  predicate NewestRecord(r: Broker, jobId: string, k: nat) {
    && k in r.dlqLive && k < |r.dlqLog| && r.dlqLog[k].id == jobId
    && forall j :: k < j < |r.dlqLog| && j in r.dlqLive ==> r.dlqLog[j].id != jobId
  }

  /** The state in which a replay started in `s` goes on after its read of the record. */
  function Found(s: State, c: nat, plan: CallPlan): State {
    Elapsed(s, OthersAt(plan.others, 5), Producer(c))
  }

  function DropScript(c: nat, plan: CallPlan, drop: Reply): Course {
    Wait(OthersAt(plan.others, 6), Do(if Applied(drop) then Event.DropRecord(c) else HaltCall(c), Stop))
  }

  /** Dropping the record, if its job was enqueued. */
  function DropAfter(c: nat, job: Job, plan: CallPlan, fate: Fate, drop: Reply): Course {
    if Failure(job, plan, fate).None? then DropScript(c, plan, drop) else Stop
  }

  lemma DropSteps(c: nat, job: Job, plan: CallPlan, fate: Fate, drop: Reply)
    ensures Steps(DropAfter(c, job, plan, fate, drop)) ==
            if Failure(job, plan, fate).Some? then []
            else [if drop.Arrives? || drop.applied then Event.DropRecord(c) else HaltCall(c)]
  {
    OneStep(if Applied(drop) then Event.DropRecord(c) else HaltCall(c));
  }

  /** Everything that happens from the enqueueing of the record's job on. */
  function ReplayUnfold(s: State, c: nat, job: Job, k: nat, plan: CallPlan, fate: Fate, t: nat,
                        drop: Reply): seq<Event> {
    var call := CallScript(c, job, None, Some(k), plan, fate, t);
    Unfold(s, call, Producer(c)) +
    Unfold(Arrive(s, call, Producer(c)), DropAfter(c, job, plan, fate, drop), Producer(c))
  }

  /** How a replay that found its record ends.  The record is dropped last, and only after its job was
      enqueued; success is exactly that both went through. */
  predicate ReplayEnds(s: State, own: seq<Event>, c: nat, job: Job, k: nat, plan: CallPlan, fate: Fate, t: nat,
                       drop: Reply, r: Result<nat, ReplayError>) {
    var failure := Failure(job, plan, fate);
    && own == Steps(CallScript(c, job, None, Some(k), plan, fate, t)) + Steps(DropAfter(c, job, plan, fate, drop))
    && (match r
        case Ok(i) =>
          failure.None? && drop.Arrives? && k !in s.redis.dlqLive && i < |s.redis.log| && s.redis.log[i] == job
        case Err(NotEnqueued(error)) => failure == Some(error)
        case Err(NotDropped) => failure.None? && !drop.Arrives?
        case Err(NotInDlq) => false)
  }

  /** When a replay goes through, given the state in which its enqueue checks the depth.  With a store
      none ever does: the dead letter's own row is in the way. */
  predicate LetsThrough(s: State, status: StatusField, plan: CallPlan, drop: Reply) {
    && status.Member? && !s.cfg.hasStore && Length(s.redis) < s.cfg.maxDepth
    && plan.depthKnown && plan.append.Arrives? && drop.Arrives?
  }

  lemma StoredReplayFails(cfg: Config, trace: seq<Event>, c: nat, job: Job, k: nat, plan: CallPlan, fate: Fate,
                          added: Result<nat, EnqueueError>)
    requires Run(cfg, trace) && cfg.hasStore && Ends(added, Failure(job, plan, fate))
    requires plan.valid && plan.depthKnown ==> Placed(After(cfg, trace), c, job, Some(k), fate, added)
    ensures added.Err?
  {
    if added.Ok? {
      ReplayNeverInserted(cfg, trace, c);
    }
  }

  lemma PlacedOk(s: State, c: nat, job: Job, replayOf: Option<nat>, fate: Fate, added: Result<nat, EnqueueError>)
    requires added.Ok? ==> Placed(s, c, job, replayOf, fate, added)
    ensures added.Ok? ==>
              && InPhase(s, c, Added(added.value)) && s.calls[c].replayOf == replayOf
              && added.value < |s.redis.log| && s.redis.log[added.value] == job
  {
  }

  lemma ReplayVerdict(s: State, c: nat, job: Job, k: nat, plan: CallPlan, drop: Reply)
    requires plan.valid
    ensures var checked := AtCheck(s, c, plan);
            LetsThrough(checked, job.status, plan, drop) <==>
            && !s.cfg.hasStore && drop.Arrives?
            && Failure(job, plan, CheckFate(checked, c, job, None, Some(k), plan)).None?
  {
    hide Elapsed, CheckFate;
    ElapsedKeepsConfig(s, OthersAt(plan.others, 0), Producer(c));
    if !s.cfg.hasStore {
      FateWithoutStore(AtCheck(s, c, plan), c, job, None, Some(k), plan);
    }
  }

  /** Whatever the status, a replay whose enqueue failed has not dropped its record, and has appended
      only if the XADD was carried out and its reply lost. */
  lemma FailedReplayKeepsRecord(s: State, own: seq<Event>, c: nat, job: Job, k: nat, plan: CallPlan, fate: Fate, t: nat,
                                drop: Reply, r: Result<nat, ReplayError>)
    requires ReplayEnds(s, own, c, job, k, plan, fate, t, drop, r) && r.Err? && r.error.NotEnqueued?
    ensures forall e :: e in own ==> !e.DropRecord?
    ensures (exists e :: e in own && e.Append?) <==>
            plan.valid && plan.depthKnown && fate == Passed && plan.append != Arrives && Applied(plan.append) &&
            job.status.Member?
  {
    ScriptAppends(c, job, None, Some(k), plan, fate, t);
    assert own == Steps(CallScript(c, job, None, Some(k), plan, fate, t));
    assert Append(c, t) in own <==> exists e :: e in own && e.Append?;
  }
}
