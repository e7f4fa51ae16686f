/** Running one claimed job: handler, then acknowledgement or the dead-letter stream. */
module Execute {
  import opened Outcomes
  import opened Jobs
  import opened Protocol
  import opened NoLoss
  import opened Site

  /** How awaiting the handler ends; a timeout is asyncio's TimeoutError. */
  datatype HandlerOutcome = Returns | Raises | TimesOut | CancelledInHandler

  /** How awaiting a Redis command ends.  A lost reply leaves the command applied or not. */
  datatype Reply = Arrives | Lost(applied: bool) | CancelledInFlight(applied: bool)

  predicate Applied(reply: Reply) {
    reply.Arrives? || reply.applied
  }

  /** What the environment does during one execution: outcomes, whether the two outbox updates
      succeed, and what everybody else does at each await. */
  datatype Plan = Plan(
    handler: HandlerOutcome,
    park: Reply,
    ack: Reply,
    marks: bool,
    settles: bool,
    others: seq<seq<Event>>)

  datatype Exit = CompletedJob | DeadLetteredJob | LeftForRetry | Cancelled

  /** Once an acknowledgement has been tried. */
  function SettleScript(d: nat, plan: Plan): Course {
    Wait(OthersAt(plan.others, 2),
         if plan.ack.CancelledInFlight? then Do(HaltDelivery(d), Stop) else Do(Settle(d, plan.settles), Stop))
  }

  function AckScript(d: nat, plan: Plan): Course {
    Wait(OthersAt(plan.others, 1), Do(Ack(d, Applied(plan.ack)), SettleScript(d, plan)))
  }

  /** Once the dead-letter append has been tried: XACK only after it is known to have succeeded. */
  function ParkedScript(d: nat, plan: Plan): Course {
    Wait(OthersAt(plan.others, 4),
         match plan.park
         case Arrives => AckScript(d, plan)
         case Lost(_) => Do(Settle(d, plan.settles), Stop)
         case CancelledInFlight(_) => Do(HaltDelivery(d), Stop))
  }

  function ParkScript(d: nat, plan: Plan): Course {
    Wait(OthersAt(plan.others, 3), Do(Park(d, Applied(plan.park), plan.park.Arrives?), ParkedScript(d, plan)))
  }

  function FailureScript(d: nat, job: Job, plan: Plan): Course {
    Do(Fail(d), if ShouldDlq(Rerun(job)) then ParkScript(d, plan) else Do(Settle(d, plan.settles), Stop))
  }

  /** Once the handler has ended. */
  function Outcome(d: nat, job: Job, plan: Plan): Course {
    match plan.handler
    case Returns => Do(Return(d), AckScript(d, plan))
    case Raises => FailureScript(d, job, plan)
    case TimesOut => FailureScript(d, job, plan)
    case CancelledInHandler => Do(HaltDelivery(d), Stop)
  }

  /** The steps one execution takes, their order, and the awaits between them: the specification of
      `Execute`. */
  function Script(d: nat, entry: nat, job: Job, plan: Plan): Course {
    Do(Begin(d, entry, plan.marks), Wait(OthersAt(plan.others, 0), Outcome(d, job, plan)))
  }

  lemma ScriptIsMine(d: nat, entry: nat, job: Job, plan: Plan)
    ensures AllMine(Script(d, entry, job, plan), Worker(d))
  {
    assert AllMine(SettleScript(d, plan), Worker(d));
    assert AllMine(AckScript(d, plan), Worker(d));
    assert AllMine(ParkedScript(d, plan), Worker(d));
    assert AllMine(ParkScript(d, plan), Worker(d));
    assert AllMine(FailureScript(d, job, plan), Worker(d));
    assert AllMine(Outcome(d, job, plan), Worker(d));
  }

  /** The job as its next run would find it if its count were carried forward. */
  function Rerun(job: Job): Job {
    job.(attempts := job.attempts + 1)
  }

  function ExitOf(job: Job, plan: Plan): Exit {
    match plan.handler
    case Returns => if plan.ack.CancelledInFlight? then Cancelled else CompletedJob
    case CancelledInHandler => Cancelled
    case _ =>
      if !ShouldDlq(Rerun(job)) then LeftForRetry
      else if plan.park.CancelledInFlight? || (plan.park.Arrives? && plan.ack.CancelledInFlight?) then Cancelled
      else DeadLetteredJob
  }

  /** Which steps one execution takes.  It acknowledges if and only if the handler
      returned, or failed with its budget spent and the dead-letter append is known to have succeeded. */
  lemma ScriptSteps(d: nat, entry: nat, job: Job, plan: Plan)
    ensures var steps := Steps(Script(d, entry, job, plan));
            var failed := plan.handler == Raises || plan.handler == TimesOut;
            var parks := failed && job.attempts >= job.maxRetries;
            var acks := plan.handler == Returns || (parks && plan.park.Arrives?);
            && steps != [] && steps[0] == Begin(d, entry, plan.marks)
            && (Return(d) in steps <==> plan.handler == Returns)
            && (Fail(d) in steps <==> failed)
            && (forall e :: e in steps && e.Park? <==>
                  parks && e == Park(d, plan.park.Arrives? || plan.park.applied, plan.park.Arrives?))
            && (forall e :: e in steps && e.Ack? <==> acks && e == Ack(d, plan.ack.Arrives? || plan.ack.applied))
            && (forall e :: e in steps && e.Settle? <==> HaltDelivery(d) !in steps && e == Settle(d, plan.settles))
            && (HaltDelivery(d) in steps <==>
                  || plan.handler == CancelledInHandler
                  || (parks && plan.park.CancelledInFlight?) || (acks && plan.ack.CancelledInFlight?))
  {
    hide Steps, Script;
    StepsInOrder(d, entry, job, plan);
    if plan.handler == Returns {
    } else if plan.handler == CancelledInHandler || job.attempts < job.maxRetries {
    } else {
    }
  }

  /** How it exits. */
  lemma ExitMeans(d: nat, entry: nat, job: Job, plan: Plan)
    ensures var failed, exit := plan.handler == Raises || plan.handler == TimesOut, ExitOf(job, plan);
            && (exit == Cancelled <==> HaltDelivery(d) in Steps(Script(d, entry, job, plan)))
            && (exit == LeftForRetry <==> failed && job.attempts < job.maxRetries)
            && (exit == CompletedJob <==> plan.handler == Returns && !plan.ack.CancelledInFlight?)
  {
    hide Steps, Script;
    ScriptSteps(d, entry, job, plan);
  }

  lemma StepsInOrder(d: nat, entry: nat, job: Job, plan: Plan)
    ensures var settle, halt := Settle(d, plan.settles), HaltDelivery(d);
            var acks := [Ack(d, Applied(plan.ack)), if plan.ack.CancelledInFlight? then halt else settle];
            Steps(Script(d, entry, job, plan)) ==
            [Begin(d, entry, plan.marks)] +
              if plan.handler == Returns then [Return(d)] + acks
              else if plan.handler == CancelledInHandler then [halt]
              else if !ShouldDlq(Rerun(job)) then [Fail(d), settle]
              else [Fail(d), Park(d, Applied(plan.park), plan.park.Arrives?)] +
                   match plan.park
                   case Arrives => acks
                   case Lost(_) => [settle]
                   case CancelledInFlight(_) => [halt]
  {
    var settle, halt := Settle(d, plan.settles), HaltDelivery(d);
    OneStep(settle);
    OneStep(halt);
    assert Steps(AckScript(d, plan)) == [Ack(d, Applied(plan.ack))] + Steps(SettleScript(d, plan));
    assert Steps(ParkScript(d, plan)) ==
           [Park(d, Applied(plan.park), plan.park.Arrives?)] + Steps(ParkedScript(d, plan));
    assert Steps(FailureScript(d, job, plan)) ==
           [Fail(d)] + if ShouldDlq(Rerun(job)) then Steps(ParkScript(d, plan)) else [settle];
    assert Steps(Script(d, entry, job, plan)) == [Begin(d, entry, plan.marks)] + Steps(Outcome(d, job, plan));
  }

  /** The same with the awaits between the steps. */
  lemma AwaitsInOrder(d: nat, entry: nat, job: Job, plan: Plan)
    ensures var settle, halt := Do(Settle(d, plan.settles), Stop), Do(HaltDelivery(d), Stop);
            var acks := Wait(OthersAt(plan.others, 1),
                             Do(Ack(d, Applied(plan.ack)),
                                Wait(OthersAt(plan.others, 2), if plan.ack.CancelledInFlight? then halt else settle)));
            var parks := Wait(OthersAt(plan.others, 3),
                              Do(Park(d, Applied(plan.park), plan.park.Arrives?),
                                 Wait(OthersAt(plan.others, 4),
                                      match plan.park
                                      case Arrives => acks
                                      case Lost(_) => settle
                                      case CancelledInFlight(_) => halt)));
            Script(d, entry, job, plan) ==
            Do(Begin(d, entry, plan.marks),
               Wait(OthersAt(plan.others, 0),
                    if plan.handler == Returns then Do(Return(d), acks)
                    else if plan.handler == CancelledInHandler then halt
                    else Do(Fail(d), if job.attempts >= job.maxRetries then parks else settle)))
  {
  }

  lemma OneStep(e: Event)
    ensures Steps(Do(e, Stop)) == [e]
  {
  }

  /** What has become of the entry and the job when one execution has ended, whatever others did. */
  ghost predicate Handled(s: State, entry: nat, job: Job, plan: Plan) {
    var parks := (plan.handler == Raises || plan.handler == TimesOut) && job.attempts >= job.maxRetries;
    && (plan.handler == Returns ==> entry in s.okEntries)
    && (parks && (plan.park.Arrives? || plan.park.applied) ==>
          job.(attempts := job.attempts + 1) in s.redis.dlqLog)
    && ((plan.handler == Returns || (parks && plan.park.Arrives?)) && (plan.ack.Arrives? || plan.ack.applied) ==>
          entry in s.redis.acked)
  }

  lemma {:induction false} OwnAreTaken(trace: seq<Event>, me: Actor)
    ensures forall e :: e in Own(trace, me) ==> e in trace
  {
    if trace != [] {
      OwnAreTaken(trace[..|trace| - 1], me);
    }
  }

  lemma ScriptHandles(cfg: Config, trace: seq<Event>, d: nat, entry: nat, job: Job, plan: Plan)
    requires Run(cfg, trace) && Own(trace, Worker(d)) == Steps(Script(d, entry, job, plan))
    requires entry < |After(cfg, trace).redis.log| && job == After(cfg, trace).redis.log[entry]
    ensures Handled(After(cfg, trace), entry, job, plan)
  {
    hide Run, After, Own, Steps, ExitOf, Script;
    var steps := Steps(Script(d, entry, job, plan));
    ScriptSteps(d, entry, job, plan);
    OwnAreTaken(trace, Worker(d));
    forall e | e in steps ensures Effect(After(cfg, trace), e) {
      EffectsLast(cfg, trace, e);
    }
    var lands, stands := plan.ack.Arrives? || plan.ack.applied, plan.park.Arrives? || plan.park.applied;
    assert steps[0] in steps;
    if plan.handler == Returns {
      assert Effect(After(cfg, trace), Return(d));
    }
    if Ack(d, lands) in steps {
      assert Effect(After(cfg, trace), Ack(d, lands));
    }
    if Park(d, stands, plan.park.Arrives?) in steps {
      assert Effect(After(cfg, trace), Park(d, stands, plan.park.Arrives?));
    }
  }

  /** The outbox row an execution leaves behind, when there is one and its last update succeeded. */
  predicate RowSettled(s: State, id: string, attempts: int, plan: Plan, exit: Exit) {
    s.cfg.hasStore && plan.settles && id in s.db.rows ==>
      match exit
      case CompletedJob => s.db.rows[id].status == Completed
      case DeadLetteredJob => s.db.rows[id].status == Dead
      case LeftForRetry => s.db.rows[id].status == Failed && s.db.rows[id].attempts == attempts
      case Cancelled => true
  }

  class Executor {
    const site: Site

    constructor (site: Site)
      ensures this.site == site
    {
      this.site := site;
    }

    method Await(k: nat, d: nat, plan: Plan)
      requires site.Valid()
      modifies site, site.transport, site.store
      ensures site.Valid()
      ensures site.trace == old(site.trace) + Meanwhile(old(site.View()), OthersAt(plan.others, k), Worker(d))
      ensures site.View() == Elapsed(old(site.View()), OthersAt(plan.others, k), Worker(d))
      ensures d in old(site.work) ==> d in site.work && site.work[d] == old(site.work[d])
    {
      site.Await(OthersAt(plan.others, k), Worker(d));
    }

    /** Under every schedule of the others, what happens from the call to its end is exactly what the
        script says: this execution's steps, in order, and at each await the steps the others take then.
        The state stays one that a run of the protocol reaches. */
    method Execute(d: nat, entry: nat, job: Job, plan: Plan) returns (exit: Exit)
      requires site.Valid() && d !in site.work
      requires entry in site.transport.pending.Keys + site.transport.acked
      requires entry < |site.transport.log| && job == site.transport.log[entry]
      modifies site, site.transport, site.store
      ensures site.Valid()
      ensures site.trace == old(site.trace) + Unfold(old(site.View()), Script(d, entry, job, plan), Worker(d))
      ensures Own(site.trace, Worker(d)) == Steps(Script(d, entry, job, plan))
      ensures Handled(site.View(), entry, job, plan)
      ensures exit == ExitOf(job, plan)
      ensures RowSettled(site.View(), job.id, job.attempts + 1, plan, exit)
    {
      hide Run, After, Own, Unfold, Meanwhile, Elapsed, Apply, Handled;
      ghost var start, s := site.trace, site.View();
      Start(d, entry, job, plan.marks);
      ghost var begun, after := site.trace, site.View();
      // Run the handler under the timeout.
      Await(0, d, plan);
      exit := Conclude(d, job, plan);
      AlongWait(begun, after, OthersAt(plan.others, 0), Outcome(d, job, plan), Worker(d));
      ghost var rest := Wait(OthersAt(plan.others, 0), Outcome(d, job, plan));
      AlongStep(start, s, Begin(d, entry, plan.marks), rest, Worker(d));
      UnknownHasNoSteps(site.cfg, start, Worker(d));
      ScriptIsMine(d, entry, job, plan);
      OwnUnfold(s, Script(d, entry, job, plan), Worker(d));
      OwnJoin(start, Unfold(s, Script(d, entry, job, plan), Worker(d)), Worker(d));
      LogOnlyGrows(site.cfg, start, site.trace);
      ScriptHandles(site.cfg, site.trace, d, entry, job, plan);
    }

    method Conclude(d: nat, job: Job, plan: Plan) returns (exit: Exit)
      requires site.Valid() && AtPc(site.View(), d, Started) && site.work[d].job == job
      modifies site, site.transport, site.store
      ensures site.Valid()
      ensures site.trace == old(site.trace) + Unfold(old(site.View()), Outcome(d, job, plan), Worker(d))
      ensures exit == ExitOf(job, plan)
      ensures RowSettled(site.View(), job.id, job.attempts + 1, plan, exit)
    {
      hide Run, After, Own, Unfold, Apply;
      ghost var start, s := site.trace, site.View();
      match plan.handler {
        case Returns =>
          NoteReturn(d);
          exit := Acknowledge(d, plan, CompletedJob);
          AlongStep(start, s, Return(d), AckScript(d, plan), Worker(d));
        case Raises =>
          exit := HandleFailure(d, plan);
        case TimesOut =>
          exit := HandleFailure(d, plan);
        case CancelledInHandler =>
          Halt(d);
          AlongLast(start, s, HaltDelivery(d), Worker(d));
          exit := Cancelled;
      }
    }

    /** Mark as processing in the outbox; a failing update is logged and ignored. */
    method Start(d: nat, entry: nat, job: Job, marks: bool)
      requires site.Valid() && d !in site.work
      requires entry in site.transport.pending.Keys + site.transport.acked
      requires entry < |site.transport.log| && job == site.transport.log[entry]
      modifies site, site.store
      ensures site.Valid() && site.trace == old(site.trace) + [Begin(d, entry, marks)]
      ensures site.View() == Next(old(site.View()), Begin(d, entry, marks))
      ensures AtPc(site.View(), d, Started) && site.work[d].job == job
      ensures site.cfg.hasStore && marks && job.id in site.store.rows ==>
                site.store.rows[job.id].status == Processing && site.store.rows[job.id].attempts == job.attempts
    {
      site.work := site.work[d := Delivery(entry, job, Started, false)];
      if site.cfg.hasStore && marks {
        site.store.UpdateStatus(job.id, Processing, Some(job.attempts));
      }
      site.Log(Begin(d, entry, marks), Worker(d));
    }

    method NoteReturn(d: nat)
      requires site.Valid() && AtPc(site.View(), d, Started)
      modifies site
      ensures site.Valid() && site.trace == old(site.trace) + [Return(d)]
      ensures site.View() == Next(old(site.View()), Return(d))
      ensures AtPc(site.View(), d, Returned) && site.work[d].entry in site.okEntries
      ensures site.work[d].job == old(site.work[d].job)
    {
      site.okEntries := site.okEntries + {site.work[d].entry};
      site.work := site.work[d := site.work[d].(pc := Returned)];
      site.Log(Return(d), Worker(d));
    }

    /** XACK, then the final status.  A failing XACK is logged; a cancellation is not caught. */
    method Acknowledge(d: nat, plan: Plan, done: Exit) returns (exit: Exit)
      requires site.Valid()
      requires AtPc(site.View(), d, Returned) || AtPc(site.View(), d, DlqWritten)
      modifies site, site.transport, site.store
      ensures site.Valid()
      ensures site.trace == old(site.trace) + Unfold(old(site.View()), AckScript(d, plan), Worker(d))
      ensures exit == if plan.ack.CancelledInFlight? then Cancelled else done
      ensures done == (if old(site.work[d].pc) == Returned then CompletedJob else DeadLetteredJob) ==>
                RowSettled(site.View(), old(site.work[d].job.id), 0, plan, exit)
    {
      hide Run, After, Own, Unfold, Meanwhile, Elapsed, Apply, RowSettled;
      ghost var start, s := site.trace, site.View();
      Await(1, d, plan);
      ghost var waited, later := site.trace, site.View();
      SendAck(d, plan.ack);
      exit := SettleAck(d, plan, done);
      AlongStep(waited, later, Ack(d, Applied(plan.ack)), SettleScript(d, plan), Worker(d));
      AlongWait(start, s, OthersAt(plan.others, 1), Do(Ack(d, Applied(plan.ack)), SettleScript(d, plan)), Worker(d));
    }

    method SettleAck(d: nat, plan: Plan, done: Exit) returns (exit: Exit)
      requires site.Valid()
      requires AtPc(site.View(), d, AckTried) || AtPc(site.View(), d, DlqTried)
      modifies site, site.transport, site.store
      ensures site.Valid()
      ensures site.trace == old(site.trace) + Unfold(old(site.View()), SettleScript(d, plan), Worker(d))
      ensures exit == if plan.ack.CancelledInFlight? then Cancelled else done
      ensures done == (if old(site.work[d].pc) == AckTried then CompletedJob else DeadLetteredJob) ==>
                RowSettled(site.View(), old(site.work[d].job.id), 0, plan, exit)
    {
      hide Run, After, Own, Unfold, Meanwhile, Elapsed, Apply;
      ghost var start, s := site.trace, site.View();
      Await(2, d, plan);
      ghost var waited, later := site.trace, site.View();
      ghost var e := if plan.ack.CancelledInFlight? then HaltDelivery(d) else Settle(d, plan.settles);
      if plan.ack.CancelledInFlight? {
        Halt(d);
        exit := Cancelled;
      } else {
        Finish(d, plan.settles);
        exit := done;
      }
      AlongLast(waited, later, e, Worker(d));
      AlongWait(start, s, OthersAt(plan.others, 2), Do(e, Stop), Worker(d));
    }

    method SendAck(d: nat, reply: Reply)
      requires site.Valid()
      requires AtPc(site.View(), d, Returned) || AtPc(site.View(), d, DlqWritten)
      modifies site, site.transport
      ensures site.Valid() && site.trace == old(site.trace) + [Ack(d, Applied(reply))]
      ensures site.View() == Next(old(site.View()), Ack(d, Applied(reply)))
      ensures AtPc(site.View(), d, if old(site.work[d].pc) == Returned then AckTried else DlqTried)
      ensures site.work[d].job == old(site.work[d].job)
    {
      if Applied(reply) {
        var n := site.transport.XAck(site.work[d].entry);
      }
      site.work := site.work[d := site.work[d].(pc := if site.work[d].pc == Returned then AckTried else DlqTried)];
      site.Log(Ack(d, Applied(reply)), Worker(d));
    }

    method HandleFailure(d: nat, plan: Plan) returns (exit: Exit)
      requires site.Valid() && AtPc(site.View(), d, Started)
      modifies site, site.transport, site.store
      ensures site.Valid()
      ensures var job := old(site.work[d].job);
              && site.trace == old(site.trace) + Unfold(old(site.View()), FailureScript(d, job, plan), Worker(d))
              && (plan.handler in {Raises, TimesOut} ==> exit == ExitOf(job, plan))
              && RowSettled(site.View(), job.id, job.attempts + 1, plan, exit)
    {
      hide Run, After, Own, Unfold, Apply;
      ghost var start, s := site.trace, site.View();
      NoteFailure(d);
      ghost var noted, after := site.trace, site.View();
      if ShouldDlq(site.work[d].job) {
        exit := DeadLetter(d, plan);
        AlongStep(start, s, Fail(d), ParkScript(d, plan), Worker(d));
      } else {
        // Left pending: neither acknowledged nor requeued.
        Finish(d, plan.settles);
        AlongLast(noted, after, Settle(d, plan.settles), Worker(d));
        AlongStep(start, s, Fail(d), Do(Settle(d, plan.settles), Stop), Worker(d));
        exit := LeftForRetry;
      }
    }

    method NoteFailure(d: nat)
      requires site.Valid() && AtPc(site.View(), d, Started)
      modifies site
      ensures site.Valid() && site.trace == old(site.trace) + [Fail(d)]
      ensures site.View() == Next(old(site.View()), Fail(d))
      ensures d in site.work && site.work[d].job == Rerun(old(site.work[d].job))
      ensures AtPc(site.View(), d, if ShouldDlq(site.work[d].job) then Exhausted else Retrying)
    {
      ghost var s := site.View();
      var job := site.work[d].job;
      job := job.(attempts := job.attempts + 1);
      site.work := site.work[d := site.work[d].(job := job, pc := if ShouldDlq(job) then Exhausted else Retrying)];
      assert site.View() == Failing(s, d);
      site.Log(Fail(d), Worker(d));
    }

    /** Dead-letter append before XACK; if either raises, the rest is skipped but the row still
        becomes DEAD. */
    method DeadLetter(d: nat, plan: Plan) returns (exit: Exit)
      requires site.Valid() && AtPc(site.View(), d, Exhausted)
      modifies site, site.transport, site.store
      ensures site.Valid()
      ensures site.trace == old(site.trace) + Unfold(old(site.View()), ParkScript(d, plan), Worker(d))
      ensures exit == if plan.park.CancelledInFlight? || (plan.park.Arrives? && plan.ack.CancelledInFlight?)
                      then Cancelled else DeadLetteredJob
      ensures RowSettled(site.View(), old(site.work[d].job.id), 0, plan, exit)
    {
      hide Run, After, Own, Unfold, Meanwhile, Elapsed, Apply, RowSettled;
      ghost var start, s := site.trace, site.View();
      Await(3, d, plan);
      ghost var waited, later := site.trace, site.View();
      ParkJob(d, plan.park);
      exit := AfterPark(d, plan);
      ghost var e := Park(d, Applied(plan.park), plan.park.Arrives?);
      AlongStep(waited, later, e, ParkedScript(d, plan), Worker(d));
      AlongWait(start, s, OthersAt(plan.others, 3), Do(e, ParkedScript(d, plan)), Worker(d));
    }

    method AfterPark(d: nat, plan: Plan) returns (exit: Exit)
      requires site.Valid() && AtPc(site.View(), d, if plan.park.Arrives? then DlqWritten else DlqTried)
      modifies site, site.transport, site.store
      ensures site.Valid()
      ensures site.trace == old(site.trace) + Unfold(old(site.View()), ParkedScript(d, plan), Worker(d))
      ensures exit == if plan.park.CancelledInFlight? || (plan.park.Arrives? && plan.ack.CancelledInFlight?)
                      then Cancelled else DeadLetteredJob
      ensures RowSettled(site.View(), old(site.work[d].job.id), 0, plan, exit)
    {
      hide Run, After, Own, Unfold, Meanwhile, Elapsed, Apply;
      ghost var start, s, rest := site.trace, site.View(), Course.Stop;
      Await(4, d, plan);
      ghost var waited, later := site.trace, site.View();
      match plan.park {
        case Arrives =>
          exit := Acknowledge(d, plan, DeadLetteredJob);
          rest := AckScript(d, plan);
        case Lost(_) =>
          Finish(d, plan.settles);
          AlongLast(waited, later, Settle(d, plan.settles), Worker(d));
          exit, rest := DeadLetteredJob, Do(Settle(d, plan.settles), Course.Stop);
        case CancelledInFlight(_) =>
          Halt(d);
          AlongLast(waited, later, HaltDelivery(d), Worker(d));
          exit, rest := Cancelled, Do(HaltDelivery(d), Course.Stop);
      }
      AlongWait(start, s, OthersAt(plan.others, 4), rest, Worker(d));
    }

    method ParkJob(d: nat, reply: Reply)
      requires site.Valid() && AtPc(site.View(), d, Exhausted)
      modifies site, site.transport
      ensures site.Valid() && site.trace == old(site.trace) + [Park(d, Applied(reply), reply.Arrives?)]
      ensures site.View() == Next(old(site.View()), Park(d, Applied(reply), reply.Arrives?))
      ensures AtPc(site.View(), d, if reply.Arrives? then DlqWritten else DlqTried)
      ensures site.work[d].job == old(site.work[d].job)
    {
      AlwaysEncodable(site.cfg, site.trace, d);
      if Applied(reply) {
        var record := site.transport.XAddDlq(site.work[d].job);
        site.parked := site.parked + {site.work[d].entry};
      }
      site.work := site.work[d := site.work[d].(pc := if reply.Arrives? then DlqWritten else DlqTried)];
      site.Log(Park(d, Applied(reply), reply.Arrives?), Worker(d));
    }

    method Finish(d: nat, settles: bool)
      requires site.Valid()
      requires AtPc(site.View(), d, AckTried) || AtPc(site.View(), d, DlqTried) || AtPc(site.View(), d, Retrying)
      modifies site, site.store
      ensures site.Valid() && site.trace == old(site.trace) + [Settle(d, settles)]
      ensures site.View() == Next(old(site.View()), Settle(d, settles))
      ensures var w := old(site.work[d]);
              site.cfg.hasStore && settles && w.job.id in site.store.rows ==>
                && site.store.rows[w.job.id].status ==
                     (match w.pc case AckTried => Completed case DlqTried => Dead case _ => Failed)
                && site.store.rows[w.job.id].attempts ==
                     (if w.pc == Retrying then w.job.attempts else old(site.store.rows)[w.job.id].attempts)
      ensures site.store.rows.Keys == old(site.store.rows).Keys
      ensures forall id :: id in site.store.rows && id != old(site.work[d]).job.id ==>
                site.store.rows[id] == old(site.store.rows)[id]
    {
      hide Run, After, Own;
      var w := site.work[d];
      if site.cfg.hasStore && settles {
        site.store.UpdateStatus(w.job.id, FinalStatus(w.pc), if w.pc == Retrying then Some(w.job.attempts) else None);
      }
      site.work := site.work[d := w.(pc := Finished)];
      site.Log(Settle(d, settles), Worker(d));
    }

    method Halt(d: nat)
      requires site.Valid() && d in site.work && !site.work[d].halted
      modifies site
      ensures site.Valid() && site.trace == old(site.trace) + [HaltDelivery(d)]
      ensures site.View() == Next(old(site.View()), HaltDelivery(d))
    {
      site.work := site.work[d := site.work[d].(halted := true)];
      site.Log(HaltDelivery(d), Worker(d));
    }
  }

  /** Every job an execution holds can be serialised. */
  lemma AlwaysEncodable(cfg: Config, trace: seq<Event>, d: nat)
    requires Run(cfg, trace) && d in After(cfg, trace).work
    ensures After(cfg, trace).work[d].job.status.Member?
  {
    AlwaysSound(cfg, trace);
    LogEncodable(cfg, trace);
    assert DeliveryOk(After(cfg, trace), After(cfg, trace).work[d]);
  }
}
