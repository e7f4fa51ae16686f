/** The worker runner as the object it is: a semaphore value, a set of tracked tasks and a loop, over the
    shared Redis and outbox. */
module Runner {
  import opened Outcomes
  import opened Redis
  import Protocol
  import opened NoLoss
  import opened Site
  import opened Consume
  import opened Pools

  /** The shutdown event. */
  class GracefulShutdown {
    var requested: bool

    constructor ()
      ensures !requested
    {
      requested := false;
    }

    method RequestStop()
      modifies this
      ensures requested
    {
      requested := true;
    }
  }

  /** How a poll ends; one that raises or is cancelled may have claimed entries nobody sees. */
  datatype Poll = Fails(applied: bool, now: int) | CancelledInRead(applied: bool, now: int) | Replies(now: int)

  /** One iteration: the admission check if there is a controller, the poll, which of the tasks to come
      ignore cancellation, and what happens at each await. */
  datatype Turn = Turn(admission: Option<bool>, poll: Poll, stubborn: set<nat>, others: seq<seq<Step>>)

  /** Where a cancellation reaches the drain, if one does. */
  datatype DrainCut = Uncut | InGrace | InLast

  /** Leaving the loop: what happens while the recovery task ends, during the grace period, and after the
      remaining tasks have been cancelled. */
  datatype Leave = Leave(leaving: seq<Step>, grace: seq<Step>, last: seq<Step>, cut: DrainCut)

  // -- the steps of the loop, and those of everybody else --------------------------

  /** What may happen at an await of the loop: tasks work and finish, callbacks run, a signal arrives,
      other processes act. */
  predicate Background(e: Step) {
    e.Request? || e.Work? || e.Release? || e.Callback? || e.Others?
  }

  /** The loop's own steps, in order. */
  function LoopSteps(trace: seq<Step>): seq<Step> {
    if trace == [] then
      []
    else
      LoopSteps(trace[..|trace| - 1]) +
      (if Background(trace[|trace| - 1]) then [] else [trace[|trace| - 1]])
  }

  lemma LoopStepsExtend(trace: seq<Step>, e: Step)
    ensures LoopSteps(trace + [e]) == LoopSteps(trace) + (if Background(e) then [] else [e])
  {
    assert (trace + [e])[..|trace|] == trace;
  }

  /** Which steps of a schedule take place from `p` on, each if it is enabled when its turn comes. */
  function Played(p: Pool, steps: seq<Step>): (played: seq<Step>)
    decreases |steps|
  {
    if steps == [] then
      []
    else if Background(steps[0]) && Enabled(p, steps[0]) then
      [steps[0]] + Played(Apply(p, steps[0]), steps[1..])
    else
      Played(p, steps[1..])
  }

  /** Where they lead. */
  function Playing(p: Pool, steps: seq<Step>): (p': Pool)
    ensures p'.phase == p.phase && p'.closing == p.closing
    decreases |steps|
  {
    if steps == [] then
      p
    else if Background(steps[0]) && Enabled(p, steps[0]) then
      Playing(Apply(p, steps[0]), steps[1..])
    else
      Playing(p, steps[1..])
  }

  lemma FirstOfMany(u: Setup, trace: seq<Step>, steps: seq<Step>)
    requires Run(u, trace + steps) && steps != []
    ensures (trace + [steps[0]]) + steps[1..] == trace + steps
    ensures Run(u, trace + [steps[0]]) && Run(u, trace) && Enabled(After(u, trace), steps[0])
    ensures After(u, trace + [steps[0]]) == Apply(After(u, trace), steps[0])
  {
    var all, n := trace + steps, |trace|;
    assert all[..n + 1] == trace + [steps[0]] && (trace + [steps[0]])[..n] == trace;
    ReadsSince(u, all, n + 1);
  }

  /** A schedule all of whose steps are possible is played as a whole. */
  lemma {:induction false} AllPlayed(u: Setup, trace: seq<Step>, steps: seq<Step>)
    requires Run(u, trace + steps) && forall e :: e in steps ==> Background(e)
    ensures Run(u, trace) && Played(After(u, trace), steps) == steps
    ensures Playing(After(u, trace), steps) == After(u, trace + steps)
    decreases |steps|
  {
    hide Apply, Enabled, Background, Run, After;
    if steps == [] {
      assert trace + steps == trace;
    } else {
      FirstOfMany(u, trace, steps);
      AllPlayed(u, trace + [steps[0]], steps[1..]);
    }
  }

  function Entries(tasks: seq<Task>): (entries: seq<nat>)
    ensures |entries| == |tasks|
    ensures forall t :: 0 <= t < |tasks| ==> entries[t] == tasks[t].entry
  {
    seq(|tasks|, t requires 0 <= t < |tasks| => tasks[t].entry)
  }

  /** The loop was cancelled. */
  predicate Cut(own: seq<Step>) {
    own != [] && own[|own| - 1].CancelLoop?
  }

  /** Permits are waited for and tasks spawned; only a wait for a permit can be cut off. */
  predicate DispatchSteps(own: seq<Step>) {
    && (forall k :: 0 <= k < |own| - 1 ==> own[k].Block? || own[k].Spawn?)
    && (own != [] ==>
          || own[|own| - 1].Spawn?
          || (own[|own| - 1].CancelLoop? && |own| >= 2 && own[|own| - 2].Block?))
  }

  predicate PollSteps(poll: Poll, own: seq<Step>) {
    match poll
    case Fails(applied, now) => own == [PollFails(applied, now)]
    case CancelledInRead(applied, now) => own == [CancelLoop(applied, now)]
    case Replies(now) => own != [] && own[0] == PollReturns(now) && DispatchSteps(own[1..])
  }

  function Head(turn: Turn): seq<Step> {
    [Top(turn.admission.Some?)] + (if turn.admission.Some? then [Admit(turn.admission.value)] else [])
  }

  /** The loop's steps in one iteration: the admission check, and if it passes the poll, and if that
      replies the dispatch. */
  predicate TurnSteps(turn: Turn, own: seq<Step>) {
    if turn.admission == Some(false) then
      own == Head(turn)
    else
      |own| > |Head(turn)| && own[..|Head(turn)|] == Head(turn) && PollSteps(turn.poll, own[|Head(turn)|..])
  }

  function Flatten(pieces: seq<seq<Step>>): seq<Step> {
    if pieces == [] then [] else Flatten(pieces[..|pieces| - 1]) + pieces[|pieces| - 1]
  }

  /** The iterations a loop has made: one after the other as the turns say, none after a cancellation. */
  ghost predicate Iterated(turns: seq<Turn>, pieces: seq<seq<Step>>) {
    && |pieces| <= |turns|
    && (forall k :: 0 <= k < |pieces| ==> TurnSteps(turns[k], pieces[k]))
    && (forall k :: 0 <= k < |pieces| - 1 ==> !Cut(pieces[k]))
  }

  /** Why the loop is left: it was cancelled in its last iteration, or found the event set, or has had all
      its turns and is cancelled at its head. */
  ghost predicate Leaves(turns: seq<Turn>, pieces: seq<seq<Step>>, leaving: seq<Step>, requested: bool) {
    if pieces != [] && Cut(pieces[|pieces| - 1]) then
      leaving == []
    else
      (leaving == [Top(false)] && requested) || (|pieces| == |turns| && leaving == [CancelLoop(false, 0)])
  }

  /** What `drain` does, up to the moment the cancelled tasks unwind: it waits out the grace period, and
      after cancelling it waits again. */
  function Waits(p: Pool, leave: Leave): seq<Step>
    requires p.phase == Draining
  {
    var p' := Apply(p, DrainStart);
    [DrainStart] + (if p'.phase == Stopped then [] else Grace(p', leave))
  }

  function Grace(p: Pool, leave: Leave): seq<Step>
    requires p.phase == Waiting
  {
    Played(p, leave.grace) +
    (if leave.cut.InGrace? then [CancelDrain] else Rest(Playing(p, leave.grace), leave))
  }

  function Rest(p: Pool, leave: Leave): seq<Step>
    requires p.phase == Waiting
  {
    var p' := Apply(p, DrainTimeout);
    [DrainTimeout] + (if p'.phase == Stopped then [] else Last(p', leave))
  }

  function Last(p: Pool, leave: Leave): seq<Step> {
    Played(p, leave.last) + (if leave.cut.InLast? then [CancelDrain] else [])
  }

  /** The drain's own steps, as far as it gets. */
  predicate DrainSteps(own: seq<Step>) {
    && own != []
    && (own <= [DrainStart, DrainTimeout, DrainEnd]
        || own == [DrainStart, CancelDrain] || own == [DrainStart, DrainTimeout, CancelDrain])
  }

  // -- what happens at the awaits of an iteration ------------------------------------

  function ScheduleAt(turn: Turn, k: nat): (schedule: seq<Step>)
    ensures k < |turn.others| ==> schedule == turn.others[k]
  {
    if k < |turn.others| then turn.others[k] else []
  }

  /** The schedule of the await that follows a step of the loop taken in `p`. */
  function WaitAfter(turn: Turn, p: Pool, e: Step): seq<Step> {
    match e
    case Top(admission) => ScheduleAt(turn, if admission then 0 else 1)
    case Admit(_) => ScheduleAt(turn, 1)
    case PollFails(_, _) => ScheduleAt(turn, 2)
    case Block => ScheduleAt(turn, 2 + |p.batch|)
    case _ => []
  }

  function Stepped(p: Pool, e: Step): Pool {
    if Enabled(p, e) then Apply(p, e) else p
  }

  /** Everything that happens while the loop takes the steps `own` from `p` on. */
  function Woven(p: Pool, own: seq<Step>, turn: Turn): seq<Step>
    decreases |own|
  {
    if own == [] then
      []
    else
      var q, wait := Stepped(p, own[0]), WaitAfter(turn, p, own[0]);
      [own[0]] + Played(q, wait) + Woven(Playing(q, wait), own[1..], turn)
  }

  /** Where that leads. */
  function WovenTo(p: Pool, own: seq<Step>, turn: Turn): Pool
    decreases |own|
  {
    if own == [] then
      p
    else
      WovenTo(Playing(Stepped(p, own[0]), WaitAfter(turn, p, own[0])), own[1..], turn)
  }

  /** The loop counts as cancelled in a wait for a permit only after that wait, and if no permit came. */
  predicate Patient(p: Pool, own: seq<Step>, turn: Turn)
    decreases |own|
  {
    own != [] ==>
      && (own[0].CancelLoop? && p.phase == Dispatching ==> p.sem.waiting && !p.sem.granted)
      && Patient(Playing(Stepped(p, own[0]), WaitAfter(turn, p, own[0])), own[1..], turn)
  }

  /** From `start` and `p` the record has grown to `trace` and the state become `p'` by exactly that. */
  predicate Wove(start: seq<Step>, p: Pool, trace: seq<Step>, p': Pool, own: seq<Step>, turn: Turn) {
    trace == start + Woven(p, own, turn) && p' == WovenTo(p, own, turn) && Patient(p, own, turn)
  }

  lemma WoveNone(start: seq<Step>, p: Pool, turn: Turn)
    ensures Wove(start, p, start, p, [], turn)
  {
  }

  lemma WoveOne(start: seq<Step>, p: Pool, e: Step, turn: Turn)
    requires Enabled(p, e) && (e.CancelLoop? && p.phase == Dispatching ==> p.sem.waiting && !p.sem.granted)
    ensures var wait := WaitAfter(turn, p, e);
            Wove(start, p, start + [e] + Played(Apply(p, e), wait), Playing(Apply(p, e), wait), [e], turn)
  {
    var q, wait := Apply(p, e), WaitAfter(turn, p, e);
    assert Woven(p, [e], turn) == [e] + Played(q, wait) + Woven(Playing(q, wait), [], turn);
    assert start + [e] + Played(q, wait) == start + ([e] + Played(q, wait) + []);
  }

  lemma {:induction false} WovenJoin(p: Pool, a: seq<Step>, b: seq<Step>, turn: Turn)
    ensures Woven(p, a + b, turn) == Woven(p, a, turn) + Woven(WovenTo(p, a, turn), b, turn)
    ensures WovenTo(p, a + b, turn) == WovenTo(WovenTo(p, a, turn), b, turn)
    ensures Patient(p, a + b, turn) <==> Patient(p, a, turn) && Patient(WovenTo(p, a, turn), b, turn)
    decreases |a|
  {
    hide Played, Playing, Apply, Enabled, Stepped, WaitAfter;
    if a == [] {
      assert a + b == b;
    } else {
      var q, wait := Stepped(p, a[0]), WaitAfter(turn, p, a[0]);
      assert (a + b)[0] == a[0] && (a + b)[1..] == a[1..] + b;
      WovenJoin(Playing(q, wait), a[1..], b, turn);
    }
  }

  lemma WoveJoin(start: seq<Step>, p: Pool, mid: seq<Step>, q: Pool, trace: seq<Step>, p': Pool, a: seq<Step>,
                 b: seq<Step>, turn: Turn)
    requires Wove(start, p, mid, q, a, turn) && Wove(mid, q, trace, p', b, turn)
    ensures Wove(start, p, trace, p', a + b, turn)
  {
    hide Woven, WovenTo, Patient;
    WovenJoin(p, a, b, turn);
    assert start + Woven(p, a, turn) + Woven(q, b, turn) == start + (Woven(p, a, turn) + Woven(q, b, turn));
  }

  /** The same of several iterations, one after the other. */
  function TurnsWoven(p: Pool, turns: seq<Turn>, pieces: seq<seq<Step>>): seq<Step>
    requires |pieces| <= |turns|
    decreases |pieces|
  {
    if pieces == [] then
      []
    else
      var n := |pieces| - 1;
      TurnsWoven(p, turns, pieces[..n]) + Woven(TurnsTo(p, turns, pieces[..n]), pieces[n], turns[n])
  }

  function TurnsTo(p: Pool, turns: seq<Turn>, pieces: seq<seq<Step>>): Pool
    requires |pieces| <= |turns|
    decreases |pieces|
  {
    if pieces == [] then
      p
    else
      var n := |pieces| - 1;
      WovenTo(TurnsTo(p, turns, pieces[..n]), pieces[n], turns[n])
  }

  predicate TurnsPatient(p: Pool, turns: seq<Turn>, pieces: seq<seq<Step>>)
    requires |pieces| <= |turns|
    decreases |pieces|
  {
    pieces != [] ==>
      var n := |pieces| - 1;
      TurnsPatient(p, turns, pieces[..n]) && Patient(TurnsTo(p, turns, pieces[..n]), pieces[n], turns[n])
  }

  predicate WoveTurns(start: seq<Step>, p: Pool, trace: seq<Step>, p': Pool, turns: seq<Turn>,
                      pieces: seq<seq<Step>>) {
    && |pieces| <= |turns| && trace == start + TurnsWoven(p, turns, pieces)
    && p' == TurnsTo(p, turns, pieces) && TurnsPatient(p, turns, pieces)
  }

  lemma WoveOneMoreTurn(start: seq<Step>, p: Pool, mid: seq<Step>, q: Pool, trace: seq<Step>, p': Pool,
                        turns: seq<Turn>, pieces: seq<seq<Step>>, own: seq<Step>)
    requires WoveTurns(start, p, mid, q, turns, pieces) && |pieces| < |turns|
    requires Wove(mid, q, trace, p', own, turns[|pieces|])
    ensures WoveTurns(start, p, trace, p', turns, pieces + [own])
  {
    hide Woven, WovenTo, Patient;
    assert (pieces + [own])[..|pieces|] == pieces;
    var more := Woven(q, own, turns[|pieces|]);
    assert start + TurnsWoven(p, turns, pieces) + more == start + (TurnsWoven(p, turns, pieces) + more);
  }

  /** A whole loop: its iterations, the step by which it is left, the wait for the recovery task, and the
      drain. */
  function LoopUnfold(p: Pool, turns: seq<Turn>, pieces: seq<seq<Step>>, leaving: seq<Step>, leave: Leave): seq<Step>
    requires |pieces| <= |turns|
    requires Left(TurnsTo(p, turns, pieces), leaving).phase == Draining
  {
    var q := Left(TurnsTo(p, turns, pieces), leaving);
    TurnsWoven(p, turns, pieces) + leaving + Played(q, leave.leaving) + Waits(Playing(q, leave.leaving), leave)
  }

  function Left(p: Pool, leaving: seq<Step>): Pool {
    if leaving == [] then p else Stepped(p, leaving[0])
  }

  lemma {:induction false} FreshId(ids: set<nat>) returns (d: nat)
    ensures forall k :: k in ids ==> k < d
    decreases ids
  {
    d := 0;
    if ids != {} {
      var k :| k in ids;
      var rest := FreshId(ids - {k});
      d := if k < rest then rest else k + 1;
      assert ids == (ids - {k}) + {k};
    }
  }

  /** What the loop relies on across an await. */
  ghost predicate Kept(p: Pool, p': Pool) {
    && p'.phase == p.phase && p'.batch == p.batch && p'.closing == p.closing
    && p'.sem.waiting == p.sem.waiting && (p.sem.free > 0 && !p.sem.waiting ==> p'.sem.free > 0)
    && p'.crew.tasks == p.crew.tasks && p'.crew.holders <= p.crew.holders
    && p'.claimed == p.claimed
    && (p.requested ==> p'.requested)
  }

  lemma KeptByBackground(p: Pool, e: Step)
    requires Background(e) && Enabled(p, e)
    ensures Kept(p, Apply(p, e))
  {
  }

  /** Once joined, the group exists. */
  lemma {:induction false} GroupStays(u: Setup, trace: seq<Step>)
    requires Run(u, trace)
    ensures After(u, trace).phase != Starting ==> After(u, trace).world.redis.hasGroup
  {
    if trace != [] {
      var before, e := trace[..|trace| - 1], trace[|trace| - 1];
      GroupStays(u, before);
      Projects(u, before);
      WorldSound(u, before);
      WorldStep(u, After(u, before), e);
      if EventOf(u, e) != [] {
        RedisStep(After(u, before).world, EventOf(u, e)[0]);
      }
    }
  }

  class WorkerRunner {
    const site: Site
    const consumer: Consumer
    const max: nat
    const limit: nat
    const shutdown: GracefulShutdown
    var phase: Phase
    var batch: seq<nat>
    var sem: Semaphore
    var crew: Crew
    var claimed: set<nat>
    var closing: Closing
    ghost const setup: Setup
    ghost var trace: seq<Step>

    function View(): Pool
      reads this, shutdown, site, site.transport, site.store
    {
      Pool(consumer.worker, max, limit, shutdown.requested, phase, batch, sem, crew, claimed, closing, site.View())
    }

    ghost predicate Wired()
      reads this
    {
      consumer.site == site && setup.worker == consumer.worker && setup.limit == limit && setup.max == max
    }

    /** The state is the one the recorded steps lead to. */
    ghost predicate Valid()
      reads this, shutdown, site, site.transport, site.store
    {
      site.Valid() && Wired() && Run(setup, trace) && View() == After(setup, trace)
    }

    constructor (consumer: Consumer, max: nat, limit: nat)
      requires consumer.site.Valid()
      ensures Valid() && trace == [] && setup.history == consumer.site.trace && phase == Starting
      ensures this.consumer == consumer && this.max == max && this.limit == limit && fresh(shutdown)
    {
      this.site, this.consumer, this.max, this.limit := consumer.site, consumer, max, limit;
      shutdown := new GracefulShutdown();
      phase, batch, sem, crew := Starting, [], Semaphore(max, false, false), Crew([], {}, {}, {});
      claimed, closing := {}, Closing({}, {});
      setup := Setup(consumer.site.cfg, consumer.site.trace, consumer.worker, max, limit);
      trace := [];
    }

    /** Records a step that has just been carried out from state `p`. */
    ghost method Log(p: Pool, e: Step)
      requires site.Valid() && Wired() && Run(setup, trace) && After(setup, trace) == p
      requires Enabled(p, e) && View() == Apply(p, e)
      modifies this`trace
      ensures Valid() && trace == old(trace) + [e]
      ensures LoopSteps(trace) == old(LoopSteps(trace)) + (if Background(e) then [] else [e])
    {
      Extend(setup, trace, e);
      LoopStepsExtend(trace, e);
      trace := trace + [e];
    }

    lemma HasGroup()
      requires Valid() && phase != Starting
      ensures site.transport.hasGroup
    {
      GroupStays(setup, trace);
    }

    lemma PermitsAdd()
      requires Valid()
      ensures Bulkhead(View())
    {
      BulkheadHolds(setup, trace);
    }

    /** What holds at every point. */
    lemma Facts()
      requires Valid()
      ensures Bulkhead(View()) && ClaimsHeld(View()) && DrainCovers(View())
      ensures Sound(View().world) && (phase != Starting ==> site.transport.hasGroup)
    {
      BulkheadHolds(setup, trace);
      ClaimedIsHeld(setup, trace);
      DrainAlwaysCovers(setup, trace);
      WorldSound(setup, trace);
      GroupStays(setup, trace);
    }

    // -- what runs at the loop's awaits --------------------------------------------

    /** An await of the loop: the steps of the schedule take place, each if it is enabled when its turn
        comes. */
    method Await(steps: seq<Step>)
      requires Valid()
      modifies this, shutdown, site, site.transport, site.store
      ensures Valid() && trace == old(trace) + Played(old(View()), steps)
      ensures View() == Playing(old(View()), steps)
      ensures LoopSteps(trace) == old(LoopSteps(trace))
      ensures Kept(old(View()), View())
    {
      hide Run, After, LoopSteps, Valid;
      ghost var start, loop, p := trace, LoopSteps(trace), View();
      for i := 0 to |steps|
        invariant Valid() && LoopSteps(trace) == loop
        invariant trace + Played(View(), steps[i..]) == start + Played(p, steps)
        invariant Playing(View(), steps[i..]) == Playing(p, steps)
        invariant Kept(p, View())
      {
        assert steps[i..][1..] == steps[i + 1..];
        if Background(steps[i]) && Enabled(View(), steps[i]) {
          ghost var rest := Played(Apply(View(), steps[i]), steps[i + 1..]);
          assert trace + ([steps[i]] + rest) == trace + [steps[i]] + rest;
          TakeStep(steps[i]);
        }
      }
    }

    method TakeStep(e: Step)
      requires Valid() && Background(e) && Enabled(View(), e)
      modifies this, shutdown, site, site.transport, site.store
      ensures Valid() && trace == old(trace) + [e] && View() == Apply(old(View()), e)
      ensures LoopSteps(trace) == old(LoopSteps(trace))
      ensures Kept(old(View()), View())
    {
      hide Run, After, LoopSteps, Protocol.Run, Protocol.After;
      ghost var p := View();
      match e {
        case Request => shutdown.RequestStop();
        case Work(t, event) => site.Fire(event);
        case Others(event) => site.Fire(event);
        case Callback(t) => Discard(t);
        case Release(t) =>
          ReleaseSemaphore();
          CompleteTask(t);
      }
      Log(p, e);
      KeptByBackground(p, e);
    }

    /** A release wakes the waiting loop, else frees a permit. */
    method ReleaseSemaphore()
      modifies this`sem
      ensures sem == Released(old(sem))
    {
      if !sem.waiting || sem.granted {
        sem := sem.(free := sem.free + 1);
      }
      sem := sem.(granted := sem.waiting);
    }

    method CompleteTask(t: nat)
      modifies this`crew
      ensures crew == Finishing(old(crew), t)
    {
      crew := crew.(holders := crew.holders - {t}, finishing := crew.finishing + {t});
    }

    method Discard(t: nat)
      modifies this`crew
      ensures crew == Discarding(old(crew), t)
    {
      crew := crew.(finishing := crew.finishing - {t}, inflight := crew.inflight - {t});
    }

    // -- the loop's own steps --------------------------------------------------------

    method JoinGroup()
      requires Valid() && phase == Starting
      modifies this, site`trace, site.transport
      ensures Valid() && trace == old(trace) + [Join] && View() == Apply(old(View()), Join)
      ensures LoopSteps(trace) == old(LoopSteps(trace)) + [Join]
    {
      ghost var p := View();
      consumer.Join();
      phase := AtTop;
      Log(p, Join);
    }

    /** The loop head: is the event set, is there an admission controller? */
    method EnterTop(admission: bool)
      requires Valid() && phase == AtTop
      modifies this
      ensures Valid() && trace == old(trace) + [Top(admission)] && View() == Apply(old(View()), Top(admission))
      ensures LoopSteps(trace) == old(LoopSteps(trace)) + [Top(admission)]
      ensures phase == if shutdown.requested then Draining else if admission then Admitting else Polling
      ensures crew == old(crew) && claimed == old(claimed)
    {
      ghost var p := View();
      phase := if shutdown.requested then Draining else if admission then Admitting else Polling;
      Log(p, Top(admission));
    }

    method TakeAdmission(healthy: bool)
      requires Valid() && phase == Admitting
      modifies this
      ensures Valid() && trace == old(trace) + [Admit(healthy)] && View() == Apply(old(View()), Admit(healthy))
      ensures LoopSteps(trace) == old(LoopSteps(trace)) + [Admit(healthy)]
    {
      ghost var p := View();
      phase := if healthy then Polling else AtTop;
      Log(p, Admit(healthy));
    }

    /** XREADGROUP through the consumer: the ids it hands over. */
    method Read(now: int) returns (ids: seq<nat>)
      requires Valid() && site.transport.hasGroup
      modifies site`trace, site.transport
      ensures site.Valid() && ids == Reply(old(View()))
      ensures site.View() == Protocol.Apply(old(site.View()), ReadOf(old(View()), now))
    {
      var r := consumer.Poll(limit, now);
      ids := IdsInOrder(r.value);
    }

    /** A reply reaches the loop. */
    method TakeReply(now: int) returns (jobs: seq<nat>)
      requires Valid() && phase == Polling
      modifies this, site, site.transport
      ensures Valid() && trace == old(trace) + [PollReturns(now)]
      ensures Enabled(old(View()), PollReturns(now)) && View() == Apply(old(View()), PollReturns(now))
      ensures LoopSteps(trace) == old(LoopSteps(trace)) + [PollReturns(now)]
      ensures batch == jobs == Reply(old(View())) && phase == (if jobs == [] then AtTop else Dispatching)
      ensures Elements(jobs) !! old(claimed) && claimed == old(claimed) + Elements(jobs)
      ensures crew == old(crew) && shutdown.requested == old(shutdown.requested) && !sem.waiting
    {
      hide Run, After, LoopSteps, Protocol.Run, Protocol.After, Protocol.Apply, Reply;
      ghost var p := View();
      Facts();
      RepliesAreFresh(p);
      jobs := Read(now);
      AcceptJobs(jobs);
      Log(p, PollReturns(now));
    }

    method AcceptJobs(jobs: seq<nat>)
      modifies this`phase, this`batch, this`claimed
      ensures phase == (if jobs == [] then AtTop else Dispatching) && batch == jobs
      ensures claimed == old(claimed) + Elements(jobs)
    {
      phase := if jobs == [] then AtTop else Dispatching;
      batch := jobs;
      claimed := claimed + Elements(jobs);
    }

    /** A read that raises; if Redis carried it out, what it handed over is claimed all the same. */
    method LosePoll(applied: bool, now: int)
      requires Valid() && phase == Polling
      modifies this, site, site.transport
      ensures Valid() && trace == old(trace) + [PollFails(applied, now)]
      ensures Enabled(old(View()), PollFails(applied, now)) && View() == Apply(old(View()), PollFails(applied, now))
      ensures LoopSteps(trace) == old(LoopSteps(trace)) + [PollFails(applied, now)]
      ensures phase == AtTop && crew == old(crew) && old(claimed) <= claimed
      ensures shutdown.requested == old(shutdown.requested)
    {
      hide Run, After, LoopSteps, Protocol.Run, Protocol.After;
      ghost var p := View();
      HasGroup();
      ClaimUnseen(applied, now);
      phase := AtTop;
      Log(p, PollFails(applied, now));
    }

    /** CancelledError while the read is under way, with the same effect. */
    method CutPoll(applied: bool, now: int)
      requires Valid() && phase == Polling
      modifies this, site, site.transport
      ensures Valid() && trace == old(trace) + [CancelLoop(applied, now)]
      ensures Enabled(old(View()), CancelLoop(applied, now)) && View() == Apply(old(View()), CancelLoop(applied, now))
      ensures LoopSteps(trace) == old(LoopSteps(trace)) + [CancelLoop(applied, now)]
      ensures phase == Draining && crew == old(crew) && old(claimed) <= claimed
      ensures shutdown.requested == old(shutdown.requested)
    {
      hide Run, After, LoopSteps, Protocol.Run, Protocol.After, Protocol.Apply, Reply;
      ghost var p := View();
      HasGroup();
      ClaimUnseen(applied, now);
      AbandonWait();
      phase := Draining;
      Log(p, CancelLoop(applied, now));
    }

    method ClaimUnseen(applied: bool, now: int)
      requires Valid() && site.transport.hasGroup
      modifies this`claimed, site`trace, site.transport
      ensures site.Valid()
      ensures View() == if applied then Reading(old(View()), now) else old(View())
    {
      if applied {
        var ids := Read(now);
        claimed := claimed + Elements(ids);
      }
    }

    /** A permit already granted to a loop that is cancelled goes back. */
    method AbandonWait()
      modifies this`sem
      ensures sem == Abandoned(old(sem))
    {
      if sem.granted {
        sem := sem.(free := sem.free + 1);
      }
      sem := sem.(waiting := false, granted := false);
    }

    /** CancelledError at any other await of the loop. */
    method Cancel()
      requires Valid() && (phase == AtTop || (phase == Dispatching && sem.waiting))
      modifies this
      ensures Valid() && trace == old(trace) + [CancelLoop(false, 0)]
      ensures View() == Apply(old(View()), CancelLoop(false, 0))
      ensures phase == Draining && crew == old(crew) && claimed == old(claimed)
      ensures LoopSteps(trace) == old(LoopSteps(trace)) + [CancelLoop(false, 0)]
    {
      hide Run, After, LoopSteps, Protocol.Run, Protocol.After;
      ghost var p := View();
      AbandonWait();
      phase := Draining;
      Log(p, CancelLoop(false, 0));
    }

    method WaitForPermit()
      requires Valid() && phase == Dispatching && batch != [] && sem.free == 0 && !sem.waiting
      modifies this
      ensures Valid() && trace == old(trace) + [Block]
      ensures Enabled(old(View()), Block) && View() == Apply(old(View()), Block)
      ensures sem.waiting && phase == Dispatching && batch == old(batch) && crew == old(crew) && claimed == old(claimed)
      ensures LoopSteps(trace) == old(LoopSteps(trace)) + [Block]
    {
      ghost var p := View();
      sem := sem.(waiting := true);
      Log(p, Block);
    }

    /** Takes the permit and starts the task of the next job. */
    method SpawnNext(d: nat, stubborn: bool)
      requires Valid() && phase == Dispatching && batch != []
      requires if sem.waiting then sem.granted else sem.free > 0
      requires d !in site.work && !OwnDelivery(crew, d)
      modifies this
      ensures Valid() && trace == old(trace) + [Spawn(d, stubborn)]
      ensures View() == Apply(old(View()), Spawn(d, stubborn))
      ensures LoopSteps(trace) == old(LoopSteps(trace)) + [Spawn(d, stubborn)]
      ensures Entries(crew.tasks) == old(Entries(crew.tasks)) + [old(batch)[0]]
      ensures batch == old(batch)[1..] && phase == (if batch == [] then AtTop else Dispatching) && !sem.waiting
      ensures claimed == old(claimed)
    {
      hide Run, After, LoopSteps, Protocol.Run, Protocol.After;
      ghost var p := View();
      TakePermit();
      TrackTask(d, stubborn);
      Log(p, Spawn(d, stubborn));
    }

    /** The permit a release granted to the waiting loop, or a free one. */
    method TakePermit()
      requires if sem.waiting then sem.granted else sem.free > 0
      modifies this`sem
      ensures sem == Semaphore(if old(sem.waiting) then old(sem.free) else old(sem.free) - 1, false, false)
    {
      if !sem.waiting {
        sem := sem.(free := sem.free - 1);
      }
      sem := sem.(waiting := false, granted := false);
    }

    /** Creates the task for the next job and adds it to the tracked set. */
    method TrackTask(d: nat, stubborn: bool)
      requires batch != []
      modifies this`crew, this`phase, this`batch
      ensures crew == old(Crew(crew.tasks + [Task(batch[0], d, stubborn)], crew.holders + {|crew.tasks|},
                               crew.finishing, crew.inflight + {|crew.tasks|}))
      ensures batch == old(batch)[1..] && phase == if |old(batch)| == 1 then AtTop else Dispatching
    {
      var t := |crew.tasks|;
      crew := crew.(tasks := crew.tasks + [Task(batch[0], d, stubborn)]);
      crew := crew.(holders := crew.holders + {t}, inflight := crew.inflight + {t});
      phase := if |batch| == 1 then AtTop else Dispatching;
      batch := batch[1..];
    }

    /** A name for the execution to come. */
    method NewDelivery() returns (d: nat)
      ensures d !in site.work && !OwnDelivery(crew, d)
    {
      ghost var own := set t | 0 <= t < |crew.tasks| :: crew.tasks[t].delivery;
      ghost var bound := FreshId(site.work.Keys + own);
      assert forall t :: 0 <= t < |crew.tasks| ==> crew.tasks[t].delivery in own;
      assert bound !in site.work && !OwnDelivery(crew, bound);
      d :| d !in site.work && !OwnDelivery(crew, d);
    }

    // -- the loop -------------------------------------------------------------------

    /** For each job, in order: acquire a permit, then create and track its task.  A loop that is not
        granted one stays in that await until it is cancelled, and the rest of the batch stays claimed. */
    method DispatchAll(turn: Turn) returns (ghost own: seq<Step>, ghost m: nat)
      requires Valid() && phase == Dispatching && batch != [] && !sem.waiting
      modifies this, shutdown, site, site.transport, site.store
      ensures Valid() && Wove(old(trace), old(View()), trace, View(), own, turn)
      ensures LoopSteps(trace) == old(LoopSteps(trace)) + own
      ensures DispatchSteps(own) && Settled(old(View()), View(), own)
      ensures Given(old(View()), View(), old(batch), m) && claimed == old(claimed)
    {
      hide Run, After, LoopSteps, Valid, Protocol.Run, Protocol.After, Wove;
      ghost var start, loop, p := trace, LoopSteps(trace), View();
      own, m := [], 0;
      WoveNone(start, p, turn);
      while phase == Dispatching
        invariant Valid() && Wove(start, p, trace, View(), own, turn)
        invariant LoopSteps(trace) == loop + own
        invariant Underway(p, View(), own, m)
        decreases |p.batch| - m, if phase == Dispatching then 1 else 0
      {
        ghost var mid, q := trace, View();
        ghost var more := DispatchNext(turn);
        assert loop + own + more == loop + (own + more);
        WoveJoin(start, p, mid, q, trace, View(), own, more, turn);
        OneMore(p, q, View(), own, more, m);
        own, m := own + more, if Cut(more) then m else m + 1;
      }
    }

    /** Acquiring, up to where the permit is there or the loop is still waiting for it. */
    method AwaitPermit(turn: Turn) returns (ghost own: seq<Step>)
      requires Valid() && phase == Dispatching && batch != [] && !sem.waiting
      modifies this, shutdown, site, site.transport, site.store
      ensures Valid() && Wove(old(trace), old(View()), trace, View(), own, turn)
      ensures LoopSteps(trace) == old(LoopSteps(trace)) + own
      ensures own == if sem.waiting then [Block] else []
      ensures sem.waiting ==>
                && Enabled(old(View()), Block)
                && trace == old(trace) + [Block] + Played(Apply(old(View()), Block), ScheduleAt(turn, 2 + |old(batch)|))
      ensures !sem.waiting ==> trace == old(trace)
      ensures if sem.waiting then sem.granted || sem.free == 0 else sem.free > 0
      ensures phase == Dispatching && batch == old(batch) && crew.tasks == old(crew.tasks)
      ensures claimed == old(claimed) && (old(shutdown.requested) ==> shutdown.requested)
    {
      hide Run, After, LoopSteps, Valid, Protocol.Run, Protocol.After, Played, Playing, Apply, Enabled, Wove;
      ghost var start, p := trace, View();
      own := [];
      WoveNone(start, p, turn);
      if sem.free == 0 {
        WaitForPermit();
        own := [Block];
        Await(ScheduleAt(turn, 2 + |batch|));
        WoveOne(start, p, Block, turn);
        PermitsAdd();
      }
    }

    /** One job of the batch. */
    method DispatchNext(turn: Turn) returns (ghost own: seq<Step>)
      requires Valid() && phase == Dispatching && batch != [] && !sem.waiting
      modifies this, shutdown, site, site.transport, site.store
      ensures Valid() && Wove(old(trace), old(View()), trace, View(), own, turn)
      ensures LoopSteps(trace) == old(LoopSteps(trace)) + own
      ensures DispatchedOne(old(View()), View(), own)
    {
      hide Run, After, LoopSteps, Valid, Protocol.Run, Protocol.After, Played, Playing, Apply, Enabled, Wove;
      ghost var start, p := trace, View();
      ghost var first := AwaitPermit(turn);
      ghost var mid, q := trace, View();
      ghost var e;
      if sem.waiting && !sem.granted {
        Cancel();
        e := CancelLoop(false, 0);
      } else {
        var d := NewDelivery();
        var stubborn := |crew.tasks| in turn.stubborn;
        SpawnNext(d, stubborn);
        e := Spawn(d, stubborn);
      }
      own := first + [e];
      WoveOne(mid, q, e, turn);
      PlayedNone(mid, e, View());
      WoveJoin(start, p, mid, q, trace, View(), first, [e], turn);
    }

    /** The read and what follows from how it ends. */
    method PollOnce(turn: Turn) returns (ghost own: seq<Step>, ghost jobs: seq<nat>, ghost m: nat)
      requires Valid() && phase == Polling
      modifies this, shutdown, site, site.transport, site.store
      ensures Valid() && Wove(old(trace), old(View()), trace, View(), own, turn)
      ensures LoopSteps(trace) == old(LoopSteps(trace)) + own
      ensures PollSteps(turn.poll, own) && Settled(old(View()), View(), own)
      ensures Fetched(old(View()), View(), jobs, m) && (jobs != [] ==> turn.poll.Replies?)
      ensures turn.poll.Fails? ==>
                var e := PollFails(turn.poll.applied, turn.poll.now);
                && Enabled(old(View()), e)
                && trace == old(trace) + [e] + Played(Apply(old(View()), e), ScheduleAt(turn, 2))
    {
      hide Run, After, LoopSteps, Valid, Protocol.Run, Protocol.After, Played, Playing, Apply, Enabled, Wove;
      ghost var start, p := trace, View();
      jobs, m := [], 0;
      match turn.poll
      case Fails(applied, now) =>
        LosePoll(applied, now);
        own := [PollFails(applied, now)];
        Await(ScheduleAt(turn, 2));
        WoveOne(start, p, PollFails(applied, now), turn);
      case CancelledInRead(applied, now) =>
        CutPoll(applied, now);
        own := [CancelLoop(applied, now)];
        WoveOne(start, p, CancelLoop(applied, now), turn);
        PlayedNone(start, CancelLoop(applied, now), View());
      case Replies(now) =>
        own, jobs, m := HandleReply(turn, now);
    }

    method Receive(turn: Turn, now: int) returns (jobs: seq<nat>)
      requires Valid() && phase == Polling
      modifies this, site, site.transport
      ensures Valid() && Wove(old(trace), old(View()), trace, View(), [PollReturns(now)], turn)
      ensures LoopSteps(trace) == old(LoopSteps(trace)) + [PollReturns(now)]
      ensures batch == jobs == Reply(old(View())) && phase == (if jobs == [] then AtTop else Dispatching)
      ensures Elements(jobs) !! old(claimed) && claimed == old(claimed) + Elements(jobs)
      ensures crew == old(crew) && shutdown.requested == old(shutdown.requested) && !sem.waiting
    {
      hide Run, After, LoopSteps, Valid, Protocol.Run, Protocol.After, Played, Playing, Apply, Enabled, Wove;
      ghost var start, p := trace, View();
      jobs := TakeReply(now);
      WoveOne(start, p, PollReturns(now), turn);
      PlayedNone(start, PollReturns(now), View());
    }

    method HandleReply(turn: Turn, now: int) returns (ghost own: seq<Step>, ghost jobs: seq<nat>, ghost m: nat)
      requires Valid() && phase == Polling
      modifies this, shutdown, site, site.transport, site.store
      ensures Valid() && Wove(old(trace), old(View()), trace, View(), own, turn)
      ensures LoopSteps(trace) == old(LoopSteps(trace)) + own
      ensures PollSteps(Replies(now), own) && Settled(old(View()), View(), own)
      ensures Fetched(old(View()), View(), jobs, m) && jobs == Reply(old(View()))
    {
      hide Run, After, LoopSteps, Valid, Protocol.Run, Protocol.After, Played, Playing, Apply, Enabled, Wove, Reply;
      ghost var start, p, loop := trace, View(), LoopSteps(trace);
      m := 0;
      var reply := Receive(turn, now);
      own, jobs := [PollReturns(now)], reply;
      if phase == Dispatching {
        ghost var mid, q, rest := trace, View(), [];
        rest, m := DispatchAll(turn);
        assert loop + own + rest == loop + (own + rest);
        WoveJoin(start, p, mid, q, trace, View(), own, rest, turn);
        own := own + rest;
        assert own[1..] == rest;
      }
    }

    /** The loop head and the admission check, with the await that follows. */
    method CheckAdmission(turn: Turn)
      requires Valid() && phase == AtTop && !shutdown.requested
      modifies this, shutdown, site, site.transport, site.store
      ensures Valid() && Wove(old(trace), old(View()), trace, View(), Head(turn), turn)
      ensures LoopSteps(trace) == old(LoopSteps(trace)) + Head(turn)
      ensures var top, wait := Top(turn.admission.Some?), ScheduleAt(turn, if turn.admission.Some? then 0 else 1);
              var p := Stepped(old(View()), top);
              var q, start := Playing(p, wait), old(trace) + [top] + Played(p, wait);
              match turn.admission
              case None => trace == start
              case Some(healthy) =>
                trace == start + [Admit(healthy)] + Played(Stepped(q, Admit(healthy)), ScheduleAt(turn, 1))
      ensures phase == if turn.admission == Some(false) then AtTop else Polling
      ensures crew.tasks == old(crew.tasks) && claimed == old(claimed)
      ensures old(shutdown.requested) ==> shutdown.requested
    {
      hide Run, After, LoopSteps, Valid, Protocol.Run, Protocol.After, Played, Playing, Wove;
      ghost var start, p, loop := trace, View(), LoopSteps(trace);
      EnterTop(turn.admission.Some?);
      Await(ScheduleAt(turn, if turn.admission.Some? then 0 else 1));
      WoveOne(start, p, Top(turn.admission.Some?), turn);
      if turn.admission.Some? {
        ghost var mid, q := trace, View();
        TakeAdmission(turn.admission.value);
        Await(ScheduleAt(turn, 1));
        WoveOne(mid, q, Admit(turn.admission.value), turn);
        WoveJoin(start, p, mid, q, trace, View(), [Top(true)], [Admit(turn.admission.value)], turn);
        assert loop + [Top(true)] + [Admit(turn.admission.value)] == loop + Head(turn);
      } else {
        assert Head(turn) == [Top(false)];
      }
    }

    /** One iteration: its own steps are those of the turn; `jobs` is what the poll returned, all newly
        claimed; and the first `m` of them got a task each, all unless the loop was cancelled. */
    method Iterate(turn: Turn) returns (ghost own: seq<Step>, ghost jobs: seq<nat>, ghost m: nat)
      requires Valid() && phase == AtTop && !shutdown.requested
      modifies this, shutdown, site, site.transport, site.store
      ensures Valid() && Wove(old(trace), old(View()), trace, View(), own, turn)
      ensures LoopSteps(trace) == old(LoopSteps(trace)) + own
      ensures TurnSteps(turn, own) && Settled(old(View()), View(), own)
      ensures Fetched(old(View()), View(), jobs, m)
      ensures jobs != [] ==> turn.admission != Some(false) && turn.poll.Replies?
      ensures own != [] && own[0] == Top(turn.admission.Some?)
      ensures turn.admission.Some? ==> |own| >= 2 && own[1] == Admit(turn.admission.value)
      ensures turn.admission != Some(false) ==>
                var polled := if turn.admission.Some? then 2 else 1;
                && |own| > polled
                && own[polled] == match turn.poll
                                  case Fails(applied, now) => PollFails(applied, now)
                                  case CancelledInRead(applied, now) => CancelLoop(applied, now)
                                  case Replies(now) => PollReturns(now)
    {
      hide Run, After, LoopSteps, Valid, Protocol.Run, Protocol.After, Played, Playing, Apply, Enabled, Wove;
      ghost var start, p, loop := trace, View(), LoopSteps(trace);
      CheckAdmission(turn);
      if phase == AtTop {
        // Backpressure: the sleep is over, start over.
        return Head(turn), [], 0;
      }
      ghost var mid, q := trace, View();
      ghost var rest;
      rest, jobs, m := PollOnce(turn);
      own := Head(turn) + rest;
      assert own[|Head(turn)|..] == rest && own[..|Head(turn)|] == Head(turn);
      assert loop + Head(turn) + rest == loop + own;
      WoveJoin(start, p, mid, q, trace, View(), Head(turn), rest, turn);
    }

    method RunTurns(turns: seq<Turn>) returns (ghost pieces: seq<seq<Step>>, ghost handed: seq<nat>, ghost n: nat)
      requires Valid() && phase == AtTop
      modifies this, shutdown, site, site.transport, site.store
      ensures Valid() && WoveTurns(old(trace), old(View()), trace, View(), turns, pieces)
      ensures LoopSteps(trace) == old(LoopSteps(trace)) + Flatten(pieces)
      ensures Looped(turns, old(View()), View(), pieces, handed, n)
      ensures phase == AtTop ==> shutdown.requested || |pieces| == |turns|
    {
      hide Run, After, LoopSteps, Valid, Protocol.Run, Protocol.After, Looped, Flatten, Wove, WoveTurns;
      ghost var start, loop, p := trace, LoopSteps(trace), View();
      pieces, handed, n := [], [], 0;
      NoTurn(turns, p);
      WoveNoTurn(start, p, turns);
      var k := 0;
      while k < |turns| && !shutdown.requested && phase == AtTop
        invariant k == |pieces| <= |turns|
        invariant Valid() && WoveTurns(start, p, trace, View(), turns, pieces)
        invariant LoopSteps(trace) == loop + Flatten(pieces)
        invariant Looped(turns, p, View(), pieces, handed, n)
      {
        ghost var mid, q := trace, View();
        ghost var own, jobs, m := Iterate(turns[k]);
        OneMoreTurn(turns, p, q, View(), pieces, own, handed, jobs, n, m);
        WoveOneMoreTurn(start, p, mid, q, trace, View(), turns, pieces, own);
        FlattenMore(loop, pieces, own);
        pieces, handed, n := pieces + [own], handed + jobs, n + m;
        k := k + 1;
      }
    }

    /** The loop head finds the event set, or the loop is cancelled there. */
    method LeaveTop() returns (ghost own: seq<Step>)
      requires Valid() && phase == AtTop
      modifies this
      ensures Valid() && trace == old(trace) + own && View() == Left(old(View()), own)
      ensures LoopSteps(trace) == old(LoopSteps(trace)) + own
      ensures own == if shutdown.requested then [Top(false)] else [CancelLoop(false, 0)]
      ensures phase == Draining && crew == old(crew) && claimed == old(claimed)
    {
      hide Run, After, LoopSteps, Valid, Protocol.Run, Protocol.After;
      if shutdown.requested {
        EnterTop(false);
        own := [Top(false)];
      } else {
        Cancel();
        own := [CancelLoop(false, 0)];
      }
    }

    /** One iteration after another until the event is found set or the loop is cancelled, then the drain.
        `pieces` are the loop's steps in each iteration; `handed` is everything the polls returned to it,
        of which the first `n`, in order, got a task each: all, unless the loop was cancelled. */
    method RunLoop(turns: seq<Turn>, leave: Leave)
      returns (ghost pieces: seq<seq<Step>>, ghost leaving: seq<Step>, ghost draining: seq<Step>,
               ghost handed: seq<nat>, ghost n: nat)
      requires Valid() && phase == AtTop
      modifies this, shutdown, site, site.transport, site.store
      ensures Valid() && Ended(View()) && DrainCovers(View()) && (phase == Aborted ==> !leave.cut.Uncut?)
      ensures LoopSteps(trace) == old(LoopSteps(trace)) + Flatten(pieces) + leaving + draining
      ensures Iterated(turns, pieces) && TurnsPatient(old(View()), turns, pieces)
      ensures Leaves(turns, pieces, leaving, shutdown.requested) && DrainSteps(draining)
      ensures Left(TurnsTo(old(View()), turns, pieces), leaving).phase == Draining
      ensures old(trace) + LoopUnfold(old(View()), turns, pieces, leaving, leave) <= trace
      ensures old(trace) + TurnsWoven(old(View()), turns, pieces) + leaving +
              Played(Left(TurnsTo(old(View()), turns, pieces), leaving), leave.leaving) <= trace
      ensures n <= |handed| && Entries(crew.tasks) == old(Entries(crew.tasks)) + handed[..n]
      ensures Elements(handed) <= claimed
      ensures n < |handed| ==> pieces != [] && Cut(pieces[|pieces| - 1])
      ensures old(shutdown.requested) ==> shutdown.requested
    {
      hide Run, After, LoopSteps, Valid, Protocol.Run, Protocol.After, Played, Playing, Apply, Enabled, TurnsWoven,
        TurnsTo, TurnsPatient, Waits;
      ghost var start, p := trace, View();
      pieces, handed, n := RunTurns(turns);
      ghost var looped := trace;
      leaving := [];
      if phase == AtTop {
        leaving := LeaveTop();
      }
      ghost var left, q := trace, View();
      Await(leave.leaving);
      ghost var waited, q' := trace, View();
      draining := DrainInflight(leave);
      Gathered(start, looped, left, waited, TurnsWoven(p, turns, pieces), leaving, Played(q, leave.leaving),
               Waits(q', leave));
    }

    /** Joins the group, then runs the loop to its end. */
    method RunWorker(turns: seq<Turn>, leave: Leave)
      returns (ghost pieces: seq<seq<Step>>, ghost leaving: seq<Step>, ghost draining: seq<Step>)
      requires Valid() && phase == Starting
      modifies this, shutdown, site, site.transport, site.store
      ensures Valid() && Ended(View()) && DrainCovers(View()) && (phase == Aborted ==> !leave.cut.Uncut?)
      ensures LoopSteps(trace) == old(LoopSteps(trace)) + [Join] + Flatten(pieces) + leaving + draining
      ensures Iterated(turns, pieces) && Leaves(turns, pieces, leaving, shutdown.requested) && DrainSteps(draining)
      ensures var p := Stepped(old(View()), Join);
              && TurnsPatient(p, turns, pieces) && Left(TurnsTo(p, turns, pieces), leaving).phase == Draining
              && old(trace) + [Join] + LoopUnfold(p, turns, pieces, leaving, leave) <= trace
      ensures old(shutdown.requested) ==> shutdown.requested
    {
      hide Run, After, LoopSteps, Valid, Protocol.Run, Protocol.After, Played, Playing, LoopUnfold, TurnsTo,
        TurnsPatient;
      JoinGroup();
      ghost var handed, n;
      pieces, leaving, draining, handed, n := RunLoop(turns, leave);
    }

    // -- the drain ----------------------------------------------------------------

    method StartDrain()
      requires Valid() && phase == Draining
      modifies this
      ensures Valid() && trace == old(trace) + [DrainStart] && View() == Apply(old(View()), DrainStart)
      ensures LoopSteps(trace) == old(LoopSteps(trace)) + [DrainStart]
      ensures phase == (if crew.inflight == {} then Stopped else Waiting) && closing.snapshot == crew.inflight
      ensures crew == old(crew) && claimed == old(claimed)
    {
      hide Run, After, LoopSteps, Protocol.Run, Protocol.After;
      ghost var p := View();
      closing := Closing(crew.inflight, {});
      phase := if crew.inflight == {} then Stopped else Waiting;
      Log(p, DrainStart);
    }

    /** The grace period is over: what still runs of the snapshot is cancelled. */
    method CancelRest()
      requires Valid() && phase == Waiting
      modifies this
      ensures Valid() && trace == old(trace) + [DrainTimeout] && View() == Apply(old(View()), DrainTimeout)
      ensures LoopSteps(trace) == old(LoopSteps(trace)) + [DrainTimeout]
      ensures (phase == Stopped || phase == Cancelling) && closing.snapshot == old(closing.snapshot)
      ensures crew == old(crew) && claimed == old(claimed)
    {
      hide Run, After, LoopSteps, Protocol.Run, Protocol.After;
      ghost var p := View();
      var rest := closing.snapshot * crew.holders;
      CancelEach(rest);
      phase := if rest == {} then Stopped else Cancelling;
      Log(p, DrainTimeout);
    }

    method CancelEach(rest: set<nat>)
      modifies this`closing
      ensures closing == old(closing).(cancelled := rest)
    {
      closing := closing.(cancelled := {});
      var left := rest;
      while left != {}
        invariant left <= rest && closing == old(closing).(cancelled := rest - left)
        decreases left
      {
        var t :| t in left;
        closing, left := closing.(cancelled := closing.cancelled + {t}), left - {t};
      }
    }

    method FinishDrain()
      requires Valid() && Enabled(View(), DrainEnd)
      modifies this
      ensures Valid() && trace == old(trace) + [DrainEnd] && View() == Apply(old(View()), DrainEnd)
      ensures LoopSteps(trace) == old(LoopSteps(trace)) + [DrainEnd]
    {
      ghost var p := View();
      phase := Stopped;
      Log(p, DrainEnd);
    }

    /** CancelledError reaches a task: its delivery stops where it is, its permit is released. */
    method Unwind(t: nat)
      requires Valid() && t in crew.holders && t < |crew.tasks|
      modifies this, shutdown, site, site.transport, site.store
      ensures Valid() && old(trace) <= trace && LoopSteps(trace) == old(LoopSteps(trace))
      ensures Kept(old(View()), View()) && crew.holders == old(crew.holders) - {t}
    {
      hide Run, After, LoopSteps, Valid, Protocol.Run, Protocol.After;
      var d := crew.tasks[t].delivery;
      if Unfinished(site.View(), d) {
        TakeStep(Work(t, Protocol.HaltDelivery(d)));
      }
      TakeStep(Release(t));
    }

    /** Before the second wait is over, every cancelled task that responds has unwound. */
    method UnwindAll()
      requires Valid() && phase == Cancelling
      modifies this, shutdown, site, site.transport, site.store
      ensures Valid() && old(trace) <= trace && LoopSteps(trace) == old(LoopSteps(trace))
      ensures Kept(old(View()), View()) && Enabled(View(), DrainEnd)
    {
      hide Run, After, LoopSteps, Valid, Protocol.Run, Protocol.After;
      Facts();
      ghost var start, loop, p := trace, LoopSteps(trace), View();
      var left := set t | t in crew.holders && t in closing.cancelled && t < |crew.tasks| && !crew.tasks[t].stubborn;
      while left != {}
        invariant Valid() && start <= trace && LoopSteps(trace) == loop && Kept(p, View())
        invariant left <= crew.holders
        invariant forall t :: t in crew.holders && t in closing.cancelled && !crew.tasks[t].stubborn ==> t in left
        decreases left
      {
        var t :| t in left;
        Unwind(t);
        left := left - {t};
      }
    }

    /** A cancellation reaches the drain and ends the worker where it is. */
    method AbortDrain()
      requires Valid() && (phase == Waiting || phase == Cancelling)
      modifies this
      ensures Valid() && trace == old(trace) + [CancelDrain] && View() == Apply(old(View()), CancelDrain)
      ensures LoopSteps(trace) == old(LoopSteps(trace)) + [CancelDrain]
      ensures phase == Aborted && closing == old(closing) && crew == old(crew) && claimed == old(claimed)
    {
      ghost var p := View();
      phase := Aborted;
      Log(p, CancelDrain);
    }

    /** The grace period, and what follows if tasks still run. */
    method WaitForTasks(leave: Leave) returns (ghost own: seq<Step>)
      requires Valid() && phase == Waiting
      modifies this, shutdown, site, site.transport, site.store
      ensures Valid() && Ended(View()) && (phase == Aborted ==> !leave.cut.Uncut?)
      ensures old(trace) + Grace(old(View()), leave) <= trace
      ensures old(trace) + Played(old(View()), leave.grace) <= trace
      ensures LoopSteps(trace) == old(LoopSteps(trace)) + own && DrainSteps([DrainStart] + own)
      ensures closing.snapshot == old(closing.snapshot) && crew.tasks == old(crew.tasks)
      ensures claimed == old(claimed) && (old(shutdown.requested) ==> shutdown.requested)
    {
      hide Run, After, LoopSteps, Valid, Protocol.Run, Protocol.After, Played, Playing, Apply, Enabled, Rest;
      ghost var start, played := trace, Played(View(), leave.grace);
      Await(leave.grace);
      if leave.cut.InGrace? {
        AbortDrain();
        assert start + played + [CancelDrain] == start + (played + [CancelDrain]);
        return [CancelDrain];
      }
      ghost var rest := Rest(View(), leave);
      own := CancelAndWait(leave);
      assert start + played + rest == start + (played + rest);
    }

    method CancelAndWait(leave: Leave) returns (ghost own: seq<Step>)
      requires Valid() && phase == Waiting
      modifies this, shutdown, site, site.transport, site.store
      ensures Valid() && Ended(View()) && (phase == Aborted ==> leave.cut.InLast?)
      ensures old(trace) + Rest(old(View()), leave) <= trace
      ensures LoopSteps(trace) == old(LoopSteps(trace)) + own
      ensures own == [DrainTimeout] || own == [DrainTimeout, DrainEnd] || own == [DrainTimeout, CancelDrain]
      ensures closing.snapshot == old(closing.snapshot) && crew.tasks == old(crew.tasks)
      ensures claimed == old(claimed) && (old(shutdown.requested) ==> shutdown.requested)
    {
      hide Run, After, LoopSteps, Valid, Protocol.Run, Protocol.After, Played, Playing, Last, Apply, Enabled;
      ghost var start := trace;
      CancelRest();
      own := [DrainTimeout];
      if phase == Cancelling {
        ghost var last := Last(View(), leave);
        WaitForCancelled(leave);
        assert start + [DrainTimeout] + last == start + ([DrainTimeout] + last);
        own := own + [if leave.cut.InLast? then CancelDrain else DrainEnd];
      }
    }

    method WaitForCancelled(leave: Leave)
      requires Valid() && phase == Cancelling
      modifies this, shutdown, site, site.transport, site.store
      ensures Valid() && phase == if leave.cut.InLast? then Aborted else Stopped
      ensures old(trace) + Last(old(View()), leave) <= trace
      ensures old(trace) + Played(old(View()), leave.last) <= trace
      ensures LoopSteps(trace) == old(LoopSteps(trace)) + [if leave.cut.InLast? then CancelDrain else DrainEnd]
      ensures closing == old(closing) && crew.tasks == old(crew.tasks)
      ensures claimed == old(claimed) && (old(shutdown.requested) ==> shutdown.requested)
    {
      hide Run, After, LoopSteps, Valid, Protocol.Run, Protocol.After, Played, Playing;
      ghost var start, played := trace, Played(View(), leave.last);
      Await(leave.last);
      if leave.cut.InLast? {
        AbortDrain();
        assert start + played + [CancelDrain] == start + (played + [CancelDrain]);
      } else {
        UnwindAll();
        FinishDrain();
      }
    }

    /** Waits for the tracked tasks; cancels the ones still running; waits once more.  What still runs
        then was tracked, was cancelled and ignores it, unless the drain was itself cancelled. */
    method DrainInflight(leave: Leave) returns (ghost own: seq<Step>)
      requires Valid() && phase == Draining
      modifies this, shutdown, site, site.transport, site.store
      ensures Valid() && Ended(View()) && DrainCovers(View()) && (phase == Aborted ==> !leave.cut.Uncut?)
      ensures old(trace) + Waits(old(View()), leave) <= trace
      ensures LoopSteps(trace) == old(LoopSteps(trace)) + own && DrainSteps(own)
      ensures closing.snapshot == old(crew.inflight) && crew.tasks == old(crew.tasks)
      ensures claimed == old(claimed) && (old(shutdown.requested) ==> shutdown.requested)
    {
      hide Run, After, LoopSteps, Valid, Protocol.Run, Protocol.After, Played, Playing, Apply, Enabled, Grace;
      StartDrain();
      own := [DrainStart];
      if phase == Waiting {
        ghost var p := View();
        ghost var rest := WaitForTasks(leave);
        assert old(trace) + [DrainStart] + Grace(p, leave) == old(trace) + ([DrainStart] + Grace(p, leave));
        own := own + rest;
      }
      Facts();
    }
  }

  lemma PlayedNone(start: seq<Step>, e: Step, p: Pool)
    ensures start + [e] + Played(p, []) == start + [e] && Playing(p, []) == p
  {
  }

  lemma WoveNoTurn(start: seq<Step>, p: Pool, turns: seq<Turn>)
    ensures WoveTurns(start, p, start, p, turns, [])
  {
  }

  lemma Gathered(start: seq<Step>, looped: seq<Step>, left: seq<Step>, waited: seq<Step>, a: seq<Step>, b: seq<Step>,
                 c: seq<Step>, d: seq<Step>)
    requires looped == start + a && left == looped + b && waited == left + c
    ensures waited + d == start + (a + b + c + d)
  {
  }

  // -- what the parts of the loop promise ------------------------------------------

  /** The loop is back at its head, or was cancelled in its last step. */
  ghost predicate Settled(p: Pool, p': Pool, own: seq<Step>) {
    && (p'.phase == AtTop || p'.phase == Draining)
    && (p'.phase == Draining <==> Cut(own))
    && (p.requested ==> p'.requested)
  }

  /** The first `m` of `jobs`, in order, have got a task each: all of them if the loop goes on. */
  ghost predicate Given(p: Pool, p': Pool, jobs: seq<nat>, m: nat) {
    && m <= |jobs|
    && Entries(p'.crew.tasks) == Entries(p.crew.tasks) + jobs[..m]
    && (p'.phase == AtTop ==> m == |jobs|)
  }

  /** The jobs were not claimed before and are now. */
  ghost predicate Fetched(p: Pool, p': Pool, jobs: seq<nat>, m: nat) {
    && Given(p, p', jobs, m)
    && Elements(jobs) !! p.claimed
    && p.claimed + Elements(jobs) <= p'.claimed
  }

  /** One job got its task, or the loop was cancelled while waiting for a permit. */
  ghost predicate DispatchedOne(p: Pool, p': Pool, own: seq<Step>) {
    && own != [] && DispatchSteps(own)
    && p'.claimed == p.claimed && (p.requested ==> p'.requested)
    && p.batch != []
    && if Cut(own) then
         p'.phase == Draining && p'.crew.tasks == p.crew.tasks
       else
         && p'.batch == p.batch[1..] && !p'.sem.waiting
         && p'.phase == (if p'.batch == [] then AtTop else Dispatching)
         && Entries(p'.crew.tasks) == Entries(p.crew.tasks) + [p.batch[0]]
  }

  /** Half-way through the batch of `p`. */
  ghost predicate Underway(p: Pool, p': Pool, own: seq<Step>, m: nat) {
    && DispatchSteps(own) && (p.requested ==> p'.requested)
    && m <= |p.batch| && Entries(p'.crew.tasks) == Entries(p.crew.tasks) + p.batch[..m]
    && p'.claimed == p.claimed
    && (p'.phase == Draining <==> Cut(own))
    && match p'.phase
       case Dispatching => p'.batch == p.batch[m..] && p'.batch != [] && !p'.sem.waiting
       case AtTop => m == |p.batch|
       case Draining => true
       case _ => false
  }

  lemma OneMore(p: Pool, q: Pool, p': Pool, own: seq<Step>, more: seq<Step>, m: nat)
    requires Underway(p, q, own, m) && q.phase == Dispatching && DispatchedOne(q, p', more)
    ensures Underway(p, p', own + more, if Cut(more) then m else m + 1)
  {
    assert p.batch[..m] + [p.batch[m]] == p.batch[..m + 1];
  }

  /** What a loop has done in its first iterations. */
  ghost predicate Looped(turns: seq<Turn>, p: Pool, p': Pool, pieces: seq<seq<Step>>, handed: seq<nat>, n: nat) {
    && Iterated(turns, pieces)
    && (p'.phase == AtTop || p'.phase == Draining) && (p.requested ==> p'.requested)
    && (p'.phase == Draining <==> pieces != [] && Cut(pieces[|pieces| - 1]))
    && Given(p, p', handed, n)
    && Elements(handed) <= p'.claimed
  }

  lemma NoTurn(turns: seq<Turn>, p: Pool)
    requires p.phase == AtTop
    ensures Looped(turns, p, p, [], [], 0) && Flatten([]) == []
  {
  }

  lemma FlattenMore(loop: seq<Step>, pieces: seq<seq<Step>>, own: seq<Step>)
    ensures loop + Flatten(pieces) + own == loop + Flatten(pieces + [own])
  {
    assert (pieces + [own])[..|pieces|] == pieces;
  }

  lemma OneMoreTurn(turns: seq<Turn>, p: Pool, q: Pool, p': Pool, pieces: seq<seq<Step>>, own: seq<Step>,
                    handed: seq<nat>, jobs: seq<nat>, n: nat, m: nat)
    requires Looped(turns, p, q, pieces, handed, n) && q.phase == AtTop && |pieces| < |turns|
    requires TurnSteps(turns[|pieces|], own) && Settled(q, p', own) && Fetched(q, p', jobs, m)
    ensures Looped(turns, p, p', pieces + [own], handed + jobs, n + m)
  {
    assert handed + jobs[..m] == (handed + jobs)[..n + m];
  }
}
