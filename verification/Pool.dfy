/** A worker's poll loop, its bulkhead and its shutdown as a state machine, run over the shared state of
    the delivery protocol: what the loop polls is what Redis hands out, and what its tasks do are
    protocol steps of their deliveries. */
module Pools {
  import opened Redis
  import Protocol
  import NoLoss
  import opened Site

  /** Where the loop coroutine stands: at the loop head, or in one of its awaits; or it has ended, either
      after the drain or because it was cancelled while draining. */
  datatype Phase =
    | Starting | AtTop | Admitting | Polling | Dispatching
    | Draining | Waiting | Cancelling | Stopped | Aborted

  /** The entry a task runs, the delivery it runs it as, and whether its handler outlasts the wait that
      follows a cancellation. */
  datatype Task = Task(entry: nat, delivery: nat, stubborn: bool)

  /** `granted` is a permit that a release has handed to the waiting loop. */
  datatype Semaphore = Semaphore(free: nat, waiting: bool, granted: bool)

  /** `tasks` are all ever created.  `holders` run, each with a permit; `finishing` have released theirs
      and completed, but their done-callback is still queued; `inflight` is the tracked set. */
  datatype Crew = Crew(tasks: seq<Task>, holders: set<nat>, finishing: set<nat>, inflight: set<nat>)

  /** The tasks `drain` waits for, and those it cancels. */
  datatype Closing = Closing(snapshot: set<nat>, cancelled: set<nat>)

  /** `claimed` is every entry this worker's reads have claimed. */
  datatype Pool = Pool(
    worker: string,
    max: nat,
    limit: nat,
    requested: bool,
    phase: Phase,
    batch: seq<nat>,
    sem: Semaphore,
    crew: Crew,
    claimed: set<nat>,
    closing: Closing,
    world: Protocol.State)

  /** A worker that starts in a system with a history. */
  datatype Setup = Setup(cfg: Protocol.Config, history: seq<Protocol.Event>, worker: string, max: nat, limit: nat)

  ghost predicate Plausible(u: Setup) {
    Protocol.Run(u.cfg, u.history)
  }

  ghost function Start(u: Setup): Pool
    requires Plausible(u)
  {
    Pool(u.worker, u.max, u.limit, false, Starting, [], Semaphore(u.max, false, false), Crew([], {}, {}, {}),
         {}, Closing({}, {}), Protocol.After(u.cfg, u.history))
  }

  datatype Step =
    | Join
    | Request
    | Top(admission: bool)
    | Admit(healthy: bool)
    | PollFails(applied: bool, now: int)
    | PollReturns(now: int)
    | Block
    | Spawn(d: nat, stubborn: bool)
    | Work(t: nat, e: Protocol.Event)
    | Release(t: nat)
    | Callback(t: nat)
    | CancelLoop(applied: bool, now: int)
    | DrainStart
    | DrainTimeout
    | DrainEnd
    | CancelDrain
    | Others(e: Protocol.Event)

  /** The read a poll issues; an applied read has claimed entries even if its reply never arrives. */
  function ReadOf(p: Pool, now: int): Protocol.Event {
    Protocol.Read(p.worker, p.limit, now)
  }

  function Reply(p: Pool): seq<nat> {
    HandedInOrder(p.world.redis, p.limit)
  }

  predicate OwnDelivery(crew: Crew, d: nat) {
    exists t :: 0 <= t < |crew.tasks| && crew.tasks[t].delivery == d
  }

  /** Nobody else reads under this worker's name or takes the steps of its deliveries. */
  predicate Foreign(p: Pool, e: Protocol.Event) {
    && !Touches(e, Poller(p.worker))
    && forall t :: 0 <= t < |p.crew.tasks| ==> !Touches(e, Worker(p.crew.tasks[t].delivery))
  }

  predicate Unfinished(s: Protocol.State, d: nat) {
    d in s.work && !s.work[d].halted && s.work[d].pc != Protocol.Finished
  }

  predicate Enabled(p: Pool, e: Step) {
    match e
    case Join => p.phase == Starting
    case Request => true
    case Top(_) => p.phase == AtTop
    case Admit(_) => p.phase == Admitting
    case PollFails(applied, _) => p.phase == Polling && (applied ==> p.world.redis.hasGroup)
    case PollReturns(_) => p.phase == Polling && p.world.redis.hasGroup
    case Block => p.phase == Dispatching && p.batch != [] && p.sem.free == 0 && !p.sem.waiting
    case Spawn(d, _) =>
      && p.phase == Dispatching && p.batch != []
      && (if p.sem.waiting then p.sem.granted else p.sem.free > 0)
      && d !in p.world.work && !OwnDelivery(p.crew, d)
    case Work(t, e) =>
      && t in p.crew.holders && t < |p.crew.tasks|
      && Touches(e, Worker(p.crew.tasks[t].delivery))
      && (e.Begin? ==> e.entry == p.crew.tasks[t].entry)
      && Protocol.Enabled(p.world, e)
    case Release(t) =>
      t in p.crew.holders && t < |p.crew.tasks| && !Unfinished(p.world, p.crew.tasks[t].delivery)
    case Callback(t) => t in p.crew.finishing
    case CancelLoop(applied, _) =>
      && (p.phase in {AtTop, Admitting, Polling} || (p.phase == Dispatching && p.sem.waiting))
      && (applied ==> p.phase == Polling && p.world.redis.hasGroup)
    case DrainStart => p.phase == Draining
    case DrainTimeout => p.phase == Waiting
    case DrainEnd =>
      && p.phase == Cancelling
      && forall t :: t in p.closing.cancelled && t in p.crew.holders ==> t < |p.crew.tasks| && p.crew.tasks[t].stubborn
    case CancelDrain => p.phase == Waiting || p.phase == Cancelling
    case Others(e) => Protocol.Enabled(p.world, e) && Foreign(p, e)
  }

  /** Nothing holds anybody else back: others take any step the protocol allows them, and a task any step
      of its own delivery, as long as it runs. */
  lemma NobodyWaitsForTheLoop(p: Pool, e: Protocol.Event)
    requires Protocol.Enabled(p.world, e)
    ensures !Touches(e, Poller(p.worker)) &&
            (forall t :: 0 <= t < |p.crew.tasks| ==> !Touches(e, Worker(p.crew.tasks[t].delivery))) ==>
              Enabled(p, Others(e))
    ensures forall t ::
              (t in p.crew.holders && t < |p.crew.tasks| && Touches(e, Worker(p.crew.tasks[t].delivery)) &&
               (e.Begin? ==> e.entry == p.crew.tasks[t].entry)) ==>
              Enabled(p, Work(t, e))
  {
  }

  function Reading(p: Pool, now: int): Pool
    requires p.world.redis.hasGroup
  {
    p.(claimed := p.claimed + Elements(Reply(p)),
       world := Protocol.Apply(p.world, ReadOf(p, now)))
  }

  function Accepting(p: Pool, now: int): Pool
    requires p.world.redis.hasGroup
  {
    var jobs := Reply(p);
    p.(phase := if jobs == [] then AtTop else Dispatching,
       batch := jobs,
       claimed := p.claimed + Elements(jobs),
       world := Protocol.Apply(p.world, ReadOf(p, now)))
  }

  /** Acquiring takes a granted permit if the loop was waiting, a free one otherwise; the task is
      created and tracked without another await. */
  function Spawning(p: Pool, d: nat, stubborn: bool): Pool
    requires Enabled(p, Spawn(d, stubborn))
  {
    var t := |p.crew.tasks|;
    p.(sem := Semaphore(if p.sem.waiting then p.sem.free else p.sem.free - 1, false, false),
       crew := Crew(p.crew.tasks + [Task(p.batch[0], d, stubborn)], p.crew.holders + {t}, p.crew.finishing,
                    p.crew.inflight + {t}),
       batch := p.batch[1..],
       phase := if |p.batch| == 1 then AtTop else Dispatching)
  }

  /** A release wakes the waiting loop if there is one, else it frees a permit. */
  function Released(sem: Semaphore): Semaphore {
    Semaphore(if sem.waiting && !sem.granted then sem.free else sem.free + 1, sem.waiting, sem.waiting)
  }

  /** A permit already granted to a loop that is cancelled goes back. */
  function Abandoned(sem: Semaphore): Semaphore {
    Semaphore(if sem.granted then sem.free + 1 else sem.free, false, false)
  }

  function Finishing(crew: Crew, t: nat): Crew {
    crew.(holders := crew.holders - {t}, finishing := crew.finishing + {t})
  }

  function Discarding(crew: Crew, t: nat): Crew {
    crew.(finishing := crew.finishing - {t}, inflight := crew.inflight - {t})
  }

  /** The tasks still running when the grace period ends are cancelled, each of them. */
  function TimingOut(p: Pool): Pool {
    var rest := p.closing.snapshot * p.crew.holders;
    p.(phase := if rest == {} then Stopped else Cancelling, closing := p.closing.(cancelled := rest))
  }

  function Apply(p: Pool, e: Step): Pool
    requires Enabled(p, e)
  {
    match e
    case Join => p.(phase := AtTop, world := Protocol.Apply(p.world, Protocol.CreateGroup))
    case Request => p.(requested := true)
    case Top(admission) =>
      p.(phase := if p.requested then Draining else if admission then Admitting else Polling)
    case Admit(healthy) => p.(phase := if healthy then Polling else AtTop)
    case PollFails(applied, now) => (if applied then Reading(p, now) else p).(phase := AtTop)
    case PollReturns(now) => Accepting(p, now)
    case Block => p.(sem := p.sem.(waiting := true))
    case Spawn(d, stubborn) => Spawning(p, d, stubborn)
    case Work(t, e) => p.(world := Protocol.Apply(p.world, e))
    case Release(t) => p.(sem := Released(p.sem), crew := Finishing(p.crew, t))
    case Callback(t) => p.(crew := Discarding(p.crew, t))
    case CancelLoop(applied, now) =>
      (if applied then Reading(p, now) else p).(phase := Draining, sem := Abandoned(p.sem))
    case DrainStart =>
      p.(phase := if p.crew.inflight == {} then Stopped else Waiting, closing := Closing(p.crew.inflight, {}))
    case DrainTimeout => TimingOut(p)
    case DrainEnd => p.(phase := Stopped)
    case CancelDrain => p.(phase := Aborted)
    case Others(e) => p.(world := Protocol.Apply(p.world, e))
  }

  ghost predicate Run(u: Setup, trace: seq<Step>)
    decreases |trace|, 0
  {
    if trace == [] then
      Plausible(u)
    else
      Run(u, trace[..|trace| - 1]) && Enabled(After(u, trace[..|trace| - 1]), trace[|trace| - 1])
  }

  ghost function After(u: Setup, trace: seq<Step>): Pool
    requires Run(u, trace)
    decreases |trace|, 1
  {
    if trace == [] then
      Start(u)
    else
      Apply(After(u, trace[..|trace| - 1]), trace[|trace| - 1])
  }

  lemma Extend(u: Setup, trace: seq<Step>, e: Step)
    requires Run(u, trace) && Enabled(After(u, trace), e)
    ensures Run(u, trace + [e])
    ensures After(u, trace + [e]) == Apply(After(u, trace), e)
  {
    assert (trace + [e])[..|trace|] == trace;
  }

  // -- the protocol run inside ---------------------------------------------------

  /** What a step does to the shared state: one protocol event or none. */
  function EventOf(u: Setup, e: Step): seq<Protocol.Event> {
    match e
    case Join => [Protocol.CreateGroup]
    case PollReturns(now) => [Protocol.Read(u.worker, u.limit, now)]
    case PollFails(applied, now) => if applied then [Protocol.Read(u.worker, u.limit, now)] else []
    case CancelLoop(applied, now) => if applied then [Protocol.Read(u.worker, u.limit, now)] else []
    case Work(_, e) => [e]
    case Others(e) => [e]
    case _ => []
  }

  function Events(u: Setup, trace: seq<Step>): seq<Protocol.Event> {
    if trace == [] then u.history else Events(u, trace[..|trace| - 1]) + EventOf(u, trace[|trace| - 1])
  }

  lemma WorldStep(u: Setup, p: Pool, e: Step)
    requires Enabled(p, e) && p.worker == u.worker && p.limit == u.limit
    ensures EventOf(u, e) == [] ==> Apply(p, e).world == p.world
    ensures EventOf(u, e) != [] ==>
              && |EventOf(u, e)| == 1
              && Protocol.Enabled(p.world, EventOf(u, e)[0])
              && Apply(p, e).world == Protocol.Apply(p.world, EventOf(u, e)[0])
    ensures Apply(p, e).worker == p.worker && Apply(p, e).limit == p.limit && Apply(p, e).max == p.max
  {
  }

  /** Every run of a worker is, in the shared state, a run of the protocol: whatever holds of all of those
      holds at every step of every worker. */
  lemma {:induction false} Projects(u: Setup, trace: seq<Step>)
    requires Run(u, trace)
    ensures Protocol.Run(u.cfg, Events(u, trace))
    ensures After(u, trace).world == Protocol.After(u.cfg, Events(u, trace))
    ensures After(u, trace).worker == u.worker && After(u, trace).limit == u.limit && After(u, trace).max == u.max
  {
    if trace != [] {
      var before, e := trace[..|trace| - 1], trace[|trace| - 1];
      Projects(u, before);
      WorldStep(u, After(u, before), e);
      if EventOf(u, e) == [] {
        assert Events(u, trace) == Events(u, before);
      } else {
        assert EventOf(u, e) == [EventOf(u, e)[0]];
        Protocol.Extend(u.cfg, Events(u, before), EventOf(u, e)[0]);
      }
    }
  }

  lemma WorldSound(u: Setup, trace: seq<Step>)
    requires Run(u, trace)
    ensures NoLoss.Sound(After(u, trace).world)
  {
    Projects(u, trace);
    NoLoss.AlwaysSound(u.cfg, Events(u, trace));
  }

  // -- the bulkhead -------------------------------------------------------------

  ghost predicate Permits(p: Pool) {
    && p.sem.free + |p.crew.holders| + (if p.sem.granted then 1 else 0) == p.max
    && (p.sem.granted ==> p.sem.waiting)
    && (p.sem.waiting ==> p.phase == Dispatching && (p.sem.granted || p.sem.free == 0))
  }

  ghost predicate Tracked(crew: Crew) {
    && crew.inflight == crew.holders + crew.finishing
    && crew.holders !! crew.finishing
    && (forall t :: t in crew.inflight ==> t < |crew.tasks|)
  }

  /** Permits are conserved, and exactly the tasks with a permit or a queued callback are tracked. */
  ghost predicate Bulkhead(p: Pool) {
    Permits(p) && Tracked(p.crew)
  }

  lemma CrewKept(p: Pool, e: Step)
    requires Enabled(p, e) && !e.Spawn? && !e.Release? && !e.Callback?
    ensures Apply(p, e).crew == p.crew
  {
  }

  lemma CrewGains(crew: Crew, task: Task)
    requires Tracked(crew)
    ensures var t := |crew.tasks|;
            var more := Crew(crew.tasks + [task], crew.holders + {t}, crew.finishing, crew.inflight + {t});
            Tracked(more) && |more.holders| == |crew.holders| + 1
  {
    assert |crew.tasks| !in crew.inflight;
  }

  lemma CrewLoses(crew: Crew, t: nat)
    requires Tracked(crew) && t in crew.holders
    ensures Tracked(Finishing(crew, t)) && |Finishing(crew, t).holders| == |crew.holders| - 1
  {
  }

  /** How many tasks hold permits changes only by spawning and releasing. */
  lemma CrewStep(p: Pool, e: Step)
    requires Tracked(p.crew) && Enabled(p, e)
    ensures Tracked(Apply(p, e).crew)
    ensures |Apply(p, e).crew.holders| == |p.crew.holders| + (if e.Spawn? then 1 else if e.Release? then -1 else 0)
  {
    match e
    case Spawn(d, stubborn) => CrewGains(p.crew, Task(p.batch[0], d, stubborn));
    case Release(t) => CrewLoses(p.crew, t);
    case Callback(t) =>
    case _ => CrewKept(p, e);
  }

  lemma PermitsStep(p: Pool, e: Step)
    requires Permits(p) && Enabled(p, e)
    requires |Apply(p, e).crew.holders| == |p.crew.holders| + (if e.Spawn? then 1 else if e.Release? then -1 else 0)
    ensures Permits(Apply(p, e))
  {
  }

  /** At every step of every run: free permits, running tasks and a permit in hand-over make up
      max_concurrency, so no more handlers than that ever run at once; and the tracked set exceeds
      the running tasks only by those whose done-callback is still queued. */
  lemma {:induction false} BulkheadHolds(u: Setup, trace: seq<Step>)
    requires Run(u, trace)
    ensures Bulkhead(After(u, trace))
    ensures |After(u, trace).crew.holders| <= u.max
  {
    Projects(u, trace);
    if trace != [] {
      var before, e := trace[..|trace| - 1], trace[|trace| - 1];
      BulkheadHolds(u, before);
      CrewStep(After(u, before), e);
      PermitsStep(After(u, before), e);
    }
  }

  // -- after the request ---------------------------------------------------------

  /** Redis carries out a read for this worker, whatever becomes of the reply. */
  predicate Reads(e: Step) {
    e.PollReturns? || (e.PollFails? && e.applied) || (e.CancelLoop? && e.applied)
  }

  /** The loop is past its last read. */
  predicate DoneReading(p: Pool) {
    p.requested && p.phase != Admitting && p.phase != Polling
  }

  lemma ReadStep(p: Pool, e: Step)
    requires Enabled(p, e)
    ensures p.requested ==> Apply(p, e).requested
    ensures DoneReading(p) ==> DoneReading(Apply(p, e)) && !Reads(e)
    ensures p.requested && Reads(e) ==> DoneReading(Apply(p, e))
    ensures Apply(p, e).claimed == if Reads(e) then p.claimed + Elements(Reply(p)) else p.claimed
    ensures Apply(p, e).limit == p.limit
  {
  }

  lemma {:induction false} ElementsSize(ids: seq<nat>)
    ensures |Elements(ids)| <= |ids|
  {
    if ids == [] {
      assert Elements(ids) == {};
    } else {
      var n := |ids| - 1;
      ElementsSize(ids[..n]);
      assert Elements(ids) == Elements(ids[..n]) + {ids[n]} by {
        assert ids == ids[..n] + [ids[n]];
      }
    }
  }

  /** By the steps `part`, from a point at which shutdown had been requested: no read yet and nothing
      claimed, or one read. */
  ghost predicate ReadAtMostOnce(p: Pool, p': Pool, part: seq<Step>) {
    && p'.requested && p'.limit == p.limit
    && (forall i, j :: 0 <= i < j < |part| ==> !(Reads(part[i]) && Reads(part[j])))
    && if exists e :: e in part && Reads(e)
       then DoneReading(p') && |p'.claimed - p.claimed| <= p.limit
       else p'.claimed == p.claimed
  }

  lemma OneMoreStep(p: Pool, q: Pool, part: seq<Step>, e: Step)
    requires ReadAtMostOnce(p, q, part) && Enabled(q, e)
    ensures ReadAtMostOnce(p, Apply(q, e), part + [e])
  {
    hide Apply, Enabled, Reads, DoneReading;
    ReadStep(q, e);
    forall f ensures f in part + [e] <==> f in part || f == e {
    }
    if Reads(e) {
      ElementsSize(Reply(q));
      var more := Elements(Reply(q));
      if q.claimed == p.claimed {
        assert more == ((q.claimed + more) - p.claimed) + (more * p.claimed);
      }
    }
  }

  lemma {:induction false} ReadsSince(u: Setup, trace: seq<Step>, n: nat)
    requires Run(u, trace) && n <= |trace|
    ensures Run(u, trace[..n])
    ensures After(u, trace[..n]).requested ==> ReadAtMostOnce(After(u, trace[..n]), After(u, trace), trace[n..])
  {
    hide Apply, Enabled, Reads, DoneReading;
    if n == |trace| {
      assert trace[..n] == trace && trace[n..] == [];
    } else {
      var before, e := trace[..|trace| - 1], trace[|trace| - 1];
      assert before[..n] == trace[..n] && trace[n..] == before[n..] + [e];
      ReadsSince(u, before, n);
      if After(u, trace[..n]).requested {
        OneMoreStep(After(u, trace[..n]), After(u, before), before[n..], e);
      }
    }
  }

  /** After the request at most one more read is carried out for this worker, and it claims at most
      poll_batch entries. */
  lemma AtMostOneLateRead(u: Setup, trace: seq<Step>, n: nat)
    requires Run(u, trace) && n < |trace| && trace[n].Request?
    ensures forall i, j :: n < i < j < |trace| ==> !(Reads(trace[i]) && Reads(trace[j]))
    ensures Run(u, trace[..n]) && |After(u, trace).claimed - After(u, trace[..n]).claimed| <= u.limit
  {
    hide Reads, DoneReading;
    var since := trace[n + 1..];
    assert trace[..n + 1][..n] == trace[..n];
    ReadsSince(u, trace, n);
    ReadsSince(u, trace, n + 1);
    Projects(u, trace);
    forall i, j | n < i < j < |trace| ensures !(Reads(trace[i]) && Reads(trace[j])) {
      assert trace[i] == since[i - n - 1] && trace[j] == since[j - n - 1];
    }
    var asked, end := After(u, trace[..n + 1]), After(u, trace);
    assert asked.claimed == After(u, trace[..n]).claimed && asked.requested;
    assert end.claimed == asked.claimed ==> end.claimed - asked.claimed == {};
  }

  // -- what is claimed stays accounted for ---------------------------------------

  /** What this worker claimed is behind the cursor, and pending or acknowledged. */
  ghost predicate ClaimsHeld(p: Pool) {
    forall i :: i in p.claimed ==>
      i < p.world.redis.cursor && (i in p.world.redis.pending || i in p.world.redis.acked)
  }

  lemma HeldStays(s: Protocol.State, e: Protocol.Event, i: nat)
    requires NoLoss.Sound(s) && Protocol.Enabled(s, e)
    requires i < s.redis.cursor && (i in s.redis.pending || i in s.redis.acked)
    ensures var r := Protocol.Apply(s, e).redis;
            i < r.cursor && (i in r.pending || i in r.acked)
  {
    NoLoss.RedisStep(s, e);
    NoLoss.ClaimedStep(s, e, i);
  }

  lemma ClaimsStep(u: Setup, p: Pool, e: Step)
    requires NoLoss.Sound(p.world) && ClaimsHeld(p) && Enabled(p, e) && p.worker == u.worker && p.limit == u.limit
    ensures ClaimsHeld(Apply(p, e))
  {
    var p' := Apply(p, e);
    WorldStep(u, p, e);
    forall i | i in p'.claimed
      ensures i < p'.world.redis.cursor && (i in p'.world.redis.pending || i in p'.world.redis.acked)
    {
      if i in p.claimed {
        if EventOf(u, e) != [] {
          HeldStays(p.world, EventOf(u, e)[0], i);
        }
      } else {
        HandedElements(p.world.redis, p.limit);
        ReadClaims(p, EventOf(u, e)[0]);
      }
    }
  }

  lemma ReadClaims(p: Pool, e: Protocol.Event)
    requires NoLoss.Sound(p.world) && p.world.redis.hasGroup && e.Read? && e == ReadOf(p, e.now)
    ensures forall i :: i in Handed(p.world.redis, p.limit) ==>
              i in Protocol.Apply(p.world, e).redis.pending && i < Protocol.Apply(p.world, e).redis.cursor
  {
    XReadGroupMoves(p.world.redis, p.worker, p.limit, e.now);
  }

  /** At every step of every run, through shutdown, cancellation and whatever others do, every entry this
      worker ever claimed is pending or acknowledged. */
  lemma {:induction false} ClaimedIsHeld(u: Setup, trace: seq<Step>)
    requires Run(u, trace)
    ensures ClaimsHeld(After(u, trace))
  {
    if trace != [] {
      var before := trace[..|trace| - 1];
      ClaimedIsHeld(u, before);
      Projects(u, before);
      WorldSound(u, before);
      ClaimsStep(u, After(u, before), trace[|trace| - 1]);
    }
  }

  // -- one task per entry --------------------------------------------------------

  predicate Takes(crew: Crew, j: nat) {
    exists t :: 0 <= t < |crew.tasks| && crew.tasks[t].entry == j
  }

  /** The batch being dispatched is claimed, in order, and not yet given to any task. */
  ghost predicate BatchWaits(p: Pool) {
    p.phase == Dispatching ==>
      && p.batch != []
      && (forall j :: j in p.batch ==> j in p.claimed && !Takes(p.crew, j))
      && (forall i, j :: 0 <= i < j < |p.batch| ==> p.batch[i] != p.batch[j])
  }

  ghost predicate TasksApart(p: Pool) {
    && (forall t :: 0 <= t < |p.crew.tasks| ==> p.crew.tasks[t].entry in p.claimed)
    && (forall t, v :: 0 <= t < v < |p.crew.tasks| ==>
          p.crew.tasks[t].entry != p.crew.tasks[v].entry && p.crew.tasks[t].delivery != p.crew.tasks[v].delivery)
  }

  /** Reads never repeat an entry, so a reply holds nothing this worker has claimed before. */
  lemma RepliesAreFresh(p: Pool)
    requires NoLoss.Sound(p.world) && ClaimsHeld(p)
    ensures forall k :: 0 <= k < |Reply(p)| ==> Reply(p)[k] !in p.claimed
  {
  }

  lemma BatchStep(p: Pool, e: Step)
    requires NoLoss.Sound(p.world) && ClaimsHeld(p) && BatchWaits(p) && TasksApart(p)
    requires Enabled(p, e) && !e.Spawn?
    ensures BatchWaits(Apply(p, e)) && TasksApart(Apply(p, e))
  {
    RepliesAreFresh(p);
    assert Apply(p, e).crew.tasks == p.crew.tasks;
    if e.PollReturns? {
      forall j | j in Reply(p) ensures j in Elements(Reply(p)) && !Takes(p.crew, j) {
        assert j !in p.claimed;
      }
    }
  }

  lemma SpawnStep(p: Pool, d: nat, stubborn: bool)
    requires BatchWaits(p) && TasksApart(p) && Enabled(p, Spawn(d, stubborn))
    ensures BatchWaits(Spawning(p, d, stubborn)) && TasksApart(Spawning(p, d, stubborn))
  {
    var p' := Spawning(p, d, stubborn);
    assert p.batch[0] in p.batch;
    forall j | j in p'.batch ensures j in p.batch && j != p.batch[0] && !Takes(p'.crew, j) {
      assert j in p.batch;
    }
  }

  lemma {:induction false} TasksStayApart(u: Setup, trace: seq<Step>)
    requires Run(u, trace)
    ensures BatchWaits(After(u, trace)) && TasksApart(After(u, trace))
  {
    if trace != [] {
      var before, e := trace[..|trace| - 1], trace[|trace| - 1];
      TasksStayApart(u, before);
      WorldSound(u, before);
      ClaimedIsHeld(u, before);
      if e.Spawn? {
        SpawnStep(After(u, before), e.d, e.stubborn);
      } else {
        BatchStep(After(u, before), e);
      }
    }
  }

  /** No two tasks of a run ever execute the same entry. */
  lemma OneTaskPerEntry(u: Setup, trace: seq<Step>, t: nat, v: nat)
    requires Run(u, trace) && t < v < |After(u, trace).crew.tasks|
    ensures After(u, trace).crew.tasks[t].entry != After(u, trace).crew.tasks[v].entry
  {
    TasksStayApart(u, trace);
  }

  // -- tasks and their deliveries -------------------------------------------------

  /** A task's delivery is of its entry, and has ended when the task no longer runs. */
  ghost predicate TaskOk(p: Pool, t: nat)
    requires t < |p.crew.tasks|
  {
    var d := p.crew.tasks[t].delivery;
    && (d in p.world.work ==> p.world.work[d].entry == p.crew.tasks[t].entry)
    && (t !in p.crew.holders ==> !Unfinished(p.world, d))
  }

  ghost predicate TasksOk(p: Pool) {
    forall t :: 0 <= t < |p.crew.tasks| ==> TaskOk(p, t)
  }

  /** A step of one delivery leaves another, and a foreign step every own one, as it was. */
  lemma OtherTaskStays(s: Protocol.State, e: Protocol.Event, d: nat)
    requires Protocol.Enabled(s, e) && !Touches(e, Worker(d))
    ensures d in s.work <==> d in Protocol.Apply(s, e).work
    ensures d in s.work ==> Protocol.Apply(s, e).work[d] == s.work[d]
  {
    OthersStep(s, e, Worker(d));
  }

  lemma OwnTaskStays(s: Protocol.State, e: Protocol.Event, d: nat, entry: nat)
    requires Protocol.Enabled(s, e) && Touches(e, Worker(d)) && (e.Begin? ==> e.entry == entry)
    requires d in s.work ==> s.work[d].entry == entry
    ensures d in Protocol.Apply(s, e).work ==> Protocol.Apply(s, e).work[d].entry == entry
  {
  }

  lemma TaskStep(u: Setup, p: Pool, e: Step, t: nat)
    requires TasksApart(p) && TasksOk(p) && Enabled(p, e) && p.worker == u.worker && p.limit == u.limit
    requires t < |p.crew.tasks|
    ensures t < |Apply(p, e).crew.tasks| && TaskOk(Apply(p, e), t)
  {
    var p' := Apply(p, e);
    var d := p.crew.tasks[t].delivery;
    assert p'.crew.tasks[t] == p.crew.tasks[t] && TaskOk(p, t);
    WorldStep(u, p, e);
    if e.Work? && e.t == t {
      OwnTaskStays(p.world, e.e, d, p.crew.tasks[t].entry);
    } else if EventOf(u, e) != [] {
      NotTouched(u, p, e, t);
      OtherTaskStays(p.world, EventOf(u, e)[0], d);
    }
  }

  lemma NotTouched(u: Setup, p: Pool, e: Step, t: nat)
    requires TasksApart(p) && Enabled(p, e) && t < |p.crew.tasks| && !(e.Work? && e.t == t) && EventOf(u, e) != []
    ensures !Touches(EventOf(u, e)[0], Worker(p.crew.tasks[t].delivery))
  {
    if e.Work? {
      assert p.crew.tasks[e.t].delivery != p.crew.tasks[t].delivery;
    }
  }

  lemma {:induction false} TasksStayOk(u: Setup, trace: seq<Step>)
    requires Run(u, trace)
    ensures TasksOk(After(u, trace))
  {
    if trace != [] {
      var before, e := trace[..|trace| - 1], trace[|trace| - 1];
      var p := After(u, before);
      TasksStayOk(u, before);
      TasksStayApart(u, before);
      BulkheadHolds(u, before);
      Projects(u, before);
      forall t | 0 <= t < |After(u, trace).crew.tasks| ensures TaskOk(After(u, trace), t) {
        if t < |p.crew.tasks| {
          TaskStep(u, p, e, t);
        }
      }
    }
  }

  // -- shutdown -----------------------------------------------------------------

  predicate Ended(p: Pool) {
    p.phase == Stopped || p.phase == Aborted
  }

  /** Nothing is spawned once the loop has been left, so what the drain waits for covers all that runs,
      what it cancels covers what outlasts the grace period, and what outlasts the cancellation is
      stubborn. */
  ghost predicate DrainCovers(p: Pool) {
    && (p.phase in {Waiting, Cancelling} || Ended(p) ==> p.crew.holders <= p.closing.snapshot)
    && (p.phase in {Waiting, Cancelling} || Ended(p) ==> p.closing.cancelled <= p.closing.snapshot)
    && (p.phase == Waiting ==> p.closing.cancelled == {})
    && (p.phase in {Cancelling, Stopped} ==> p.crew.holders <= p.closing.cancelled)
    && (p.phase == Aborted && p.closing.cancelled != {} ==> p.crew.holders <= p.closing.cancelled)
    && (p.phase == Stopped ==> forall t :: t in p.crew.holders ==> t < |p.crew.tasks| && p.crew.tasks[t].stubborn)
  }

  lemma DrainStep(p: Pool, e: Step)
    requires DrainCovers(p) && Bulkhead(p) && Enabled(p, e)
    ensures DrainCovers(Apply(p, e))
  {
    if e.DrainStart? || e.DrainTimeout? || e.DrainEnd? {
      DrainMoves(p, e);
    } else {
      hide Apply, Enabled;
      DrainKept(p, e);
    }
  }

  lemma DrainMoves(p: Pool, e: Step)
    requires DrainCovers(p) && Bulkhead(p) && Enabled(p, e) && (e.DrainStart? || e.DrainTimeout? || e.DrainEnd?)
    ensures DrainCovers(Apply(p, e))
  {
  }

  lemma DrainKept(p: Pool, e: Step)
    requires Enabled(p, e) && !e.DrainStart? && !e.DrainTimeout? && !e.DrainEnd?
    ensures var p' := Apply(p, e);
            || p'.phase in {Starting, AtTop, Admitting, Polling, Dispatching, Draining}
            || (&& p'.closing == p.closing && p'.crew.tasks == p.crew.tasks && p'.crew.holders <= p.crew.holders
                && (p'.phase == p.phase || (p'.phase == Aborted && p.phase in {Waiting, Cancelling})))
  {
  }

  lemma {:induction false} DrainAlwaysCovers(u: Setup, trace: seq<Step>)
    requires Run(u, trace)
    ensures DrainCovers(After(u, trace))
  {
    if trace != [] {
      var before := trace[..|trace| - 1];
      DrainAlwaysCovers(u, before);
      BulkheadHolds(u, before);
      DrainStep(After(u, before), trace[|trace| - 1]);
    }
  }

  /** A task that still runs when the worker has ended was waited for.  If the drain ran to its end, it was
      cancelled and its handler ignores that; if the drain was itself cancelled, it was cancelled unless
      the grace period was not over yet. */
  lemma LeftoverTasks(u: Setup, trace: seq<Step>, t: nat)
    requires Run(u, trace) && Ended(After(u, trace)) && t in After(u, trace).crew.holders
    ensures var p := After(u, trace);
            && t in p.closing.snapshot
            && (p.phase == Stopped ==> t in p.closing.cancelled && t < |p.crew.tasks| && p.crew.tasks[t].stubborn)
            && (p.phase == Aborted ==> p.closing.cancelled == {} || t in p.closing.cancelled)
  {
    DrainAlwaysCovers(u, trace);
  }

  /** No task runs and no delivery of this worker is under way, every permit is back, and everything it
      ever claimed is pending or acknowledged. */
  ghost predicate Quiet(p: Pool) {
    && p.phase == Stopped && p.crew.holders == {} && p.sem.free == p.max
    && (forall t :: 0 <= t < |p.crew.tasks| ==> !Unfinished(p.world, p.crew.tasks[t].delivery))
    && ClaimsHeld(p)
  }

  /** If every handler responds to cancellation, a stopped worker is quiet. */
  lemma StoppedIsQuiet(u: Setup, trace: seq<Step>)
    requires Run(u, trace) && After(u, trace).phase == Stopped
    requires forall t :: 0 <= t < |After(u, trace).crew.tasks| ==> !After(u, trace).crew.tasks[t].stubborn
    ensures Quiet(After(u, trace))
  {
    Projects(u, trace);
    BulkheadHolds(u, trace);
    DrainAlwaysCovers(u, trace);
    TasksStayOk(u, trace);
    ClaimedIsHeld(u, trace);
    NoneLeft(After(u, trace));
  }

  lemma NoneLeft(p: Pool)
    requires p.phase == Stopped && Bulkhead(p) && DrainCovers(p) && TasksOk(p) && ClaimsHeld(p)
    requires forall t :: 0 <= t < |p.crew.tasks| ==> !p.crew.tasks[t].stubborn
    ensures Quiet(p)
  {
    assert p.crew.holders == {};
    forall t | 0 <= t < |p.crew.tasks| ensures !Unfinished(p.world, p.crew.tasks[t].delivery) {
      assert TaskOk(p, t);
    }
  }

  /** ... and stays so, whatever the others do, without claiming anything more. */
  lemma QuietStaysQuiet(u: Setup, trace: seq<Step>, e: Step)
    requires Run(u, trace) && Quiet(After(u, trace)) && Enabled(After(u, trace), e)
    ensures Quiet(Apply(After(u, trace), e))
    ensures Apply(After(u, trace), e).claimed == After(u, trace).claimed
  {
    var p := After(u, trace);
    Projects(u, trace);
    WorldSound(u, trace);
    TasksStayApart(u, trace);
    WorldStep(u, p, e);
    ClaimsStep(u, p, e);
    forall t | 0 <= t < |p.crew.tasks| ensures !Unfinished(Apply(p, e).world, p.crew.tasks[t].delivery) {
      if EventOf(u, e) != [] {
        NotTouched(u, p, e, t);
        OtherTaskStays(p.world, EventOf(u, e)[0], p.crew.tasks[t].delivery);
      }
    }
  }

  /** What a worker claimed and is no longer pending was acknowledged by a delivery of it that had first
      returned normally or dead-lettered the job. */
  lemma ClaimedIsPendingOrHandled(u: Setup, trace: seq<Step>, i: nat)
    requires Run(u, trace) && i in After(u, trace).claimed
    ensures var s, events := After(u, trace).world, Events(u, trace);
            || i in s.redis.pending
            || exists d: nat, m, n :: 0 <= m < n < |events| && events[n] == Protocol.Ack(d, true)
                 && NoLoss.Justifies(events, m, d) && d in s.work && s.work[d].entry == i
  {
    ClaimedIsHeld(u, trace);
    Projects(u, trace);
    if i in After(u, trace).world.redis.acked {
      NoLoss.AckedEntryWasHandled(u.cfg, Events(u, trace), i);
    }
  }
}
