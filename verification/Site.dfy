/** The shared world the application objects act on, with a record of every step taken in it.
    `Valid` says the current state is the one that record leads to, so whatever is proved about
    all runs holds at every point of every method. */
module Site {
  import opened Protocol
  import opened NoLoss
  import opened Transport

  /** Who takes a step: an execution, an enqueue call, a worker's poll loop or a recovery loop; the last
      two are known by their worker ids. */
  datatype Actor = Worker(d: nat) | Producer(c: nat) | Poller(worker: string) | Reclaimer(worker: string)

  predicate Touches(e: Event, me: Actor) {
    match e
    case CheckDepth(c, _, _, _) => me == Producer(c)
    case Lookup(c) => me == Producer(c)
    case Insert(c, _) => me == Producer(c)
    case Append(c, _) => me == Producer(c)
    case DropRecord(c) => me == Producer(c)
    case HaltCall(c) => me == Producer(c)
    case Begin(d, _, _) => me == Worker(d)
    case Return(d) => me == Worker(d)
    case Fail(d) => me == Worker(d)
    case Ack(d, _) => me == Worker(d)
    case Park(d, _, _) => me == Worker(d)
    case Settle(d, _) => me == Worker(d)
    case HaltDelivery(d) => me == Worker(d)
    case Read(worker, _, _) => me == Poller(worker)
    case Claim(worker, _, _) => me == Reclaimer(worker)
    case _ => false
  }

  /** An actor's own steps, in order. */
  function Own(trace: seq<Event>, me: Actor): seq<Event> {
    if trace == [] then
      []
    else
      Own(trace[..|trace| - 1], me) +
      (if Touches(trace[|trace| - 1], me) then [trace[|trace| - 1]] else [])
  }

  lemma OwnExtend(trace: seq<Event>, e: Event, me: Actor)
    ensures Own(trace + [e], me) == Own(trace, me) + (if Touches(e, me) then [e] else [])
  {
  }

  predicate Known(s: State, me: Actor) {
    match me
    case Worker(d) => d in s.work
    case Producer(c) => c in s.calls
    case _ => true
  }

  predicate Same(s: State, s': State, me: Actor) {
    match me
    case Worker(d) => d in s.work && d in s'.work && s'.work[d] == s.work[d]
    case Producer(c) => c in s.calls && c in s'.calls && s'.calls[c] == s.calls[c]
    case _ => true
  }

  lemma OthersStep(s: State, e: Event, me: Actor)
    requires Enabled(s, e) && !Touches(e, me)
    ensures Known(s, me) ==> Same(s, Apply(s, e), me)
    ensures !Known(s, me) ==> !Known(Apply(s, e), me)
  {
  }

  lemma {:induction false} UnknownHasNoSteps(cfg: Config, trace: seq<Event>, me: Actor)
    requires Run(cfg, trace) && !Known(After(cfg, trace), me)
    ensures Own(trace, me) == []
  {
    if trace != [] {
      var before := trace[..|trace| - 1];
      var e := trace[|trace| - 1];
      if Touches(e, me) {
        TouchMakesKnown(After(cfg, before), e, me);
      } else {
        OthersStep(After(cfg, before), e, me);
      }
      UnknownHasNoSteps(cfg, before, me);
    }
  }

  lemma TouchMakesKnown(s: State, e: Event, me: Actor)
    requires Enabled(s, e) && Touches(e, me)
    ensures Known(Apply(s, e), me)
  {
  }

  // -- awaits ---------------------------------------------------------------------

  /** What happens at an await of `me`: of the steps others have scheduled, those that are enabled when
      their turn comes. */
  function Meanwhile(s: State, schedule: seq<Event>, me: Actor): seq<Event>
    decreases |schedule|
  {
    if schedule == [] then
      []
    else if Enabled(s, schedule[0]) && !Touches(schedule[0], me) then
      [schedule[0]] + Meanwhile(Apply(s, schedule[0]), schedule[1..], me)
    else
      Meanwhile(s, schedule[1..], me)
  }

  /** Where that leads. */
  function Elapsed(s: State, schedule: seq<Event>, me: Actor): State
    decreases |schedule|
  {
    if schedule == [] then
      s
    else if Enabled(s, schedule[0]) && !Touches(schedule[0], me) then
      Elapsed(Apply(s, schedule[0]), schedule[1..], me)
    else
      Elapsed(s, schedule[1..], me)
  }

  function OthersAt(others: seq<seq<Event>>, k: nat): (schedule: seq<Event>)
    ensures k < |others| ==> schedule == others[k]
  {
    if k < |others| then others[k] else []
  }

  lemma FirstOfMany(cfg: Config, trace: seq<Event>, schedule: seq<Event>)
    requires Run(cfg, trace + schedule) && schedule != []
    ensures (trace + [schedule[0]]) + schedule[1..] == trace + schedule
    ensures Run(cfg, trace) && Enabled(After(cfg, trace), schedule[0])
    ensures Run(cfg, trace + [schedule[0]])
    ensures After(cfg, trace + [schedule[0]]) == Apply(After(cfg, trace), schedule[0])
  {
    var all, n := trace + schedule, |trace|;
    assert all[..n] == trace && all[n] == schedule[0] && all[..n + 1] == trace + [schedule[0]];
    AtStep(cfg, all, n);
    PrefixRuns(cfg, all, n + 1);
  }

  /** A schedule all of whose steps are possible takes place as a whole. */
  lemma {:induction false} AllTakePlace(cfg: Config, trace: seq<Event>, schedule: seq<Event>, me: Actor)
    requires Run(cfg, trace + schedule) && forall e :: e in schedule ==> !Touches(e, me)
    ensures Run(cfg, trace) && Meanwhile(After(cfg, trace), schedule, me) == schedule
    ensures Elapsed(After(cfg, trace), schedule, me) == After(cfg, trace + schedule)
    decreases |schedule|
  {
    hide Apply, Enabled, Touches, Run, After;
    if schedule == [] {
      assert trace + schedule == trace;
    } else {
      FirstOfMany(cfg, trace, schedule);
      AllTakePlace(cfg, trace + [schedule[0]], schedule[1..], me);
    }
  }

  /** A piece of a coroutine: its own steps and, between them, its awaits. */
  datatype Course = Stop | Do(e: Event, next: Course) | Wait(schedule: seq<Event>, next: Course)

  function Next(s: State, e: Event): State {
    if Enabled(s, e) then Apply(s, e) else s
  }

  /** Everything that happens while `me` runs `course` from `s` on, its own steps and those of others. */
  function Unfold(s: State, course: Course, me: Actor): seq<Event>
    decreases course
  {
    match course
    case Stop => []
    case Do(e, next) => [e] + Unfold(Next(s, e), next, me)
    case Wait(schedule, next) => Meanwhile(s, schedule, me) + Unfold(Elapsed(s, schedule, me), next, me)
  }

  /** Where that leads. */
  function Arrive(s: State, course: Course, me: Actor): State
    decreases course
  {
    match course
    case Stop => s
    case Do(e, next) => Arrive(Next(s, e), next, me)
    case Wait(schedule, next) => Arrive(Elapsed(s, schedule, me), next, me)
  }

  lemma {:induction false} ElapsedKeepsConfig(s: State, schedule: seq<Event>, me: Actor)
    ensures Elapsed(s, schedule, me).cfg == s.cfg
    decreases |schedule|
  {
    if schedule != [] {
      if Enabled(s, schedule[0]) && !Touches(schedule[0], me) {
        KeepsConfig(s, schedule[0]);
        ElapsedKeepsConfig(Apply(s, schedule[0]), schedule[1..], me);
      } else {
        ElapsedKeepsConfig(s, schedule[1..], me);
      }
    }
  }

  /** The course's own steps, in order. */
  function Steps(course: Course): seq<Event> {
    match course
    case Stop => []
    case Do(e, next) => [e] + Steps(next)
    case Wait(_, next) => Steps(next)
  }

  predicate AllMine(course: Course, me: Actor) {
    match course
    case Stop => true
    case Do(e, next) => Touches(e, me) && AllMine(next, me)
    case Wait(_, next) => AllMine(next, me)
  }

  lemma {:induction false} OwnJoin(a: seq<Event>, b: seq<Event>, me: Actor)
    ensures Own(a + b, me) == Own(a, me) + Own(b, me)
  {
    if b == [] {
      assert a + b == a;
    } else {
      var n := |b| - 1;
      OwnJoin(a, b[..n], me);
      assert (a + b)[..|a + b| - 1] == a + b[..n];
    }
  }

  lemma {:induction false} OwnMeanwhile(s: State, schedule: seq<Event>, me: Actor)
    ensures Own(Meanwhile(s, schedule, me), me) == []
    decreases |schedule|
  {
    if schedule != [] {
      var e := schedule[0];
      if Enabled(s, e) && !Touches(e, me) {
        OwnMeanwhile(Apply(s, e), schedule[1..], me);
        OwnJoin([e], Meanwhile(Apply(s, e), schedule[1..], me), me);
        assert Own([e], me) == [];
      } else {
        OwnMeanwhile(s, schedule[1..], me);
      }
    }
  }

  /** Of everything that happens meanwhile, the course's own steps are those of `me`. */
  lemma {:induction false} OwnUnfold(s: State, course: Course, me: Actor)
    requires AllMine(course, me)
    ensures Own(Unfold(s, course, me), me) == Steps(course)
    decreases course
  {
    match course
    case Stop =>
    case Do(e, next) =>
      OwnUnfold(Next(s, e), next, me);
      OwnJoin([e], Unfold(Next(s, e), next, me), me);
      assert Own([e], me) == [e];
    case Wait(schedule, next) =>
      OwnUnfold(Elapsed(s, schedule, me), next, me);
      OwnMeanwhile(s, schedule, me);
      OwnJoin(Meanwhile(s, schedule, me), Unfold(Elapsed(s, schedule, me), next, me), me);
  }

  /** How a record grows along a course. */
  lemma AlongStep(start: seq<Event>, s: State, e: Event, rest: Course, me: Actor)
    ensures start + [e] + Unfold(Next(s, e), rest, me) == start + Unfold(s, Do(e, rest), me)
    ensures Arrive(Next(s, e), rest, me) == Arrive(s, Do(e, rest), me)
  {
  }

  lemma AlongStop(start: seq<Event>, s: State, me: Actor)
    ensures start == start + Unfold(s, Stop, me) && s == Arrive(s, Stop, me)
  {
  }

  lemma AlongLast(start: seq<Event>, s: State, e: Event, me: Actor)
    ensures start + [e] == start + Unfold(s, Do(e, Stop), me)
    ensures Next(s, e) == Arrive(s, Do(e, Stop), me)
  {
  }

  lemma AlongWait(start: seq<Event>, s: State, schedule: seq<Event>, rest: Course, me: Actor)
    ensures start + Meanwhile(s, schedule, me) + Unfold(Elapsed(s, schedule, me), rest, me) ==
            start + Unfold(s, Wait(schedule, rest), me)
    ensures Arrive(Elapsed(s, schedule, me), rest, me) == Arrive(s, Wait(schedule, rest), me)
  {
  }

  class Site {
    const cfg: Config
    const transport: RedisStreamTransport
    const store: SqliteStore
    var calls: map<nat, Call>
    var work: map<nat, Delivery>
    var okEntries: set<nat>
    var parked: set<nat>
    var replayed: set<nat>
    ghost var trace: seq<Event>

    constructor (cfg: Config)
      ensures Valid() && View() == Initial(cfg) && this.cfg == cfg
      ensures fresh(transport) && fresh(store)
    {
      this.cfg := cfg;
      transport := new RedisStreamTransport();
      store := new SqliteStore();
      calls, work := map[], map[];
      okEntries, parked, replayed := {}, {}, {};
      trace := [];
    }

    function View(): State
      reads this, transport, store
    {
      State(cfg, transport.View(), store.View(), calls, work, okEntries, parked, replayed)
    }

    ghost predicate Valid()
      reads this, transport, store
    {
      Run(cfg, trace) && View() == After(cfg, trace) && AllWritten(transport.wire, transport.log)
    }

    /** Records a step whose effect has just been carried out. */
    ghost method Log(e: Event, me: Actor)
      requires Run(cfg, trace) && Enabled(After(cfg, trace), e) && View() == Apply(After(cfg, trace), e)
      requires AllWritten(transport.wire, transport.log)
      modifies this`trace
      ensures Valid() && trace == old(trace) + [e]
      ensures Own(trace, me) == Own(old(trace), me) + (if Touches(e, me) then [e] else [])
    {
      Extend(cfg, trace, e);
      OwnExtend(trace, e, me);
      trace := trace + [e];
    }

    /** Carries out and records any enabled step. */
    method Fire(e: Event)
      requires Valid() && Enabled(View(), e)
      modifies this, transport, store
      ensures Valid() && View() == Apply(old(View()), e) && trace == old(trace) + [e]
    {
      var s := Apply(View(), e);
      Extend(cfg, trace, e);
      KeepsConfig(View(), e);
      LogEncodable(cfg, trace + [e]);
      transport.Load(s.redis);
      store.Load(s.db);
      calls, work, okEntries, parked, replayed := s.calls, s.work, s.okEntries, s.parked, s.replayed;
      trace := trace + [e];
    }

    /** Somebody else's step. */
    method OneOther(e: Event, me: Actor)
      requires Valid() && Enabled(View(), e) && !Touches(e, me)
      modifies this, transport, store
      ensures Valid() && View() == Apply(old(View()), e) && trace == old(trace) + [e]
      ensures Own(trace, me) == old(Own(trace, me)) && Unharmed(old(View()), View(), me)
    {
      hide Own;
      AlwaysSound(cfg, trace);
      RedisStep(View(), e);
      OthersStep(View(), e, me);
      OwnExtend(trace, e, me);
      Fire(e);
    }

    /** An await: exactly the enabled steps of the schedule take place. */
    method Await(schedule: seq<Event>, me: Actor)
      requires Valid()
      modifies this, transport, store
      ensures Valid() && old(trace) <= trace
      ensures trace == old(trace) + Meanwhile(old(View()), schedule, me)
      ensures View() == Elapsed(old(View()), schedule, me)
      ensures Own(trace, me) == old(Own(trace, me))
      ensures Unharmed(old(View()), View(), me)
    {
      hide Run, After, Own, Meanwhile, Elapsed, Valid, Enabled, Apply, Unharmed;
      ghost var start, s, own := trace, View(), Own(trace, me);
      NothingMeanwhile(View(), me);
      for i := 0 to |schedule|
        invariant Valid() && start <= trace
        invariant trace + Meanwhile(View(), schedule[i..], me) == start + Meanwhile(s, schedule, me)
        invariant Elapsed(View(), schedule[i..], me) == Elapsed(s, schedule, me)
        invariant Own(trace, me) == own && Unharmed(s, View(), me)
      {
        var e := schedule[i];
        ghost var before := View();
        assert schedule[i..][0] == e && schedule[i..][1..] == schedule[i + 1..];
        OneEvent(trace, View(), schedule[i..], me);
        if Enabled(View(), e) && !Touches(e, me) {
          OneOther(e, me);
          UnharmedStill(s, before, View(), me);
        }
      }
      NothingMeanwhile(View(), me);
    }
  }

  /** What the others' steps leave `me`, and what only grows. */
  ghost predicate Unharmed(s: State, s': State, me: Actor) {
    && (Known(s, me) ==> Same(s, s', me))
    && (!Known(s, me) ==> !Known(s', me))
    && Grows(s, s')
  }

  lemma UnharmedStill(s: State, s': State, s'': State, me: Actor)
    requires Unharmed(s, s', me) && Unharmed(s', s'', me)
    ensures Unharmed(s, s'', me)
  {
  }

  lemma NothingMeanwhile(s: State, me: Actor)
    ensures Meanwhile(s, [], me) == [] && Elapsed(s, [], me) == s && Unharmed(s, s, me)
  {
  }

  lemma OneEvent(start: seq<Event>, s: State, schedule: seq<Event>, me: Actor)
    requires schedule != []
    ensures var e := schedule[0];
            if Enabled(s, e) && !Touches(e, me) then
              && start + Meanwhile(s, schedule, me) == start + [e] + Meanwhile(Apply(s, e), schedule[1..], me)
              && Elapsed(s, schedule, me) == Elapsed(Apply(s, e), schedule[1..], me)
            else
              && Meanwhile(s, schedule, me) == Meanwhile(s, schedule[1..], me)
              && Elapsed(s, schedule, me) == Elapsed(s, schedule[1..], me)
  {
  }
}
