/** Lease recovery: stale entries change hands, and nothing else happens to them. */
module Recover {
  import opened Outcomes
  import opened Jobs
  import opened Redis
  import opened Protocol
  import opened NoLoss
  import opened Transport
  import opened Site

  /** One round over the queue: when it runs, whether Redis carries the claim out and whether the call
      raises all the same, what everybody else does until the next round, and whether the loop is
      stopped meanwhile. */
  datatype Round = Round(now: int, applied: bool, raises: bool, others: seq<Event>, stopped: bool)

  /** Everything but who holds the pending entries, and since when. */
  predicate OnlyLeasesMoved(s: State, s': State) {
    && s'.redis.pending.Keys == s.redis.pending.Keys
    && s' == s.(redis := s.redis.(pending := s'.redis.pending))
  }

  /** Whatever run it is part of, a claim moves leases only, and of these only those it names. */
  lemma ClaimsMoveLeases(cfg: Config, trace: seq<Event>, n: nat)
    requires Run(cfg, trace) && n < |trace| && trace[n].Claim?
    ensures OnlyLeasesMoved(At(cfg, trace, n), At(cfg, trace, n + 1))
    ensures var before, after := At(cfg, trace, n).redis.pending, At(cfg, trace, n + 1).redis.pending;
            forall i :: i in before ==>
              after[i] == if i in trace[n].ids then Lease(trace[n].worker, trace[n].now) else before[i]
  {
    AtStep(cfg, trace, n);
    var s, e := At(cfg, trace, n), trace[n];
    assert Apply(s, e).redis.pending.Keys == s.redis.pending.Keys;
  }

  function ClaimedIds(claimed: seq<(nat, Job)>): set<nat> {
    set k | 0 <= k < |claimed| :: claimed[k].0
  }

  predicate Claims(round: Round) {
    round.applied || !round.raises
  }

  /** What happens from `s` on during a round: the claim of exactly the stale entries the scan reaches, if
      it gets to Redis and the group exists, then what the others do until the next round. */
  function RoundScript(s: State, round: Round, worker: string, minIdle: int, batch: nat): Course {
    if Claims(round) && s.redis.hasGroup then
      Do(Claim(worker, ReclaimedIds(s.redis, minIdle, round.now, batch), round.now), Wait(round.others, Stop))
    else
      Wait(round.others, Stop)
  }

  /** The same of several rounds. */
  function RoundsUnfold(s: State, rounds: seq<Round>, worker: string, minIdle: int, batch: nat): seq<Event> {
    if rounds == [] then
      []
    else
      var n := |rounds| - 1;
      RoundsUnfold(s, rounds[..n], worker, minIdle, batch) +
      Unfold(RoundsArrive(s, rounds[..n], worker, minIdle, batch),
             RoundScript(RoundsArrive(s, rounds[..n], worker, minIdle, batch), rounds[n], worker, minIdle, batch),
             Reclaimer(worker))
  }

  function RoundsArrive(s: State, rounds: seq<Round>, worker: string, minIdle: int, batch: nat): State {
    if rounds == [] then
      s
    else
      var before := RoundsArrive(s, rounds[..|rounds| - 1], worker, minIdle, batch);
      Arrive(before, RoundScript(before, rounds[|rounds| - 1], worker, minIdle, batch), Reclaimer(worker))
  }

  predicate ClaimBy(e: Event, worker: string) {
    e.Claim? && e.worker == worker
  }

  lemma NoRounds(start: seq<Event>, s: State, worker: string, minIdle: int, batch: nat)
    ensures start + RoundsUnfold(s, [], worker, minIdle, batch) == start
    ensures RoundsArrive(s, [], worker, minIdle, batch) == s
  {
  }

  lemma AlongRounds(start: seq<Event>, s: State, rounds: seq<Round>, round: Round, worker: string, minIdle: int,
                    batch: nat)
    ensures var q := RoundsArrive(s, rounds, worker, minIdle, batch);
            var script := RoundScript(q, round, worker, minIdle, batch);
            && start + RoundsUnfold(s, rounds + [round], worker, minIdle, batch) ==
               start + RoundsUnfold(s, rounds, worker, minIdle, batch) + Unfold(q, script, Reclaimer(worker))
            && RoundsArrive(s, rounds + [round], worker, minIdle, batch) == Arrive(q, script, Reclaimer(worker))
  {
    assert (rounds + [round])[..|rounds|] == rounds;
  }

  /** From position `from` on, every claim by this worker takes the oldest of the leases idle for at least
      `minIdle` in the state it happens in, and no fresh one; at most a batch. */
  ghost predicate ClaimsExact(cfg: Config, trace: seq<Event>, from: nat, worker: string, minIdle: int, batch: nat)
    requires Run(cfg, trace)
  {
    forall n :: from <= n < |trace| && ClaimBy(trace[n], worker) ==>
      TakesFirst(At(cfg, trace, n).redis.pending, trace[n].ids, minIdle, trace[n].now, batch)
  }

  lemma AtPrefix(cfg: Config, trace: seq<Event>, more: seq<Event>, n: nat)
    requires Run(cfg, more) && trace <= more && n <= |trace|
    ensures Run(cfg, trace) && At(cfg, more, n) == At(cfg, trace, n)
  {
    PrefixRuns(cfg, more, |trace|);
    assert more[..|trace|] == trace && more[..n] == trace[..n];
  }

  lemma AtEnd(cfg: Config, trace: seq<Event>)
    requires Run(cfg, trace)
    ensures At(cfg, trace, |trace|) == After(cfg, trace)
  {
    assert trace[..|trace|] == trace;
  }

  /** Exact claims stay exact while others act. */
  lemma ExactMeanwhile(cfg: Config, trace: seq<Event>, more: seq<Event>, from: nat, worker: string, minIdle: int,
                       batch: nat)
    requires Run(cfg, more) && trace <= more && Run(cfg, trace)
    requires ClaimsExact(cfg, trace, from, worker, minIdle, batch)
    requires forall n :: |trace| <= n < |more| ==> !ClaimBy(more[n], worker)
    ensures ClaimsExact(cfg, more, from, worker, minIdle, batch)
  {
    hide TakesFirst, Run, After, At;
    forall n | from <= n < |more| && ClaimBy(more[n], worker)
      ensures TakesFirst(At(cfg, more, n).redis.pending, more[n].ids, minIdle, more[n].now, batch)
    {
      AtPrefix(cfg, trace, more, n);
      assert more[n] == trace[n];
    }
  }

  lemma ExactClaim(cfg: Config, trace: seq<Event>, from: nat, e: Event, worker: string, minIdle: int, batch: nat)
    requires Run(cfg, trace + [e]) && Run(cfg, trace) && ClaimsExact(cfg, trace, from, worker, minIdle, batch)
    requires e.Claim? && e.ids == ReclaimedIds(After(cfg, trace).redis, minIdle, e.now, batch)
    ensures ClaimsExact(cfg, trace + [e], from, worker, minIdle, batch)
  {
    hide ReclaimedIds, TakesFirst, Run, After, At;
    var more := trace + [e];
    AtEnd(cfg, trace);
    AlwaysSound(cfg, trace);
    ReclaimsOldest(After(cfg, trace).redis, minIdle, e.now, batch);
    forall n | from <= n < |more| && ClaimBy(more[n], worker)
      ensures TakesFirst(At(cfg, more, n).redis.pending, more[n].ids, minIdle, more[n].now, batch)
    {
      AtPrefix(cfg, trace, more, n);
    }
  }

  /** A round that begins at position `n` gets its claim to Redis, and finds the group there. */
  ghost predicate Reaches(cfg: Config, trace: seq<Event>, n: nat, round: Round)
    requires Run(cfg, trace) && n <= |trace|
  {
    (round.applied || !round.raises) && At(cfg, trace, n).redis.hasGroup
  }

  /** The rounds begin at the positions `starts`; each that reaches Redis claims there, and the worker claims
      nowhere else. */
  ghost predicate RoundsClaim(cfg: Config, trace: seq<Event>, from: nat, worker: string, rounds: seq<Round>,
                              starts: seq<nat>)
    requires Run(cfg, trace)
  {
    && |starts| == |rounds|
    && (forall k :: 0 <= k < |starts| ==> from <= starts[k] <= |trace|)
    && (forall k :: 0 <= k < |starts| && Reaches(cfg, trace, starts[k], rounds[k]) ==>
          && starts[k] < |trace| && ClaimBy(trace[starts[k]], worker) && trace[starts[k]].now == rounds[k].now
          && forall j :: k < j < |starts| ==> starts[k] < starts[j])
    && (forall n :: from <= n < |trace| && ClaimBy(trace[n], worker) ==>
          exists k :: 0 <= k < |starts| && starts[k] == n && (rounds[k].applied || !rounds[k].raises))
  }

  lemma OneMoreRound(cfg: Config, mid: seq<Event>, trace: seq<Event>, from: nat, worker: string, rounds: seq<Round>,
                     starts: seq<nat>, round: Round)
    requires Run(cfg, trace) && mid <= trace && Run(cfg, mid) && from <= |mid|
    requires RoundsClaim(cfg, mid, from, worker, rounds, starts)
    requires (round.applied || !round.raises) && After(cfg, mid).redis.hasGroup ==>
               |mid| < |trace| && ClaimBy(trace[|mid|], worker) && trace[|mid|].now == round.now
    requires forall n :: |mid| <= n < |trace| && ClaimBy(trace[n], worker) ==>
               n == |mid| && (round.applied || !round.raises)
    ensures RoundsClaim(cfg, trace, from, worker, rounds + [round], starts + [|mid|])
  {
    hide Run, After, At, Reaches;
    var all, starts' := rounds + [round], starts + [|mid|];
    forall k | 0 <= k < |starts| && Reaches(cfg, trace, starts'[k], all[k])
      ensures starts[k] < |mid| && ClaimBy(trace[starts[k]], worker) && trace[starts[k]].now == all[k].now
      ensures forall j :: k < j < |starts'| ==> starts'[k] < starts'[j]
    {
      SameReach(cfg, mid, trace, starts[k], rounds[k]);
      assert trace[starts[k]] == mid[starts[k]];
    }
    SameReach(cfg, mid, trace, |mid|, round);
    forall n | from <= n < |trace| && ClaimBy(trace[n], worker)
      ensures exists k :: 0 <= k < |starts'| && starts'[k] == n && (all[k].applied || !all[k].raises)
    {
      if n < |mid| {
        assert ClaimBy(mid[n], worker);
        var k :| 0 <= k < |starts| && starts[k] == n && (rounds[k].applied || !rounds[k].raises);
        assert starts'[k] == n && all[k] == rounds[k];
      } else {
        assert starts'[|starts|] == n && all[|starts|] == round;
      }
    }
  }

  lemma SameReach(cfg: Config, mid: seq<Event>, trace: seq<Event>, n: nat, round: Round)
    requires Run(cfg, trace) && mid <= trace && Run(cfg, mid) && n <= |mid|
    ensures Reaches(cfg, trace, n, round) == Reaches(cfg, mid, n, round)
    ensures n == |mid| ==>
              Reaches(cfg, mid, n, round) == ((round.applied || !round.raises) && After(cfg, mid).redis.hasGroup)
  {
    AtPrefix(cfg, mid, trace, n);
    AtEnd(cfg, mid);
  }

  lemma {:induction false} MeanwhileIsNotMine(s: State, schedule: seq<Event>, me: Actor)
    ensures forall n :: 0 <= n < |Meanwhile(s, schedule, me)| ==> !Touches(Meanwhile(s, schedule, me)[n], me)
    decreases |schedule|
  {
    if schedule != [] {
      if Enabled(s, schedule[0]) && !Touches(schedule[0], me) {
        MeanwhileIsNotMine(Apply(s, schedule[0]), schedule[1..], me);
      } else {
        MeanwhileIsNotMine(s, schedule[1..], me);
      }
    }
  }

  class RecoveryWorker {
    const site: Site
    const workerId: string
    const minIdle: int
    const batch: nat
    var running: bool

    constructor (site: Site, workerId: string, minIdle: int, batch: nat)
      ensures this.site == site && this.workerId == workerId && this.minIdle == minIdle && this.batch == batch
      ensures !running
    {
      this.site, this.workerId, this.minIdle, this.batch := site, workerId, minIdle, batch;
      running := false;
    }

    /** The claim of exactly the stale entries the scan reaches. */
    function Taking(s: State, now: int): Event {
      Claim(workerId, ReclaimedIds(s.redis, minIdle, now, batch), now)
    }

    /** Claims for this worker exactly the stale entries the scan reaches, and only logs what it claimed:
        no delivery starts, nothing is acknowledged, and other leases stay where they are. */
    method ClaimStale(now: int) returns (r: Result<seq<(nat, Job)>, ReadError>)
      requires site.Valid()
      modifies site`trace, site.transport
      ensures site.Valid() && OnlyLeasesMoved(old(site.View()), site.View())
      ensures !old(site.transport.hasGroup) ==> r == Err(NoGroup) && site.trace == old(site.trace)
      ensures old(site.transport.hasGroup) ==>
                && r.Ok? && ClaimedAll(old(site.transport.View()), site.transport.View(), r.value, now)
                && site.trace == old(site.trace) + [Taking(old(site.View()), now)]
                && site.View() == Next(old(site.View()), Taking(old(site.View()), now))
    {
      hide Run, After, Own, AllWritten, Apply, Enabled, Reclaimed, TakesFirst;
      ghost var before := site.transport.View();
      AlwaysSound(site.cfg, site.trace);
      var ids;
      ids, r := TakeOver(now);
      XAutoclaimMovesLeases(before, workerId, Elements(ids), now);
      if site.transport.hasGroup {
        PickedIds(site.transport.log, ids, r.value);
        ReclaimsOldest(before, minIdle, now, batch);
      }
    }

    /** The entries the scan reached, in order, each with its job as enqueued and leased to this worker;
        every other lease as it was. */
    ghost predicate ClaimedAll(before: Broker, after: Broker, claimed: seq<(nat, Job)>, now: int) {
      && ClaimedIds(claimed) == ReclaimedIds(before, minIdle, now, batch)
      && TakesFirst(before.pending, ClaimedIds(claimed), minIdle, now, batch)
      && (forall k :: 0 < k < |claimed| ==> claimed[k - 1].0 < claimed[k].0)
      && (forall k :: 0 <= k < |claimed| ==> claimed[k].0 < |after.log| && claimed[k].1 == after.log[claimed[k].0])
      && after.pending.Keys == before.pending.Keys
      && (forall i :: i in before.pending ==>
            after.pending[i] == if i in ClaimedIds(claimed) then Lease(workerId, now) else before.pending[i])
    }

    /** The claim as the protocol sees it. */
    method TakeOver(now: int) returns (ids: seq<nat>, r: Result<seq<(nat, Job)>, ReadError>)
      requires site.Valid() && Sound(site.View())
      modifies site`trace, site.transport
      ensures site.Valid()
      ensures forall k :: 0 <= k < |ids| ==> ids[k] in old(site.transport.pending) && ids[k] < |site.transport.log|
      ensures forall k :: 0 < k < |ids| ==> ids[k - 1] < ids[k]
      ensures site.transport.View() == XAutoclaim(old(site.transport.View()), workerId, Elements(ids), now)
      ensures site.View() == old(site.View()).(redis := site.transport.View())
      ensures site.transport.hasGroup == old(site.transport.hasGroup)
      ensures !site.transport.hasGroup ==> ids == [] && r == Err(NoGroup) && site.trace == old(site.trace)
      ensures site.transport.hasGroup ==>
                && Elements(ids) == ReclaimedIds(old(site.transport.View()), minIdle, now, batch)
                && r == Ok(Picked(site.transport.log, ids))
                && site.trace == old(site.trace) + [Taking(old(site.View()), now)]
                && site.View() == Next(old(site.View()), Taking(old(site.View()), now))
    {
      hide Run, After, Own;
      ids, r := site.transport.AutoclaimStale(workerId, minIdle, now, batch);
      if site.transport.hasGroup {
        RepliesAreComplete(site.transport.wire, site.transport.log, ids, now, r);
        assert Taking(old(site.View()), now) == Claim(workerId, Elements(ids), now);
        site.Log(Taking(old(site.View()), now), Reclaimer(workerId));
      }
    }

    method Stop()
      modifies this`running
      ensures !running
    {
      running := false;
    }

    /** Rounds until stopped; a failing claim ends its round, not the loop.  What happens from start to end
        is exactly the rounds' claims and, between them, what the others do; and no claim moves a lease
        younger than `minIdle`, or leaves an older one that the scan reaches. */
    method RecoverLoop(rounds: seq<Round>) returns (ran: nat, ghost starts: seq<nat>)
      requires site.Valid()
      modifies this`running, site, site.transport, site.store
      ensures site.Valid()
      ensures ran <= |rounds| && (ran < |rounds| ==> ran > 0 && rounds[ran - 1].stopped)
      ensures forall k :: 0 <= k < ran - 1 ==> !rounds[k].stopped
      ensures site.trace == old(site.trace) + RoundsUnfold(old(site.View()), rounds[..ran], workerId, minIdle, batch)
      ensures RoundsClaim(site.cfg, site.trace, |old(site.trace)|, workerId, rounds[..ran], starts)
      ensures ClaimsExact(site.cfg, site.trace, |old(site.trace)|, workerId, minIdle, batch)
    {
      hide Run, After, Unfold, Arrive, ClaimsExact, RoundsClaim, Enabled, Apply, RoundScript, AllWritten, ReclaimedIds;
      hide RoundsUnfold, RoundsArrive, Next, Meanwhile;
      ghost var start, s := site.trace, site.View();
      running, ran, starts := true, 0, [];
      NoClaims(site.cfg, start, workerId, minIdle, batch);
      NoRounds(start, s, workerId, minIdle, batch);
      while running && ran < |rounds|
        invariant ran <= |rounds| && site.Valid()
        invariant running <==> ran == 0 || !rounds[ran - 1].stopped
        invariant forall k :: 0 <= k < ran - 1 ==> !rounds[k].stopped
        invariant site.trace == start + RoundsUnfold(s, rounds[..ran], workerId, minIdle, batch)
        invariant site.View() == RoundsArrive(s, rounds[..ran], workerId, minIdle, batch)
        invariant RoundsClaim(site.cfg, site.trace, |start|, workerId, rounds[..ran], starts)
        invariant ClaimsExact(site.cfg, site.trace, |start|, workerId, minIdle, batch)
      {
        starts := RunRound(rounds[ran], |start|, rounds[..ran], starts);
        assert rounds[..ran + 1] == rounds[..ran] + [rounds[ran]];
        AlongRounds(start, s, rounds[..ran], rounds[ran], workerId, minIdle, batch);
        if rounds[ran].stopped {
          Stop();
        }
        ran := ran + 1;
      }
    }

    /** The claim, unless the call raises before Redis carries it out or there is no group; then what the
        others do until the next round. */
    method RunRound(round: Round, ghost from: nat, ghost rounds: seq<Round>, ghost starts: seq<nat>)
      returns (ghost starts': seq<nat>)
      requires site.Valid() && from <= |site.trace| && ClaimsExact(site.cfg, site.trace, from, workerId, minIdle, batch)
      requires RoundsClaim(site.cfg, site.trace, from, workerId, rounds, starts)
      modifies site, site.transport, site.store
      ensures site.Valid() && from <= |site.trace|
      ensures var s, me := old(site.View()), Reclaimer(workerId);
              var claim := Claim(workerId, ReclaimedIds(s.redis, minIdle, round.now, batch), round.now);
              site.trace == old(site.trace) +
                if s.redis.hasGroup && (round.applied || !round.raises)
                then [claim] + Meanwhile(Next(s, claim), round.others, me)
                else Meanwhile(s, round.others, me)
      ensures starts' == starts + [|old(site.trace)|]
      ensures RoundsClaim(site.cfg, site.trace, from, workerId, rounds + [round], starts')
      ensures var script := RoundScript(old(site.View()), round, workerId, minIdle, batch);
              && site.trace == old(site.trace) + Unfold(old(site.View()), script, Reclaimer(workerId))
              && site.View() == Arrive(old(site.View()), script, Reclaimer(workerId))
      ensures ClaimsExact(site.cfg, site.trace, from, workerId, minIdle, batch)
    {
      hide Run, After, Unfold, Arrive, ClaimsExact, RoundsClaim, Meanwhile, Elapsed, Enabled, Apply;
      ghost var start, s, me := site.trace, site.View(), Reclaimer(workerId);
      if Claims(round) {
        var r := ClaimStale(round.now);
        if site.transport.hasGroup {
          ExactClaim(site.cfg, start, from, Taking(s, round.now), workerId, minIdle, batch);
        }
      }
      ghost var claimed, after := site.trace, site.View();
      site.Await(round.others, Reclaimer(workerId));
      MeanwhileIsNotMine(after, round.others, me);
      ExactMeanwhile(site.cfg, claimed, site.trace, from, workerId, minIdle, batch);
      starts' := starts + [|start|];
      OneMoreRound(site.cfg, start, site.trace, from, workerId, rounds, starts, round);
      AlongStop(site.trace, site.View(), me);
      AlongWait(claimed, after, round.others, Course.Stop, me);
      if Claims(round) && s.redis.hasGroup {
        AlongStep(start, s, Taking(s, round.now), Wait(round.others, Course.Stop), me);
      }
    }
  }

  lemma NoClaims(cfg: Config, trace: seq<Event>, worker: string, minIdle: int, batch: nat)
    requires Run(cfg, trace)
    ensures ClaimsExact(cfg, trace, |trace|, worker, minIdle, batch)
    ensures RoundsClaim(cfg, trace, |trace|, worker, [], [])
  {
  }

  lemma PickedIds(log: seq<Job>, ids: seq<nat>, claimed: seq<(nat, Job)>)
    requires (forall k :: 0 <= k < |ids| ==> ids[k] < |log|) && claimed == Picked(log, ids)
    ensures ClaimedIds(claimed) == Elements(ids)
  {
    assert forall k :: 0 <= k < |ids| ==> claimed[k].0 in ClaimedIds(claimed);
  }
}
