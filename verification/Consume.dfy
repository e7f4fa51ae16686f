/** A worker's side of the consumer group: joining it, and polling for jobs. */
module Consume {
  import opened Outcomes
  import opened Jobs
  import opened Redis
  import opened Protocol
  import opened NoLoss
  import opened Transport
  import opened Site

  function IdsOf(jobs: seq<(nat, Job)>): set<nat> {
    set k | 0 <= k < |jobs| :: jobs[k].0
  }

  /** In stream order, each with its job as it was enqueued. */
  predicate AsEnqueued(log: seq<Job>, jobs: seq<(nat, Job)>) {
    && (forall k :: 0 <= k < |jobs| ==> jobs[k].0 < |log| && jobs[k].1 == log[jobs[k].0])
    && (forall k :: 0 < k < |jobs| ==> jobs[k - 1].0 < jobs[k].0)
  }

  class Consumer {
    const site: Site
    const worker: string

    constructor (site: Site, worker: string)
      ensures this.site == site && this.worker == worker
    {
      this.site, this.worker := site, worker;
    }

    /** Safe at every start of every worker: whatever was appended before the group existed is still
        to be delivered, and an existing group keeps its place. */
    method Join()
      requires site.Valid()
      modifies site`trace, site.transport
      ensures site.Valid() && site.trace == old(site.trace) + [CreateGroup]
      ensures site.View() == Apply(old(site.View()), CreateGroup)
      ensures site.transport.hasGroup
      ensures site.View().redis.(hasGroup := old(site.transport.hasGroup)) == old(site.View().redis)
      ensures !old(site.transport.hasGroup) ==> Undelivered(site.transport.View()) == Ids(0, |site.transport.log|)
    {
      AlwaysSound(site.cfg, site.trace);
      EnsureGroupKeepsAll(site.transport.View());
      site.transport.EnsureGroup();
      site.Log(CreateGroup, Poller(worker));
    }

    /** Without a group it raises.  Otherwise what it returns is claimed for this worker, was neither
        pending nor acknowledged before, is everything the read claimed, and is the oldest of what was
        waiting. */
    method Poll(count: nat, now: int) returns (r: Result<seq<(nat, Job)>, ReadError>)
      requires site.Valid()
      modifies site`trace, site.transport
      ensures site.Valid()
      ensures !old(site.transport.hasGroup) ==> r == Err(NoGroup) && site.trace == old(site.trace)
      ensures old(site.transport.hasGroup) ==>
                && site.trace == old(site.trace) + [Read(worker, count, now)]
                && site.View() == Apply(old(site.View()), Read(worker, count, now))
                && r.Ok? && IdsInOrder(r.value) == HandedInOrder(old(site.transport.View()), count)
                && Delivers(old(site.transport.View()), site.transport.View(), r.value, count, now)
    {
      ghost var before := site.transport.View();
      AlwaysSound(site.cfg, site.trace);
      r := Take(count, now);
      if r.Ok? {
        HandedAreReturned(before, count, r.value);
        PollMoves(before, worker, count, now);
      }
    }

    /** What a poll promises about the jobs it returns. */
    ghost predicate Delivers(before: Broker, after: Broker, jobs: seq<(nat, Job)>, count: nat, now: int) {
      && AsEnqueued(after.log, jobs) && |jobs| <= count
      && IdsOf(jobs) !! before.pending.Keys + before.acked
      && after.pending.Keys == before.pending.Keys + IdsOf(jobs)
      && (forall i :: i in IdsOf(jobs) ==> after.pending[i] == Lease(worker, now))
      && after.log == before.log && after.acked == before.acked
      && (|jobs| < count ==> forall i :: i in Undelivered(after) ==> i < after.trimmed)
    }

    method Take(count: nat, now: int) returns (r: Result<seq<(nat, Job)>, ReadError>)
      requires site.Valid()
      modifies site`trace, site.transport
      ensures site.Valid()
      ensures !old(site.transport.hasGroup) ==> r == Err(NoGroup) && site.trace == old(site.trace)
      ensures old(site.transport.hasGroup) ==>
                && site.trace == old(site.trace) + [Read(worker, count, now)]
                && site.View() == Apply(old(site.View()), Read(worker, count, now))
                && site.transport.View() == XReadGroup(old(site.transport.View()), worker, count, now)
                && r == Ok(Picked(old(site.transport.log), HandedInOrder(old(site.transport.View()), count)))
    {
      AlwaysSound(site.cfg, site.trace);
      ghost var ids := HandedInOrder(site.transport.View(), count);
      r := site.transport.ReadGroup(worker, count, now);
      if site.transport.hasGroup {
        RepliesAreComplete(site.transport.wire, site.transport.log, ids, now, r);
        site.Log(Read(worker, count, now), Poller(worker));
      }
    }
  }

  function IdsInOrder(jobs: seq<(nat, Job)>): (ids: seq<nat>)
    ensures |ids| == |jobs|
    ensures forall k :: 0 <= k < |ids| ==> ids[k] == jobs[k].0
  {
    seq(|jobs|, k requires 0 <= k < |jobs| => jobs[k].0)
  }

  lemma PollMoves(r: Broker, worker: string, count: nat, now: int)
    requires Partitioned(r) && r.hasGroup
    ensures var r' := XReadGroup(r, worker, count, now);
            && Handed(r, count) !! r.pending.Keys + r.acked
            && r'.pending.Keys == r.pending.Keys + Handed(r, count)
            && (forall i :: i in Handed(r, count) ==> r'.pending[i] == Lease(worker, now))
            && r'.log == r.log && r'.acked == r.acked
            && (ReadEnd(r, count) - NextUp(r) < count ==> forall i :: i in Undelivered(r') ==> i < r'.trimmed)
  {
  }

  lemma HandedAreReturned(r: Broker, count: nat, jobs: seq<(nat, Job)>)
    requires Partitioned(r)
    requires jobs == Picked(r.log, HandedInOrder(r, count))
    ensures IdsOf(jobs) == Handed(r, count) && IdsInOrder(jobs) == HandedInOrder(r, count)
  {
    forall i | i in Handed(r, count) ensures i in IdsOf(jobs) {
      assert jobs[i - NextUp(r)].0 == i;
    }
  }
}
