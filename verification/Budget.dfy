/** The retry budget of executions that carry the count forward from one to the next. */
module Budget {
  import opened Jobs
  import opened Execute

  /** An execution whose handler fails and which is not cancelled. */
  predicate Fails(plan: Plan) {
    plan.handler in {Raises, TimesOut} && !plan.park.CancelledInFlight? && !plan.ack.CancelledInFlight?
  }

  /** How the executions of an always-failing job exit, each run on the job as the one before left it, up
      to the first that does not leave it for a retry; `plans(i)` is what happens during the i-th. */
  ghost function Chain(job: Job, plans: nat -> Plan): (exits: seq<Exit>)
    requires forall i :: Fails(plans(i))
    decreases job.maxRetries + 1 - job.attempts
  {
    var exit := ExitOf(job, plans(0));
    if exit == LeftForRetry then [exit] + Chain(Rerun(job), (i: nat) => plans(i + 1)) else [exit]
  }

  /** Such a job is executed max_retries + 1 - attempts times, and dead-lettered by the last execution
      only, whether handlers raise or time out and whatever becomes of the Redis commands. */
  lemma {:induction false} ChainSpendsTheBudget(job: Job, plans: nat -> Plan)
    requires (forall i :: Fails(plans(i))) && job.attempts <= job.maxRetries
    ensures |Chain(job, plans)| == job.maxRetries + 1 - job.attempts
    ensures forall i :: 0 <= i < |Chain(job, plans)| ==>
              Chain(job, plans)[i] == if i == |Chain(job, plans)| - 1 then DeadLetteredJob else LeftForRetry
    decreases job.maxRetries + 1 - job.attempts
  {
    assert Fails(plans(0));
    if ExitOf(job, plans(0)) == LeftForRetry {
      ChainSpendsTheBudget(Rerun(job), (i: nat) => plans(i + 1));
    }
  }

  /** A job that arrives over budget is dead-lettered by its first failure. */
  lemma OverBudgetChain(job: Job, plans: nat -> Plan)
    requires (forall i :: Fails(plans(i))) && job.attempts > job.maxRetries
    ensures Chain(job, plans) == [DeadLetteredJob]
  {
    assert Fails(plans(0));
  }
}
