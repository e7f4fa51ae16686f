/** How jobs travel through a stream entry: the dictionary form and the decoding loop. */
module Codec {
  import opened Outcomes
  import opened Jobs

  /** A parsed ISO timestamp, or text that does not parse as one. */
  datatype Stamp = Iso(time: int) | Garbled

  /** The JSON object: an absent field is None. */
  datatype Dict = Dict(
    id: Option<string>,
    kind: Option<string>,
    payload: Option<string>,
    status: Option<string>,
    createdAt: Option<Stamp>,
    attempts: Option<int>,
    maxRetries: Option<int>,
    key: Option<string>,
    queue: Option<string>)

  /** What a stream entry can hold. */
  datatype Body = NoJobField | NotJson | Parsed(dict: Dict)

  /** KeyError is caught by the decoding loops; ValueError is not. */
  datatype DecodeError = KeyError | ValueError

  datatype EncodeError = AttributeError

  function StatusName(status: JobStatus): string {
    match status
    case Pending => "pending"
    case Processing => "processing"
    case Completed => "completed"
    case Failed => "failed"
    case Dead => "dead"
  }

  function StatusOf(name: string): Option<JobStatus> {
    if name == "pending" then Some(Pending)
    else if name == "processing" then Some(Processing)
    else if name == "completed" then Some(Completed)
    else if name == "failed" then Some(Failed)
    else if name == "dead" then Some(Dead)
    else None
  }

  function ToDict(job: Job): Result<Dict, EncodeError> {
    match job.status
    case Text(_) => Err(AttributeError)
    case Member(status) =>
      Ok(Dict(Some(job.id), Some(job.kind), Some(job.payload), Some(StatusName(status)), Some(Iso(job.createdAt)),
              Some(job.attempts), Some(job.maxRetries), job.key, Some(job.queue)))
  }

  function Get<T>(field: Option<T>, default: T): T {
    if field.Some? then field.value else default
  }

  function FromDict(d: Dict, now: int): Result<Job, DecodeError> {
    var status := StatusOf(Get(d.status, "pending"));
    if d.id.None? then
      Err(KeyError)
    else if status.None? || d.createdAt == Some(Garbled) then
      Err(ValueError)
    else
      Ok(Job(d.id.value, Get(d.kind, ""), Get(d.payload, "{}"), Member(status.value),
             if d.createdAt.Some? then d.createdAt.value.time else now,
             Get(d.attempts, 0), Get(d.maxRetries, 3), d.key, Get(d.queue, "default")))
  }

  /** What is written can be read back, whatever the clock says; and it can be written exactly when
      the status is a member of the enumeration. */
  lemma RoundTrip(job: Job, now: int)
    ensures ToDict(job).Ok? <==> job.status.Member?
    ensures ToDict(job).Ok? ==> FromDict(ToDict(job).value, now) == Ok(job)
  {
  }

  /** Reading and writing again is a fixed point: decoding fills the defaults once and for all. */
  lemma ReadWriteRead(d: Dict, now: int, later: int)
    requires FromDict(d, now).Ok?
    ensures ToDict(FromDict(d, now).value).Ok?
    ensures FromDict(ToDict(FromDict(d, now).value).value, later) == FromDict(d, now)
  {
    RoundTrip(FromDict(d, now).value, later);
  }

  /** A job as its constructor makes it when given nothing but an id. */
  function NewJob(id: string, now: int): Job {
    Job(id, "", "{}", Member(Pending), now, 0, 3, None, "default")
  }

  /** Absent fields read as a new job's: decoding and construction have the same defaults. */
  lemma AbsentFieldsAreNew(d: Dict, now: int)
    requires FromDict(d, now).Ok?
    ensures var job, made := FromDict(d, now).value, NewJob(Get(d.id, ""), now);
            && job.id == made.id
            && (d.kind.None? ==> job.kind == made.kind)
            && (d.payload.None? ==> job.payload == made.payload)
            && (d.status.None? ==> job.status == made.status)
            && (d.createdAt.None? ==> job.createdAt == made.createdAt)
            && (d.attempts.None? ==> job.attempts == made.attempts)
            && (d.maxRetries.None? ==> job.maxRetries == made.maxRetries)
            && (d.key.None? ==> job.key == made.key)
            && (d.queue.None? ==> job.queue == made.queue)
  {
  }

  // -- decoding a batch ---------------------------------------------------------

  /** JSON with an id.  Without one, a bad status or timestamp is never looked at. */
  predicate Named(body: Body) {
    body.Parsed? && body.dict.id.Some?
  }

  /** A named entry whose status is none of the five, or whose timestamp does not parse. */
  predicate Raises(body: Body) {
    && Named(body)
    && ((body.dict.status.Some? &&
         body.dict.status.value !in {"pending", "processing", "completed", "failed", "dead"})
        || body.dict.createdAt == Some(Garbled))
  }

  /** Every field that is there is read as it stands, every other one as a new job's. */
  predicate ReadsAs(d: Dict, now: int, job: Job) {
    && d.id == Some(job.id)
    && job.kind == (match d.kind case Some(kind) => kind case None => "")
    && job.payload == (match d.payload case Some(payload) => payload case None => "{}")
    && job.createdAt == (match d.createdAt case Some(Iso(time)) => time case _ => now)
    && job.attempts == (match d.attempts case Some(n) => n case None => 0)
    && job.maxRetries == (match d.maxRetries case Some(n) => n case None => 3)
    && job.key == d.key
    && job.queue == (match d.queue case Some(queue) => queue case None => "default")
    && job.status == Member(match d.status
                            case Some("processing") => Processing
                            case Some("completed") => Completed
                            case Some("failed") => Failed
                            case Some("dead") => Dead
                            case _ => Pending)
  }

  /** What decoding makes of an entry, in terms of what is in it. */
  lemma DecodingMeans(d: Dict, now: int)
    ensures FromDict(d, now) == Err(KeyError) <==> !Named(Parsed(d))
    ensures FromDict(d, now) == Err(ValueError) <==> Raises(Parsed(d))
    ensures FromDict(d, now).Ok? ==> ReadsAs(d, now, FromDict(d, now).value)
  {
  }

  lemma OnlyParsedRaises(body: Body)
    ensures Raises(body) ==> body.Parsed?
  {
  }

  /** `jobs` are the named entries, at the positions `kept`, in order, each read as it stands. */
  ghost predicate ReadInOrder(entries: seq<(nat, Body)>, now: int, kept: seq<nat>, jobs: seq<(nat, Job)>) {
    && |kept| == |jobs|
    && (forall k :: 0 <= k < |kept| ==> kept[k] < |entries| && Named(entries[kept[k]].1))
    && (forall k, l :: 0 <= k < l < |kept| ==> kept[k] < kept[l])
    && (forall i: nat :: i < |entries| && Named(entries[i].1) ==> i in kept)
    && (forall k :: 0 <= k < |kept| ==>
          jobs[k].0 == entries[kept[k]].0 && ReadsAs(entries[kept[k]].1.dict, now, jobs[k].1))
  }

  /** All named entries of the batch, and nothing else. */
  ghost predicate ReadFrom(entries: seq<(nat, Body)>, now: int, jobs: seq<(nat, Job)>) {
    exists kept :: ReadInOrder(entries, now, kept, jobs)
  }

  /** The loop of `read_group` and `autoclaim_stale`: malformed entries are skipped, but a value
      error escapes and takes the whole batch with it. */
  method DecodeBatch(entries: seq<(nat, Body)>, now: int) returns (r: Result<seq<(nat, Job)>, DecodeError>)
    ensures r.Err? <==> exists i :: 0 <= i < |entries| && Raises(entries[i].1)
    ensures r.Err? ==> r.error == ValueError
    ensures r.Ok? ==> ReadFrom(entries, now, r.value)
  {
    var jobs: seq<(nat, Job)> := [];
    ghost var kept: seq<nat> := [];
    for i := 0 to |entries|
      invariant forall k :: 0 <= k < i ==> !Raises(entries[k].1)
      invariant ReadInOrder(entries[..i], now, kept, jobs)
    {
      hide ReadsAs, Raises, FromDict;
      assert entries[..i + 1][..i] == entries[..i];
      var (id, body) := entries[i];
      if body.Parsed? {
        DecodingMeans(body.dict, now);
        match FromDict(body.dict, now)
        case Ok(job) =>
          jobs, kept := jobs + [(id, job)], kept + [i];
        case Err(KeyError) =>
        case Err(ValueError) => return Err(ValueError);
      } else {
        OnlyParsedRaises(body);
      }
    }
    assert entries[..|entries|] == entries;
    r := Ok(jobs);
  }

  /** A body as the queue itself writes it. */
  predicate Holds(body: Body, job: Job) {
    ToDict(job).Ok? && body == Parsed(ToDict(job).value)
  }

  lemma HeldReads(body: Body, job: Job, now: int)
    requires Holds(body, job)
    ensures Named(body) && !Raises(body)
    ensures forall read :: ReadsAs(body.dict, now, read) ==> read == job
  {
  }

  /** Increasing positions that leave none out. */
  lemma {:induction false} AllKept(kept: seq<nat>, n: nat)
    requires forall k, l :: 0 <= k < l < |kept| ==> kept[k] < kept[l]
    requires forall i: nat :: i in kept <==> i < n
    ensures |kept| == n && forall k :: 0 <= k < n ==> kept[k] == k
  {
    if kept == [] {
      assert 0 in kept <==> 0 < n;
    } else {
      var last := |kept| - 1;
      assert kept[last] in kept && n - 1 in kept;
      var j :| 0 <= j <= last && kept[j] == n - 1;
      assert j == last;
      forall i: nat ensures i in kept[..last] <==> i < n - 1 {
        assert i in kept <==> i < n;
        if i in kept {
          var k :| 0 <= k <= last && kept[k] == i;
          assert k < last ==> kept[..last][k] == i;
        }
      }
      AllKept(kept[..last], n - 1);
    }
  }

  /** Such entries raise nothing, and a batch of them comes back complete, in order and unchanged. */
  lemma WrittenDecode(entries: seq<(nat, Body)>, jobs: seq<Job>, now: int)
    requires |jobs| == |entries|
    requires forall i :: 0 <= i < |jobs| ==> Holds(entries[i].1, jobs[i])
    ensures forall i :: 0 <= i < |entries| ==> !Raises(entries[i].1)
    ensures forall read :: ReadFrom(entries, now, read) ==>
              read == seq(|jobs|, i requires 0 <= i < |jobs| => (entries[i].0, jobs[i]))
  {
    hide Holds, Raises, ReadsAs;
    forall i | 0 <= i < |entries|
      ensures Named(entries[i].1) && !Raises(entries[i].1)
      ensures forall job :: ReadsAs(entries[i].1.dict, now, job) ==> job == jobs[i]
    {
      HeldReads(entries[i].1, jobs[i], now);
    }
    forall kept, read | ReadInOrder(entries, now, kept, read)
      ensures read == seq(|jobs|, i requires 0 <= i < |jobs| => (entries[i].0, jobs[i]))
    {
      assert forall i: nat :: i in kept <==> i < |entries|;
      AllKept(kept, |entries|);
    }
  }
}
