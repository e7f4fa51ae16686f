/** The job record and its dictionary form. */
module Jobs {
  import opened Outcomes

  datatype JobStatus = Pending | Processing | Completed | Failed | Dead

  /** What a job's `status` attribute holds.  Python does not stop a caller from assigning a plain
      string, which has no `.value`. */
  datatype StatusField = Member(status: JobStatus) | Text(text: string)

  /** `payload` and `createdAt` are opaque: nothing in the queue looks inside them. */
  datatype Job = Job(
    id: string,
    kind: string,
    payload: string,
    status: StatusField,
    createdAt: int,
    attempts: int,
    maxRetries: int,
    key: Option<string>,
    queue: string)

  predicate ShouldDlq(job: Job) {
    job.attempts > job.maxRetries
  }
}
