/**
 * The queue façade (queuectl1/queue.py): submission normalisation and thin
 * wrappers over the store, which stands for the module-level database.
 */
module Queue {
  import opened Wrappers
  import opened Jobs
  import opened Storage

  /**
   * The row `enqueue_job(data)` writes: whatever the dictionary says, the job
   * is pending with no attempts and both timestamps are the clock `now`; id,
   * command and max_retries (default 3) come from the dictionary.
   */
  function Submitted(data: JobData, now: Timestamp): (r: Result<JobRow, JobError>)
    ensures r.Success? <==> data.id.Some? && data.command.Some?
    ensures r.Failure? ==> r == Failure(FromDictRow(data, now).error)
    ensures r.Success? ==>
      && r.value.id == data.id.value
      && r.value.command == data.command.value
      && r.value.maxRetries == data.maxRetries.GetOr(DefaultMaxRetries)
      && r.value.state == "pending"
      && r.value.attempts == 0
      && r.value.createdAt == now && r.value.updatedAt == now
  {
    match FromDictRow(data, now)
    case Failure(e) => Failure(e)
    case Success(row) => Success(row.(state := "pending", createdAt := now, updatedAt := now, attempts := 0))
  }

  /** `enqueue_job`: upsert the normalised job, or raise the `KeyError` of `from_dict` and write nothing. */
  method EnqueueJob(store: Store, data: JobData, now: Timestamp) returns (r: Outcome<JobError>)
    requires store.Valid()
    modifies store
    ensures store.Valid() && store.config == old(store.config)
    ensures r.Pass? <==> Submitted(data, now).Success?
    ensures r.Pass? ==> store.Snapshot() == Saved(old(store.Snapshot()), Submitted(data, now).value)
    ensures r.Fail? ==> Submitted(data, now) == Failure(r.error) && store.Snapshot() == old(store.Snapshot())
  {
    var made := Job.FromDict(data, now);
    if made.Failure? {
      return Fail(made.error);
    }
    var job := made.value;
    job.state := "pending";
    job.createdAt := now;
    job.updatedAt := job.createdAt;
    job.attempts := 0;
    store.SaveJob(job.ToDict());
    r := Pass;
  }

  /** `get_next_pending_job`: a fresh Job built from the oldest pending row, or null. */
  method GetNextPendingJob(store: Store, now: Timestamp) returns (job: Job?)
    requires store.Valid()
    ensures job == null <==> NoPending(store.jobs)
    ensures job != null ==> fresh(job) && job.Valid() && IsOldestPending(store.jobs, job.id)
                            && job.ToDict() == store.jobs[job.id]
  {
    var data := store.GetPendingJob();
    if data.None? {
      return null;
    }
    RoundTrip(data.value, now);
    var made := Job.FromDict(AsData(data.value), now);
    job := made.value;
  }

  /** `update_job`: stamp the job with the clock and upsert it. */
  method UpdateJob(store: Store, job: Job, now: Timestamp)
    requires store.Valid()
    modifies store, job
    ensures store.Valid() && store.config == old(store.config)
    ensures job.updatedAt == now
    ensures job.state == old(job.state) && job.attempts == old(job.attempts) && job.createdAt == old(job.createdAt)
    ensures store.Snapshot() == Saved(old(store.Snapshot()), job.ToDict())
  {
    job.updatedAt := now;
    store.SaveJob(job.ToDict());
  }

  /** `set_job_state`: `update_job_state` with updated_at set to the clock. */
  method SetJobState(store: Store, jobId: string, newState: string, attempts: Option<nat>, now: Timestamp)
    requires store.Valid()
    modifies store
    ensures store.Valid() && store.config == old(store.config)
    ensures store.Snapshot() == StateUpdated(old(store.Snapshot()), jobId, newState, attempts, now)
  {
    store.UpdateJobState(jobId, newState, attempts, Some(now), now);
  }

  /** `list_jobs`. */
  method ListJobs(store: Store, state: string) returns (rows: seq<JobRow>)
    requires store.Valid()
    ensures ListsState(rows, store.jobs, state)
  {
    rows := store.ListJobsByState(state);
  }
}
