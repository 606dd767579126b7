# queuectl job lifecycle, modelled in Dafny

This project models the job-lifecycle engine of queuectl, a single-node job
queue backed by SQLite. Clients submit shell commands as jobs. Workers claim
the oldest pending job, run it, and then mark it completed, leave it `failed`
with an exponential backoff delay, or move it to the dead-letter queue (DLQ).
A job in the DLQ can be re-queued with its attempts reset.

The model is sequential and has five modules, one file each:

- `Wrappers` (`wrappers.dfy`): `Option`, `Result` and `Outcome`. They stand
  for Python's `None` and for raised exceptions.
- `Jobs` (`job.dfy`): the `Job` class with its closed set of states, the
  attempt counter, and the conversion to and from the job dictionary.
  `JobRow` is a dictionary with all seven keys, which is also a `jobs` row.
  `JobData` is a dictionary where any key may be missing.
- `Storage` (`storage.dfy`): the `Store` class, with the `jobs`, `dlq` and
  `config` tables as `map` fields. Each writer's contract ties the new tables
  to a pure function of the old ones (`Saved`, `StateUpdated`, `MovedToDlq`,
  `Requeued`, `ConfigAfter`). Each reader states exactly which rows its
  `SELECT` returns. The source leaves ties in `ORDER BY created_at` open, so
  the readers pick one admissible answer with `:|`. Induction lemmas show that
  such an answer always exists: a row with the least `created_at`, and a
  listing sorted by `created_at`.
- `Queue` (`queue.dfy`): the façade. A submission is normalised
  to a pending job with no attempts, stamped with the clock. The rest are
  thin wrappers over the store.
- `Worker` (`worker.dfy`): one pass of `worker_loop`, modelled as
  `WorkerStep`. Its inputs are the stop flag, the command's result (an exit
  code or an exception) and two clock readings. The pure functions `Claim`,
  `Finish` and `RunClaimed` describe the step on the tables. Traces of such
  steps carry the lemmas about many iterations.

Timestamps are abstract integers. Calls to `datetime.utcnow()` become clock
parameters (`now`, `claimedAt`, `finishedAt`).

A job queue of this kind would be expected to claim a job atomically and
break created_at ties by id, to retry `failed` jobs once their delay has
passed, and to reject empty ids or commands. The code does none of these, and
the model follows the code. These are the points where such expectations and
the code part:

- A job stored as `failed` is never claimed again. Claiming selects only
  `pending` rows, and nothing turns a `failed` row back to `pending`. So a job
  with `max_retries` ≥ 2 whose command always fails stops at `failed` with one
  attempt and never reaches the DLQ (`FailedStaysDormant`,
  `FailingJobNeverDeadLetters`). The test at
  `queuectl1/test_worker.py:35-58` expects such a job in the DLQ.
- The DLQ row is copied from the `jobs` table, not from the worker's `Job`
  object. It therefore records the attempts from before the final increment,
  and the `updated_at` of the `processing` mark (`DeadLetterRecord`).
- Claiming a job is a read (`get_pending_job`) followed by a separate write
  (`set_job_state`). There is no atomic claim and no tie-break by id.
- A job is created without checking for an empty id or command. Only a
  missing `id` or `command` key fails, with the `KeyError` of `from_dict`.
- `save_job` is a plain upsert. Re-submitting an id that sits in the DLQ puts
  that id in both tables (`SaveCanOverlapDlq`). All the other writers keep the
  two tables disjoint.
- `created_at ≤ updated_at` is not enforced: `from_dict` takes both
  timestamps as given.

## Model

| member | source | states |
|---|---|---|
| `Jobs.Initial` | queuectl1/job.py:7-16 | the constructed state is always in VALID_STATES: a valid state is kept, any other becomes "pending"; a missing created_at is the clock, a missing updated_at equals created_at |
| `Jobs.Job.constructor` | queuectl1/job.py:7-16 | a new Job satisfies the state invariant and holds exactly the fields `Initial` gives |
| `Jobs.FromDictRow` | queuectl1/job.py:29-39 | succeeds exactly when both `id` and `command` are present, otherwise fails with the KeyError of the first missing one; on success id and command are copied and the state is valid |
| `Jobs.FromDictDefaults` | queuectl1/job.py:29-39 | for any dictionary holding id and command, each missing key takes its own default whatever the others hold (state pending, attempts 0, max_retries 3, created_at the clock, updated_at the created_at) and each present key is taken as given, an invalid state becoming pending |
| `Jobs.RoundTrip` | queuectl1/job.py:18-39 | from_dict(to_dict(j)) reproduces all seven fields when j's state is valid |
| `Jobs.Job.ToDict` | queuectl1/job.py:18-27 | the dictionary carries the object's id, command and max_retries; its state is valid exactly when the object's is, and then from_dict of it gives it back for any clock |
| `Jobs.Job.FromDict` | queuectl1/job.py:29-39 | returns a fresh valid Job whose dictionary is `FromDictRow(data)`, or that function's KeyError |
| `Jobs.Job.IncrementAttempts` | queuectl1/job.py:41-43 | attempts rise by exactly 1 and updated_at becomes the clock; id, command, state, max_retries and created_at are unchanged |
| `Jobs.Job.UpdateState` | queuectl1/job.py:45-50 | a valid state is set and stamped; an invalid one raises InvalidState and leaves the job unchanged; the state invariant is preserved |
| `Jobs.Job.HasRetriesLeft` | queuectl1/job.py:52-53 | true exactly when attempts are below max_retries, so then at least one retry remains; a job with max_retries ≤ 0 never has one. Its partner is `Worker.FinishJob`, whose contract says that after a failed run this test, taken on the incremented count, is what chooses retry over dead-letter |
| `Storage.Saved` | queuectl1/storage.py:47-64 | upsert: the row under the job's id is the given job, every other row and the DLQ are unchanged |
| `Storage.SaveIdempotent` | queuectl1/storage.py:47-64 | saving the same job twice equals saving it once |
| `Storage.Store.SaveJob` | queuectl1/storage.py:47-64 | the tables become `Saved(old tables, job)`; config is unchanged |
| `Storage.MinExists` | queuectl1/storage.py:70-71 | every non-empty finite set of rows has a row with least created_at (proved by induction) |
| `Storage.SortedEnumerationExists` | queuectl1/storage.py:95-96 | every finite set of rows can be listed once each in ascending created_at order (proved by induction) |
| `Storage.Store.GetPendingJob` | queuectl1/storage.py:66-75 | returns None iff no row is pending; otherwise a pending row, as stored, whose created_at is ≤ that of every pending row; the store is not modified |
| `Storage.StateUpdated` | queuectl1/storage.py:77-89 | changes only state, updated_at and (when given) attempts of that one row; command, max_retries, created_at, the other rows and the DLQ are unchanged; no-op for an absent id |
| `Storage.Store.UpdateJobState` | queuectl1/storage.py:77-89 | the tables become `StateUpdated` of the old ones, with updated_at defaulting to the clock |
| `Storage.Store.ListJobsByState` | queuectl1/storage.py:91-100 | returns exactly the rows with the given state, each once, as stored, in ascending created_at order |
| `Storage.Archived` | queuectl1/storage.py:110-122 | the DLQ row copies id, command, attempts, max_retries, created_at and updated_at of the jobs row and adds the failure reason |
| `Storage.MovedToDlq` | queuectl1/storage.py:102-126 | absent id: no change; present id: the id leaves `jobs` and enters `dlq` with the same command, attempts, max_retries, created_at, updated_at and the given reason; other DLQ rows are kept |
| `Storage.Store.MoveJobToDlq` | queuectl1/storage.py:102-126 | returns True exactly when the id was in `jobs`; the tables become `MovedToDlq` of the old ones |
| `Storage.Store.ListDlqJobs` | queuectl1/storage.py:128-134 | returns every DLQ row exactly once, as stored, in ascending created_at order |
| `Storage.Revived` | queuectl1/storage.py:145-157 | the re-inserted jobs row is pending with attempts 0 and updated_at the clock, and copies id, command, max_retries and created_at of the DLQ row |
| `Storage.ArchiveReviveRoundTrip` | queuectl1/storage.py:110-157 | reviving an archived row gives the row back with only state, attempts and updated_at reset; archiving a revived row with its reason gives the DLQ row back with only attempts and updated_at changed |
| `Storage.Requeued` | queuectl1/storage.py:136-161 | absent id: no change; present id: removed from `dlq`, and the `jobs` row is pending with attempts 0, the same command, max_retries and created_at, and updated_at set to the clock |
| `Storage.Store.RetryDlqJob` | queuectl1/storage.py:136-161 | returns True exactly when the id was in `dlq`; the tables become `Requeued` of the old ones |
| `Storage.MoveThenRequeue` | queuectl1/storage.py:102-161 | moving a job to the DLQ and re-queuing it gives back the original tables, with that job pending, attempts 0 and a new updated_at |
| `Storage.StateUpdatedKeepsInvariants` | queuectl1/storage.py:77-89 | an update keeps every row under its own id and no id in both tables |
| `Storage.MovedToDlqKeepsInvariants` | queuectl1/storage.py:102-126 | a move to the DLQ keeps every row under its own id and no id in both tables |
| `Storage.RequeuedKeepsInvariants` | queuectl1/storage.py:136-161 | a re-queue keeps every row under its own id and no id in both tables |
| `Storage.SaveCanOverlapDlq` | queuectl1/storage.py:47-64 | saving a job whose id is in the DLQ leaves that id in both tables |
| `Storage.Store.SetConfig` | queuectl1/storage.py:163-170 | config becomes the old config with the one write applied; jobs and DLQ are unchanged |
| `Storage.Store.GetConfig` | queuectl1/storage.py:172-178 | returns the stored value for the key, or the default when the key is absent |
| `Storage.ConfigReadsLastWrite` | queuectl1/storage.py:163-178 | after any sequence of set_config calls, get_config(k, d) returns the last value written for k, or the earlier lookup (d on an empty table) if k was never written (proved by induction) |
| `Storage.Store.constructor` | queuectl1/storage.py:13-45 | the store starts with three empty tables |
| `Queue.Submitted` | queuectl1/queue.py:5-19 | the enqueued row is pending with attempts 0 and created_at = updated_at = the clock, whatever the input says; id, command and max_retries (default 3) come from the input; a missing id or command fails with its KeyError |
| `Queue.EnqueueJob` | queuectl1/queue.py:5-19 | on success the tables become `Saved(old tables, Submitted(data))`, which replaces any row with that id and leaves the others untouched; on a KeyError nothing changes |
| `Queue.GetNextPendingJob` | queuectl1/queue.py:21-29 | returns null exactly when no row is pending; otherwise a fresh valid Job whose fields are those of a pending row with least created_at |
| `Queue.UpdateJob` | queuectl1/queue.py:31-36 | stamps the job's updated_at with the clock, leaves its other fields alone, and upserts its dictionary |
| `Queue.SetJobState` | queuectl1/queue.py:38-42 | the tables become `StateUpdated(old tables, id, state, attempts, clock)` |
| `Queue.ListJobs` | queuectl1/queue.py:44-49 | returns exactly the rows in that state, each once, oldest first |
| `Worker.Pow` | queuectl1/worker.py:51 | the whole-number delay base^attempts: a base of at least 1 always waits at least 1, a base of 1 waits exactly 1 every time, and the first retry waits exactly the base; `PowGrows` and `DefaultDelays` are its lemmas |
| `Worker.PowGrows` | queuectl1/worker.py:51 | with any base of at least 2, the delay is at least 1 and each further attempt waits strictly longer (from `Pow`'s lower bound, itself proved through its recursive calls) |
| `Worker.DefaultDelays` | queuectl1/worker.py:46-51 | with base 2 the delays after attempts 1, 2 and 3 are 2, 4 and 8 |
| `Worker.ParseNat` | queuectl1/worker.py:47-50 | a value parses exactly when it is a non-empty string of decimal digits |
| `Worker.NatToString` | queuectl1/config.py:7 | the decimal text of a number is a non-empty string of digits |
| `Worker.ParseNatToString` | queuectl1/worker.py:46-50 | a whole number written in decimal parses back to itself |
| `Worker.BackoffBase` | queuectl1/worker.py:46-50 | a missing backoff_base gives base 2, an unparsable one gives 2, a parsable one gives its value |
| `Worker.ConfiguredBase` | queuectl1/worker.py:46-50 | after `set_config('backoff_base', str(n))` the base is n |
| `Worker.ExitCode` | queuectl1/worker.py:28-34 | the run counts as success exactly when the command exited with 0; an exception counts as exit code 1 and a normal exit as its own code |
| `Worker.Claim` | queuectl1/worker.py:24 | before the command runs, the claimed row is set to processing and stamped; nothing else changes |
| `Worker.Finish` | queuectl1/worker.py:37-58 | exit code 0: completed, attempts unchanged. Non-zero: attempts+1 < max_retries gives failed with attempts+1 and delay base^(attempts+1); otherwise the job leaves `jobs` for `dlq` with reason "Max retries exceeded". Other rows are unchanged and no job is added |
| `Worker.DeadLetterRecord` | queuectl1/worker.py:43-58 | the DLQ record of a dead-lettered job keeps the table's attempts, which are one less than the worker's count, and the processing timestamp |
| `Worker.WorkerStep` | queuectl1/worker.py:16-59 | stop set: exits with no change. No pending job: Idle, no change. Otherwise it claims a pending job with least created_at and the tables become `RunClaimed` of the old ones; an exception counts as exit code 1; config is unchanged |
| `Worker.FinishJob` | queuectl1/worker.py:36-59 | for a claimed job whose field copies match its row: exit code 0 marks it completed; otherwise attempts go up by one and the job is marked failed with a backoff delay of base^attempts while attempts < max_retries, else it is moved to the DLQ; the result is exactly `Finish` of the old tables; config is unchanged; the worker's Job object keeps its state and created_at, and on failure has attempts one higher and updated_at the finish time, on success is unchanged; after a failure the outcome is Retried exactly when `has_retries_left()` holds for the incremented count, and DeadLettered exactly when it does not |
| `Worker.MoveKeepsAttempts` | queuectl1/worker.py:43-58 | one iteration adds no job to `jobs` and lowers no job's attempts |
| `Worker.MoveKeepsFailed` | queuectl1/worker.py:17 | one iteration leaves a failed row exactly as it was |
| `Worker.RunKeepsInvariants` | queuectl1/worker.py:24-58 | a claimed iteration keeps every row under its own id and no id in both tables |
| `Worker.MoveKeepsInvariants` | queuectl1/worker.py:17-58 | so does any single iteration |
| `Worker.AttemptsNeverDecrease` | queuectl1/worker.py:43-53 | across any trace of iterations a job's attempts never decrease, and a job in `jobs` later was in `jobs` earlier (proved by induction) |
| `Worker.FailedStaysDormant` | queuectl1/worker.py:17 | across any trace of iterations a row stored as failed stays in `jobs`, unchanged (proved by induction) |
| `Worker.TraceKeepsInvariants` | queuectl1/worker.py:16-59 | across any trace of iterations every row stays under its own id and no id is in both tables (proved by induction) |
| `Worker.FailingJobNeverDeadLetters` | queuectl1/test_worker.py:35-58 | a submitted job with max_retries ≥ 2 whose first run fails stays failed with one attempt and never reaches the DLQ in any later iteration |

## Left out

- `queuectl1/cli.py`: click argument parsing and output. It is I/O only.
- `queuectl1/dlq.py` and `queuectl1/config.py`: one-line delegations to
  `list_dlq_jobs`, `retry_dlq_job`, `set_config` and `get_config`, which are
  modelled. `get_config_value` re-applies a default that `get_config` already
  handles.
- Threads, signals and the stop event: `start_workers`, `stop_workers`,
  `active_worker_count` and the signal handler. The stop flag is only the
  `stopRequested` input of `WorkerStep`. The model is sequential, so it says
  nothing about two workers claiming the same job, which the non-atomic claim
  allows.
- Running the command (`subprocess.run`): this is a foreign call. Its result
  is the `RunResult` input.
- `time.sleep`: the model computes the delay but does not wait.
- Logging (`print`) and `Job.__str__` (JSON pretty-printing).
- SQLite plumbing: connections, commits and the schema. Starting from empty
  tables is all that `Store.constructor` keeps of `init_db`.
- Timestamp text: ISO strings are abstract integers, and ORDER BY compares
  them as numbers. An empty-string timestamp, which Python's `or` also treats
  as missing, is represented as `None`.
- Dynamic typing of submissions: values of the wrong type, a negative or
  non-integer `attempts`, and keys given explicitly as `null` are not
  modelled. `attempts` is a `nat`.
- Storage.Store.MoveJobToDlq: the reason is a required argument. The
  default `failed_reason=""` of `move_job_to_dlq` is not modelled, because
  its only caller, the worker, always passes "Max retries exceeded".
- Worker.BackoffBase: only plain decimal digit strings parse. Anything else
  that Python's `float()` accepts ("2.5", " 3", "1e2", "-2", "inf") falls back
  to base 2 here. The source would use that value, and with a negative base
  the sleep would raise.
- Worker.Pow: the delay is a whole number `base ** attempts`, with no
  floating point.
- Worker.WorkerStep: the clock reading inside `increment_attempts` only
  changes the worker's local `Job` object. The model stamps that object with
  `finishedAt`.
- The tests (`queuectl1/test_worker.py`, `tests/test_worker.py`) drive the
  CLI through subprocesses and sleeps. `Worker.FailingJobNeverDeadLetters`
  states what the code does instead of what the first test expects.
