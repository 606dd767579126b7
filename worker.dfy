/**
 * One iteration of `worker_loop` (queuectl1/worker.py) as a step over the
 * store: claim the oldest pending job, mark it processing, and, depending on
 * how its command ended, complete it, leave it failed with a backoff delay,
 * or move it to the dead-letter queue. The command's result, the stop flag
 * and the clock readings are inputs.
 */
module Worker {
  import opened Wrappers
  import opened Jobs
  import opened Storage
  import Queue

  /** What running the command gave: its exit code, or an exception from starting it. */
  datatype RunResult = Exited(code: int) | Raised

  /** What the iteration did; `delay` is the backoff the worker then sleeps for. */
  datatype StepOutcome =
    | Stopped
    | Idle
    | Completed(id: string)
    | Retried(id: string, delay: nat)
    | DeadLettered(id: string)
  {
    predicate Claimed() {
      Completed? || Retried? || DeadLettered?
    }
  }

  const DlqReason: string := "Max retries exceeded"
  const BackoffKey: string := "backoff_base"
  const DefaultBaseText: string := "2"
  const DefaultBase: nat := 2

  /** An exception while running the command counts as exit code 1. */
  function ExitCode(run: RunResult): (c: int)
    ensures c == 0 <==> run == Exited(0)
    ensures run.Raised? ==> c == 1
    ensures run.Exited? ==> c == run.code
  {
    match run
    case Exited(code) => code
    case Raised => 1
  }

  // ---------------------------------------------------------------------------
  // Backoff

  /** `base ** attempts` for a whole-number base. */
  function Pow(base: nat, e: nat): (p: nat)
    ensures base >= 1 ==> p >= 1
    ensures base == 1 ==> p == 1
    ensures e == 1 ==> p == base
    decreases e
  {
    if e == 0 then 1 else base * Pow(base, e - 1)
  }

  /** With any base of at least 2 each further attempt waits strictly longer. */
  lemma PowGrows(base: nat, e: nat)
    requires base >= 2
    ensures 1 <= Pow(base, e) < Pow(base, e + 1)
  {
    var p := Pow(base, e);
    assert Pow(base, e + 1) == base * p;
    assert base * p == 2 * p + (base - 2) * p;
  }

  /** With the default base the delays after attempts 1, 2 and 3 are 2, 4 and 8. */
  lemma DefaultDelays()
    ensures Pow(DefaultBase, 1) == 2 && Pow(DefaultBase, 2) == 4 && Pow(DefaultBase, 3) == 8
  {
  }

  predicate IsDigit(c: char) {
    '0' <= c <= '9'
  }

  predicate AllDigits(s: string) {
    forall i :: 0 <= i < |s| ==> IsDigit(s[i])
  }

  /** The value of a string of decimal digits, most significant first. */
  function DigitsValue(s: string): nat
    requires AllDigits(s)
    decreases |s|
  {
    if s == [] then 0
    else DigitsValue(s[..|s| - 1]) * 10 + ((s[|s| - 1] as int) - ('0' as int))
  }

  /** `float(base_str)`, for the strings that denote whole numbers in plain decimal. */
  function ParseNat(s: string): (r: Option<nat>)
    ensures r.Some? <==> |s| > 0 && AllDigits(s)
  {
    if |s| > 0 && AllDigits(s) then Some(DigitsValue(s)) else None
  }

  /** The decimal text of n, as `str(n)` writes it. */
  function NatToString(n: nat): (s: string)
    ensures |s| > 0 && AllDigits(s)
    decreases n
  {
    var last := ((n % 10) + ('0' as int)) as char;
    if n < 10 then [last] else NatToString(n / 10) + [last]
  }

  /** Any whole number written in decimal parses back to itself. */
  lemma ParseNatToString(n: nat)
    ensures ParseNat(NatToString(n)) == Some(n)
  {
    DigitsOfNatToString(n);
  }

  lemma {:induction false} DigitsOfNatToString(n: nat)
    ensures DigitsValue(NatToString(n)) == n
    decreases n
  {
    var s := NatToString(n);
    var last := ((n % 10) + ('0' as int)) as char;
    assert s[|s| - 1] == last;
    if n < 10 {
      assert s[..|s| - 1] == [];
    } else {
      DigitsOfNatToString(n / 10);
      assert s[..|s| - 1] == NatToString(n / 10);
    }
  }

  /** The base a configured value yields: a parsed number, else 2. */
  function BaseFrom(value: Option<string>): nat {
    match value
    case Some(text) => ParseNat(text).GetOr(DefaultBase)
    case None => DefaultBase
  }

  /** `get_config('backoff_base', '2')` followed by the parse with fallback to 2. */
  function BackoffBase(config: map<string, string>): (base: nat)
    ensures BackoffKey !in config ==> base == 2
    ensures BackoffKey in config && ParseNat(config[BackoffKey]).None? ==> base == 2
    ensures BackoffKey in config && ParseNat(config[BackoffKey]).Some? ==> base == ParseNat(config[BackoffKey]).value
  {
    BaseFrom(ConfigLookup(config, BackoffKey, Some(DefaultBaseText)))
  }

  /** Configuring a base with `config set backoff_base <n>` makes n the base. */
  lemma ConfiguredBase(config: map<string, string>, n: nat)
    ensures BackoffBase(ConfigAfter(config, [(BackoffKey, NatToString(n))])) == n
  {
    ParseNatToString(n);
  }

  // ---------------------------------------------------------------------------
  // The step as functions on the tables

  /** Marking the claimed job as processing, stamped `t1`. */
  function Claim(t: Tables, id: string, t1: Timestamp): (r: Tables)
    requires id in t.jobs
    ensures id in r.jobs && r.jobs[id] == t.jobs[id].(state := "processing", updatedAt := t1)
    ensures r.jobs.Keys == t.jobs.Keys && r.dlq == t.dlq
    ensures forall k :: k in t.jobs && k != id ==> r.jobs[k] == t.jobs[k]
  {
    StateUpdated(t, id, "processing", None, t1)
  }

  /**
   * What the worker does once the claimed job's command has ended. The job
   * object has attempts one higher than the row; the DLQ row is copied from
   * the table, so it keeps the row's attempts and updated_at.
   */
  function Finish(t: Tables, config: map<string, string>, id: string, run: RunResult, t2: Timestamp)
    : (r: (Tables, StepOutcome))
    requires id in t.jobs
    ensures r.1.Claimed() && r.1.id == id
    ensures forall k :: k in t.jobs && k != id ==> k in r.0.jobs && r.0.jobs[k] == t.jobs[k]
    ensures forall k :: k in r.0.jobs ==> k in t.jobs
    ensures ExitCode(run) == 0 ==>
      && r.1 == Completed(id)
      && id in r.0.jobs && r.0.jobs[id] == t.jobs[id].(state := "completed", updatedAt := t2)
      && r.0.dlq == t.dlq
    ensures ExitCode(run) != 0 && t.jobs[id].attempts + 1 < t.jobs[id].maxRetries ==>
      && r.1 == Retried(id, Pow(BackoffBase(config), t.jobs[id].attempts + 1))
      && id in r.0.jobs && r.0.jobs[id] == t.jobs[id].(state := "failed", attempts := t.jobs[id].attempts + 1, updatedAt := t2)
      && r.0.dlq == t.dlq
    ensures ExitCode(run) != 0 && t.jobs[id].attempts + 1 >= t.jobs[id].maxRetries ==>
      && r.1 == DeadLettered(id)
      && id !in r.0.jobs
      && r.0.dlq == t.dlq[id := Archived(t.jobs[id], DlqReason)]
  {
    if ExitCode(run) == 0 then
      (StateUpdated(t, id, "completed", None, t2), Completed(id))
    else
      var attempts := t.jobs[id].attempts + 1;
      if attempts < t.jobs[id].maxRetries then
        (StateUpdated(t, id, "failed", Some(attempts), t2), Retried(id, Pow(BackoffBase(config), attempts)))
      else
        (MovedToDlq(t, id, DlqReason), DeadLettered(id))
  }

  /** A full iteration after `id` was chosen: claim at `t1`, finish at `t2`. */
  function RunClaimed(t: Tables, config: map<string, string>, id: string, run: RunResult,
                      t1: Timestamp, t2: Timestamp): (Tables, StepOutcome)
    requires id in t.jobs
  {
    Finish(Claim(t, id, t1), config, id, run, t2)
  }

  /**
   * A dead-lettered job's record keeps the attempts the table held, which is
   * one less than the count the worker just compared with max_retries, and
   * the updated_at of the processing mark.
   */
  lemma DeadLetterRecord(t: Tables, config: map<string, string>, id: string, run: RunResult,
                         t1: Timestamp, t2: Timestamp)
    requires KeyedById(t) && id in t.jobs
    requires ExitCode(run) != 0 && t.jobs[id].attempts + 1 >= t.jobs[id].maxRetries
    ensures var r := RunClaimed(t, config, id, run, t1, t2);
      && id !in r.0.jobs && id in r.0.dlq
      && r.0.dlq[id] == DlqRow(id, t.jobs[id].command, t.jobs[id].attempts, t.jobs[id].maxRetries,
                               DlqReason, t.jobs[id].createdAt, t1)
  {
  }

  // ---------------------------------------------------------------------------
  // The step on the store

  /**
   * One pass of the `while not stop_event.is_set()` loop. `stopRequested` is
   * the flag as the loop test reads it; `run` is what the command returned;
   * `claimedAt` and `finishedAt` are the clock at the two `set_job_state` calls.
   */
  method WorkerStep(store: Store, stopRequested: bool, run: RunResult,
                    claimedAt: Timestamp, finishedAt: Timestamp) returns (o: StepOutcome)
    requires store.Valid()
    modifies store
    ensures store.Valid() && store.config == old(store.config)
    ensures stopRequested ==> o == Stopped
    ensures !stopRequested ==> (o == Idle <==> NoPending(old(store.jobs)))
    ensures o == Stopped || o == Idle || o.Claimed()
    ensures !o.Claimed() ==> store.Snapshot() == old(store.Snapshot())
    ensures o.Claimed() ==>
      && IsOldestPending(old(store.jobs), o.id)
      && (store.Snapshot(), o) == RunClaimed(old(store.Snapshot()), old(store.config), o.id, run, claimedAt, finishedAt)
    ensures WorkerMove(old(store.Snapshot()),
                       if o.Claimed() then Ran(o.id, old(store.config), run, claimedAt, finishedAt) else Unclaimed,
                       store.Snapshot())
  {
    if stopRequested {
      return Stopped;
    }
    var job := Queue.GetNextPendingJob(store, claimedAt);
    if job == null {
      return Idle;
    }
    ghost var before := store.Snapshot();
    Queue.SetJobState(store, job.id, "processing", None, claimedAt);
    assert store.Snapshot() == Claim(before, job.id, claimedAt);
    o := FinishJob(store, job, run, finishedAt);
  }

  /** Lines after the command has run: branch on its exit code (the second half of `WorkerStep`). */
  method FinishJob(store: Store, job: Job, run: RunResult, finishedAt: Timestamp) returns (o: StepOutcome)
    requires store.Valid() && job.id in store.jobs
    requires job.attempts == store.jobs[job.id].attempts && job.maxRetries == store.jobs[job.id].maxRetries
    modifies store, job
    ensures store.Valid() && store.config == old(store.config)
    ensures (store.Snapshot(), o) == Finish(old(store.Snapshot()), old(store.config), job.id, run, finishedAt)
    ensures job.state == old(job.state) && job.createdAt == old(job.createdAt)
    ensures ExitCode(run) == 0 ==> job.attempts == old(job.attempts) && job.updatedAt == old(job.updatedAt)
    ensures ExitCode(run) != 0 ==> job.attempts == old(job.attempts) + 1 && job.updatedAt == finishedAt
    ensures ExitCode(run) != 0 ==> (o.Retried? <==> job.HasRetriesLeft()) && (o.DeadLettered? <==> !job.HasRetriesLeft())
  {
    if ExitCode(run) == 0 {
      Queue.SetJobState(store, job.id, "completed", None, finishedAt);
      o := Completed(job.id);
    } else {
      job.IncrementAttempts(finishedAt);
      if job.HasRetriesLeft() {
        var baseText := store.GetConfig(BackoffKey, Some(DefaultBaseText));
        var delay := Pow(BaseFrom(baseText), job.attempts);
        Queue.SetJobState(store, job.id, "failed", Some(job.attempts), finishedAt);
        o := Retried(job.id, delay);
      } else {
        var _ := store.MoveJobToDlq(job.id, DlqReason);
        o := DeadLettered(job.id);
      }
    }
  }

  // ---------------------------------------------------------------------------
  // Sequences of steps

  /** What one iteration did to the tables: nothing, or run the job `id` it claimed. */
  datatype Iteration =
    | Unclaimed
    | Ran(id: string, config: map<string, string>, run: RunResult, claimedAt: Timestamp, finishedAt: Timestamp)

  /** `t2` is what iteration `it` leaves behind when it starts from `t1`. */
  ghost predicate WorkerMove(t1: Tables, it: Iteration, t2: Tables) {
    match it
    case Unclaimed => t2 == t1
    case Ran(id, config, run, a, b) =>
      IsOldestPending(t1.jobs, id) && t2 == RunClaimed(t1, config, id, run, a, b).0
  }

  /** `trace[n + 1]` is what the iteration `its[n]` of some worker left of `trace[n]`. */
  ghost predicate IsWorkerTrace(trace: seq<Tables>, its: seq<Iteration>) {
    && |trace| == |its| + 1
    && forall n :: 0 <= n < |its| ==> WorkerMove(trace[n], its[n], trace[n + 1])
  }

  /** One iteration never adds a job to `jobs` and never lowers a job's attempts. */
  lemma MoveKeepsAttempts(t1: Tables, it: Iteration, t2: Tables, k: string)
    requires WorkerMove(t1, it, t2) && k in t2.jobs
    ensures k in t1.jobs && t1.jobs[k].attempts <= t2.jobs[k].attempts
  {
  }

  /** One iteration leaves a failed job exactly as it was: only a pending job is claimed. */
  lemma MoveKeepsFailed(t1: Tables, it: Iteration, t2: Tables, k: string)
    requires WorkerMove(t1, it, t2) && k in t1.jobs && t1.jobs[k].state == "failed"
    ensures k in t2.jobs && t2.jobs[k] == t1.jobs[k]
  {
  }

  /** A claimed iteration keeps rows under their ids and never lets an id sit in both tables. */
  lemma RunKeepsInvariants(t: Tables, config: map<string, string>, id: string, run: RunResult, a: Timestamp, b: Timestamp)
    requires id in t.jobs && WellFormed(t)
    ensures WellFormed(RunClaimed(t, config, id, run, a, b).0)
  {
  }

  lemma MoveKeepsInvariants(t1: Tables, it: Iteration, t2: Tables)
    requires WorkerMove(t1, it, t2) && WellFormed(t1)
    ensures WellFormed(t2)
  {
  }

  /** Across any number of iterations a job's attempts never decrease while it is in `jobs`. */
  lemma {:induction false} AttemptsNeverDecrease(trace: seq<Tables>, its: seq<Iteration>, i: nat, j: nat, k: string)
    requires IsWorkerTrace(trace, its) && i <= j < |trace| && k in trace[j].jobs
    ensures k in trace[i].jobs && trace[i].jobs[k].attempts <= trace[j].jobs[k].attempts
    decreases j - i
  {
    if i < j {
      MoveKeepsAttempts(trace[j - 1], its[j - 1], trace[j], k);
      AttemptsNeverDecrease(trace, its, i, j - 1, k);
    }
  }

  /** A job stored as failed is never claimed again: it stays, unchanged, in `jobs`. */
  lemma {:induction false} FailedStaysDormant(trace: seq<Tables>, its: seq<Iteration>, i: nat, j: nat, k: string)
    requires IsWorkerTrace(trace, its) && i <= j < |trace|
    requires k in trace[i].jobs && trace[i].jobs[k].state == "failed"
    ensures k in trace[j].jobs && trace[j].jobs[k] == trace[i].jobs[k]
    decreases j - i
  {
    if i < j {
      FailedStaysDormant(trace, its, i, j - 1, k);
      MoveKeepsFailed(trace[j - 1], its[j - 1], trace[j], k);
    }
  }

  /** Iterations keep every row under its id and no id in both tables. */
  lemma {:induction false} TraceKeepsInvariants(trace: seq<Tables>, its: seq<Iteration>, i: nat, j: nat)
    requires IsWorkerTrace(trace, its) && i <= j < |trace| && WellFormed(trace[i])
    ensures WellFormed(trace[j])
    decreases j - i
  {
    if i < j {
      TraceKeepsInvariants(trace, its, i, j - 1);
      MoveKeepsInvariants(trace[j - 1], its[j - 1], trace[j]);
    }
  }

  /**
   * A freshly submitted job with max_retries of 2 or more (3 by default) whose
   * command fails on its first run is left failed with one attempt, and no
   * later iteration brings it to the dead-letter queue.
   */
  lemma FailingJobNeverDeadLetters(trace: seq<Tables>, its: seq<Iteration>, data: JobData, now: Timestamp, j: nat)
    requires Queue.Submitted(data, now).Success?
    requires data.maxRetries.GetOr(DefaultMaxRetries) >= 2
    requires IsWorkerTrace(trace, its) && 1 <= j < |trace| && WellFormed(trace[0])
    requires data.id.value in trace[0].jobs && trace[0].jobs[data.id.value] == Queue.Submitted(data, now).value
    requires its[0].Ran? && its[0].id == data.id.value && ExitCode(its[0].run) != 0
    ensures data.id.value in trace[j].jobs && data.id.value !in trace[j].dlq
    ensures trace[j].jobs[data.id.value].state == "failed" && trace[j].jobs[data.id.value].attempts == 1
  {
    var id := data.id.value;
    assert WorkerMove(trace[0], its[0], trace[1]);
    assert trace[1].jobs[id].state == "failed" && trace[1].jobs[id].attempts == 1;
    FailedStaysDormant(trace, its, 1, j, id);
    TraceKeepsInvariants(trace, its, 0, j);
  }

}
