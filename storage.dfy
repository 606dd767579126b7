/**
 * The SQLite store (queuectl1/storage.py) as three keyed tables: `jobs`,
 * `dlq` (the dead-letter queue) and `config`. Each writer is tied to a pure
 * function on the tables; each reader states what its query returns.
 */
module Storage {
  import opened Wrappers
  import opened Jobs

  /** A row of the `dlq` table. */
  datatype DlqRow = DlqRow(
    id: string,
    command: string,
    attempts: nat,
    maxRetries: int,
    failedReason: string,
    createdAt: Timestamp,
    updatedAt: Timestamp)

  /** The two job tables together: a job id can be looked up in either. */
  datatype Tables = Tables(jobs: map<string, JobRow>, dlq: map<string, DlqRow>)

  /** Every row is stored under its own id (the PRIMARY KEY). */
  ghost predicate KeyedById(t: Tables) {
    && (forall k :: k in t.jobs ==> t.jobs[k].id == k)
    && (forall k :: k in t.dlq ==> t.dlq[k].id == k)
  }

  /** No id is in both tables at once. */
  ghost predicate Disjoint(t: Tables) {
    t.jobs.Keys !! t.dlq.Keys
  }

  /** The table invariant the store's writers other than `save_job` preserve. */
  ghost predicate WellFormed(t: Tables) {
    KeyedById(t) && Disjoint(t)
  }

  // ---------------------------------------------------------------------------
  // Writers as functions on the tables

  /** `save_job`: INSERT OR REPLACE into `jobs`. */
  function Saved(t: Tables, row: JobRow): (r: Tables)
    ensures row.id in r.jobs && r.jobs[row.id] == row
    ensures r.jobs.Keys == t.jobs.Keys + {row.id}
    ensures forall k :: k in t.jobs && k != row.id ==> r.jobs[k] == t.jobs[k]
    ensures r.dlq == t.dlq
  {
    Tables(t.jobs[row.id := row], t.dlq)
  }

  /** `update_job_state`: UPDATE state, attempts (when given) and updated_at of one row. */
  function StateUpdated(t: Tables, id: string, state: string, attempts: Option<nat>, stamp: Timestamp): (r: Tables)
    ensures r.jobs.Keys == t.jobs.Keys && r.dlq == t.dlq
    ensures forall k :: k in t.jobs && k != id ==> r.jobs[k] == t.jobs[k]
    ensures id !in t.jobs ==> r == t
    ensures id in t.jobs ==>
      var old_, new_ := t.jobs[id], r.jobs[id];
      && new_.state == state
      && new_.updatedAt == stamp
      && new_.attempts == attempts.GetOr(old_.attempts)
      && new_.id == old_.id && new_.command == old_.command
      && new_.maxRetries == old_.maxRetries && new_.createdAt == old_.createdAt
  {
    if id in t.jobs then
      var row := t.jobs[id];
      Tables(t.jobs[id := row.(state := state, attempts := attempts.GetOr(row.attempts), updatedAt := stamp)], t.dlq)
    else t
  }

  /** The `dlq` row `move_job_to_dlq` builds from a `jobs` row. */
  function Archived(row: JobRow, reason: string): (d: DlqRow)
    ensures d.id == row.id && d.command == row.command && d.failedReason == reason
    ensures d.attempts == row.attempts && d.maxRetries == row.maxRetries
    ensures d.createdAt == row.createdAt && d.updatedAt == row.updatedAt
  {
    DlqRow(row.id, row.command, row.attempts, row.maxRetries, reason, row.createdAt, row.updatedAt)
  }

  /** `move_job_to_dlq`: copy the row into `dlq` with the reason, delete it from `jobs`. */
  function MovedToDlq(t: Tables, id: string, reason: string): (r: Tables)
    ensures id !in t.jobs ==> r == t
    ensures id in t.jobs ==>
      && id !in r.jobs && r.jobs == t.jobs - {id}
      && id in r.dlq
      && r.dlq[id].command == t.jobs[id].command
      && r.dlq[id].attempts == t.jobs[id].attempts
      && r.dlq[id].maxRetries == t.jobs[id].maxRetries
      && r.dlq[id].createdAt == t.jobs[id].createdAt
      && r.dlq[id].updatedAt == t.jobs[id].updatedAt
      && r.dlq[id].failedReason == reason
      && (forall k :: k in t.dlq && k != id ==> k in r.dlq && r.dlq[k] == t.dlq[k])
      && r.dlq.Keys == t.dlq.Keys + {id}
  {
    if id in t.jobs then Tables(t.jobs - {id}, t.dlq[id := Archived(t.jobs[id], reason)])
    else t
  }

  /** The pending `jobs` row `retry_dlq_job` builds from a `dlq` row, stamped `now`. */
  function Revived(d: DlqRow, now: Timestamp): (r: JobRow)
    ensures r.state == "pending" && r.attempts == 0 && r.updatedAt == now
    ensures r.id == d.id && r.command == d.command
    ensures r.maxRetries == d.maxRetries && r.createdAt == d.createdAt
  {
    JobRow(d.id, d.command, "pending", 0, d.maxRetries, d.createdAt, now)
  }

  /** `retry_dlq_job`: re-insert into `jobs` as pending with attempts 0, delete from `dlq`. */
  function Requeued(t: Tables, id: string, now: Timestamp): (r: Tables)
    ensures id !in t.dlq ==> r == t
    ensures id in t.dlq ==>
      && id !in r.dlq && r.dlq == t.dlq - {id}
      && id in r.jobs
      && r.jobs[id].state == "pending" && r.jobs[id].attempts == 0
      && r.jobs[id].command == t.dlq[id].command
      && r.jobs[id].maxRetries == t.dlq[id].maxRetries
      && r.jobs[id].createdAt == t.dlq[id].createdAt
      && r.jobs[id].updatedAt == now
      && (forall k :: k in t.jobs && k != id ==> k in r.jobs && r.jobs[k] == t.jobs[k])
      && r.jobs.Keys == t.jobs.Keys + {id}
  {
    if id in t.dlq then Tables(t.jobs[id := Revived(t.dlq[id], now)], t.dlq - {id})
    else t
  }

  // ---------------------------------------------------------------------------
  // Queries

  /** `row` is a pending row whose created_at is not after that of any pending row. */
  ghost predicate IsOldestPending(jobs: map<string, JobRow>, id: string) {
    && id in jobs
    && jobs[id].state == "pending"
    && forall k :: k in jobs && jobs[k].state == "pending" ==> jobs[id].createdAt <= jobs[k].createdAt
  }

  ghost predicate NoPending(jobs: map<string, JobRow>) {
    forall k :: k in jobs ==> jobs[k].state != "pending"
  }

  /** `ks` lists each key of `sel` exactly once. */
  predicate Enumerates(ks: seq<string>, sel: set<string>) {
    && (forall i :: 0 <= i < |ks| ==> ks[i] in sel)
    && (forall k :: k in sel ==> k in ks)
    && (forall i, j :: 0 <= i < j < |ks| ==> ks[i] != ks[j])
  }

  /** `ks` is in non-decreasing order of `created`. */
  predicate Ascending(ks: seq<string>, created: map<string, Timestamp>) {
    forall i, j :: 0 <= i < j < |ks| && ks[i] in created && ks[j] in created ==> created[ks[i]] <= created[ks[j]]
  }

  /** A non-empty finite set of keys has one with the least `created` time. */
  lemma {:induction false} MinExists(sel: set<string>, created: map<string, Timestamp>)
    requires sel != {} && sel <= created.Keys
    ensures exists m :: m in sel && forall k :: k in sel ==> created[m] <= created[k]
    decreases sel
  {
    var x :| x in sel;
    if sel == {x} {
    } else {
      MinExists(sel - {x}, created);
      var m :| m in sel - {x} && forall k :: k in sel - {x} ==> created[m] <= created[k];
      if created[x] < created[m] {
        assert forall k :: k in sel ==> created[x] <= created[k];
      } else {
        assert forall k :: k in sel ==> created[m] <= created[k];
      }
    }
  }

  /** Any finite set of keys can be listed once each in ascending `created` order (ORDER BY). */
  lemma {:induction false} SortedEnumerationExists(sel: set<string>, created: map<string, Timestamp>)
    requires sel <= created.Keys
    ensures exists ks :: Enumerates(ks, sel) && Ascending(ks, created)
    decreases sel
  {
    if sel == {} {
      assert Enumerates([], sel) && Ascending([], created);
    } else {
      MinExists(sel, created);
      var m :| m in sel && forall k :: k in sel ==> created[m] <= created[k];
      SortedEnumerationExists(sel - {m}, created);
      var rest :| Enumerates(rest, sel - {m}) && Ascending(rest, created);
      PrependLeast(m, rest, sel, created);
    }
  }

  /** Putting the least key in front of a sorted listing of the others lists the whole set. */
  lemma PrependLeast(m: string, rest: seq<string>, sel: set<string>, created: map<string, Timestamp>)
    requires m in sel && sel <= created.Keys
    requires forall k :: k in sel ==> created[m] <= created[k]
    requires Enumerates(rest, sel - {m}) && Ascending(rest, created)
    ensures Enumerates([m] + rest, sel) && Ascending([m] + rest, created)
  {
  }

  /** The `created_at` column of a table. */
  function JobTimes(jobs: map<string, JobRow>): (c: map<string, Timestamp>)
    ensures c.Keys == jobs.Keys
    ensures forall k :: k in jobs ==> c[k] == jobs[k].createdAt
  {
    map k | k in jobs :: jobs[k].createdAt
  }

  /** `rows` are exactly the `jobs` rows in state `s`, each once, oldest first. */
  ghost predicate ListsState(rows: seq<JobRow>, jobs: map<string, JobRow>, s: string) {
    && (forall i :: 0 <= i < |rows| ==> rows[i].id in jobs && jobs[rows[i].id] == rows[i] && rows[i].state == s)
    && (forall k :: k in jobs && jobs[k].state == s ==> exists i :: 0 <= i < |rows| && rows[i].id == k)
    && (forall i, j :: 0 <= i < j < |rows| ==> rows[i].id != rows[j].id)
    && (forall i, j :: 0 <= i < j < |rows| ==> rows[i].createdAt <= rows[j].createdAt)
  }

  /** `rows` are exactly the `dlq` rows, each once, oldest first. */
  ghost predicate ListsDlq(rows: seq<DlqRow>, dlq: map<string, DlqRow>) {
    && (forall i :: 0 <= i < |rows| ==> rows[i].id in dlq && dlq[rows[i].id] == rows[i])
    && (forall k :: k in dlq ==> exists i :: 0 <= i < |rows| && rows[i].id == k)
    && (forall i, j :: 0 <= i < j < |rows| ==> rows[i].id != rows[j].id)
    && (forall i, j :: 0 <= i < j < |rows| ==> rows[i].createdAt <= rows[j].createdAt)
  }

  /** `get_config(key, default)`: the stored value, otherwise the default. */
  function ConfigLookup(config: map<string, string>, key: string, default: Option<string>): Option<string> {
    if key in config then Some(config[key]) else default
  }

  /** The config table after a sequence of `set_config(key, value)` calls, in order. */
  function ConfigAfter(config: map<string, string>, writes: seq<(string, string)>): map<string, string>
    decreases |writes|
  {
    if writes == [] then config
    else ConfigAfter(config[writes[0].0 := writes[0].1], writes[1..])
  }

  /** The value of the last write to `key` in `writes`, if there is one. */
  function LastWrite(writes: seq<(string, string)>, key: string): Option<string>
    decreases |writes|
  {
    if writes == [] then None
    else if writes[|writes| - 1].0 == key then Some(writes[|writes| - 1].1)
    else LastWrite(writes[..|writes| - 1], key)
  }

  /** A fresh config table, written by `writes`, yields the last value set for `key`, or the default. */
  lemma {:induction false} ConfigReadsLastWrite(config: map<string, string>, writes: seq<(string, string)>,
                                                key: string, default: Option<string>)
    ensures ConfigLookup(ConfigAfter(config, writes), key, default)
         == if LastWrite(writes, key).Some? then LastWrite(writes, key) else ConfigLookup(config, key, default)
    decreases |writes|
  {
    if writes != [] {
      var n := |writes| - 1;
      var w := writes[n];
      ConfigAfterSnoc(config, writes[..n], w);
      assert writes[..n] + [w] == writes;
      ConfigReadsLastWrite(config, writes[..n], key, default);
    }
  }

  lemma {:induction false} ConfigAfterSnoc(config: map<string, string>, writes: seq<(string, string)>, w: (string, string))
    ensures ConfigAfter(config, writes + [w]) == ConfigAfter(config, writes)[w.0 := w.1]
    decreases |writes|
  {
    if writes == [] {
      assert [w][1..] == [];
    } else {
      assert (writes + [w])[1..] == writes[1..] + [w];
      ConfigAfterSnoc(config[writes[0].0 := writes[0].1], writes[1..], w);
    }
  }

  // ---------------------------------------------------------------------------
  // Lemmas relating the writers

  /** Saving the same job twice is saving it once. */
  lemma SaveIdempotent(t: Tables, row: JobRow)
    ensures Saved(Saved(t, row), row) == Saved(t, row)
  {
  }

  /**
   * A `dlq` row keeps everything a re-queue needs: reviving an archived row
   * gives the row back with only state, attempts and updated_at reset, and
   * archiving a revived row gives the DLQ row back with only attempts and
   * updated_at changed.
   */
  lemma ArchiveReviveRoundTrip(row: JobRow, d: DlqRow, reason: string, now: Timestamp)
    ensures Revived(Archived(row, reason), now) == row.(state := "pending", attempts := 0, updatedAt := now)
    ensures Archived(Revived(d, now), d.failedReason) == d.(attempts := 0, updatedAt := now)
  {
  }

  /** Moving a job to the DLQ and re-queuing it gives back the job, pending, with attempts reset. */
  lemma MoveThenRequeue(t: Tables, id: string, reason: string, now: Timestamp)
    requires KeyedById(t) && id in t.jobs && id !in t.dlq
    ensures Requeued(MovedToDlq(t, id, reason), id, now)
         == Tables(t.jobs[id := t.jobs[id].(state := "pending", attempts := 0, updatedAt := now)], t.dlq)
  {
  }

  /** An update keeps every row under its own id and keeps the two tables apart. */
  lemma StateUpdatedKeepsInvariants(t: Tables, id: string, state: string, attempts: Option<nat>, stamp: Timestamp)
    requires KeyedById(t) && Disjoint(t)
    ensures KeyedById(StateUpdated(t, id, state, attempts, stamp)) && Disjoint(StateUpdated(t, id, state, attempts, stamp))
  {
  }

  /** So does a move to the DLQ. */
  lemma MovedToDlqKeepsInvariants(t: Tables, id: string, reason: string)
    requires KeyedById(t) && Disjoint(t)
    ensures KeyedById(MovedToDlq(t, id, reason)) && Disjoint(MovedToDlq(t, id, reason))
  {
  }

  /** So does a re-queue from the DLQ. */
  lemma RequeuedKeepsInvariants(t: Tables, id: string, now: Timestamp)
    requires KeyedById(t) && Disjoint(t)
    ensures KeyedById(Requeued(t, id, now)) && Disjoint(Requeued(t, id, now))
  {
  }

  /** Only `save_job` can put an id in both tables: saving a dead-lettered id leaves it in `dlq`. */
  lemma SaveCanOverlapDlq(t: Tables, row: JobRow)
    requires row.id in t.dlq
    ensures !Disjoint(Saved(t, row))
  {
  }

  // ---------------------------------------------------------------------------
  // The store

  class Store {
    var jobs: map<string, JobRow>
    var dlq: map<string, DlqRow>
    var config: map<string, string>

    ghost predicate Valid()
      reads this
    {
      KeyedById(Tables(jobs, dlq))
    }

    ghost function Snapshot(): Tables
      reads this
    {
      Tables(jobs, dlq)
    }

    /** `init_db` on a new database: three empty tables. */
    constructor ()
      ensures Valid() && jobs == map[] && dlq == map[] && config == map[]
    {
      jobs, dlq, config := map[], map[], map[];
    }

    /** `save_job`. */
    method SaveJob(job: JobRow)
      requires Valid()
      modifies this
      ensures Valid()
      ensures Snapshot() == Saved(old(Snapshot()), job)
      ensures config == old(config)
    {
      jobs := jobs[job.id := job];
    }

    /** `get_pending_job`: a pending row with the least created_at, or None. Changes nothing. */
    method GetPendingJob() returns (r: Option<JobRow>)
      requires Valid()
      ensures r.None? <==> NoPending(jobs)
      ensures r.Some? ==> IsOldestPending(jobs, r.value.id) && jobs[r.value.id] == r.value
    {
      var pending := set k | k in jobs && jobs[k].state == "pending";
      if pending == {} {
        assert forall k :: k in jobs ==> (jobs[k].state == "pending" ==> k in pending);
        r := None;
      } else {
        var created := JobTimes(jobs);
        MinExists(pending, created);
        var m :| m in pending && forall k :: k in pending ==> created[m] <= created[k];
        r := Some(jobs[m]);
      }
    }

    /** `update_job_state`; `updatedAt` is the optional argument, `now` the clock it defaults to. */
    method UpdateJobState(jobId: string, newState: string, attempts: Option<nat>,
                          updatedAt: Option<Timestamp>, now: Timestamp)
      requires Valid()
      modifies this
      ensures Valid()
      ensures Snapshot() == StateUpdated(old(Snapshot()), jobId, newState, attempts, updatedAt.GetOr(now))
      ensures config == old(config)
    {
      if jobId in jobs {
        var row := jobs[jobId];
        jobs := jobs[jobId := row.(state := newState, attempts := attempts.GetOr(row.attempts),
                                   updatedAt := updatedAt.GetOr(now))];
      }
    }

    /** `list_jobs_by_state`. */
    method ListJobsByState(s: string) returns (rows: seq<JobRow>)
      requires Valid()
      ensures ListsState(rows, jobs, s)
    {
      var sel := set k | k in jobs && jobs[k].state == s;
      var created := JobTimes(jobs);
      SortedEnumerationExists(sel, created);
      var ks :| Enumerates(ks, sel) && Ascending(ks, created);
      var table := jobs;
      rows := seq(|ks|, i requires 0 <= i < |ks| => table[ks[i]]);
      forall k | k in jobs && jobs[k].state == s
        ensures exists i :: 0 <= i < |rows| && rows[i].id == k
      {
        assert k in sel;
        var i :| 0 <= i < |ks| && ks[i] == k;
        assert rows[i].id == k;
      }
    }

    /** `move_job_to_dlq`: False and no change when the id is not in `jobs`. */
    method MoveJobToDlq(jobId: string, failedReason: string) returns (moved: bool)
      requires Valid()
      modifies this
      ensures Valid()
      ensures moved <==> jobId in old(jobs)
      ensures Snapshot() == MovedToDlq(old(Snapshot()), jobId, failedReason)
      ensures config == old(config)
    {
      if jobId !in jobs {
        return false;
      }
      dlq := dlq[jobId := Archived(jobs[jobId], failedReason)];
      jobs := jobs - {jobId};
      moved := true;
    }

    /** `list_dlq_jobs`. */
    method ListDlqJobs() returns (rows: seq<DlqRow>)
      requires Valid()
      ensures ListsDlq(rows, dlq)
    {
      var created := map k | k in dlq :: dlq[k].createdAt;
      SortedEnumerationExists(dlq.Keys, created);
      var ks :| Enumerates(ks, dlq.Keys) && Ascending(ks, created);
      var table := dlq;
      rows := seq(|ks|, i requires 0 <= i < |ks| => table[ks[i]]);
      forall k | k in dlq
        ensures exists i :: 0 <= i < |rows| && rows[i].id == k
      {
        var i :| 0 <= i < |ks| && ks[i] == k;
        assert rows[i].id == k;
      }
    }

    /** `retry_dlq_job`: False and no change when the id is not in `dlq`. */
    method RetryDlqJob(jobId: string, now: Timestamp) returns (requeued: bool)
      requires Valid()
      modifies this
      ensures Valid()
      ensures requeued <==> jobId in old(dlq)
      ensures Snapshot() == Requeued(old(Snapshot()), jobId, now)
      ensures config == old(config)
    {
      if jobId !in dlq {
        return false;
      }
      jobs := jobs[jobId := Revived(dlq[jobId], now)];
      dlq := dlq - {jobId};
      requeued := true;
    }

    /** `set_config`. */
    method SetConfig(key: string, value: string)
      modifies this
      ensures config == ConfigAfter(old(config), [(key, value)])
      ensures jobs == old(jobs) && dlq == old(dlq)
    {
      config := config[key := value];
    }

    /** `get_config`. */
    method GetConfig(key: string, default: Option<string>) returns (value: Option<string>)
      ensures value == ConfigLookup(config, key, default)
      ensures key in config ==> value == Some(config[key])
      ensures key !in config ==> value == default
    {
      if key in config {
        value := Some(config[key]);
      } else {
        value := default;
      }
    }
  }
}
