/**
 * The job entity (queuectl1/job.py): a closed set of states, the attempt
 * counter and the conversion to and from the seven-key job dictionary.
 */
module Jobs {
  import opened Wrappers

  /** Timestamps are abstract points of a clock; larger is later. */
  type Timestamp = int

  /** `Job.VALID_STATES`. */
  const ValidStates: set<string> := {"pending", "processing", "completed", "failed", "dead"}

  /** `max_retries` when the submission does not give one. */
  const DefaultMaxRetries: int := 3

  /** The dictionary `to_dict` returns, with every key present; also a row of the `jobs` table. */
  datatype JobRow = JobRow(
    id: string,
    command: string,
    state: string,
    attempts: nat,
    maxRetries: int,
    createdAt: Timestamp,
    updatedAt: Timestamp)

  /** A job dictionary as `from_dict` receives it: any key may be missing (`None`). */
  datatype JobData = JobData(
    id: Option<string>,
    command: Option<string>,
    state: Option<string>,
    attempts: Option<nat>,
    maxRetries: Option<int>,
    createdAt: Option<Timestamp>,
    updatedAt: Option<Timestamp>)

  /** What Python raises: `KeyError` from `data[key]`, `ValueError` from `update_state`. */
  datatype JobError = KeyError(key: string) | InvalidState(state: string)

  /** A fully populated dictionary, as `to_dict` hands it to `from_dict`. */
  function AsData(r: JobRow): JobData {
    JobData(Some(r.id), Some(r.command), Some(r.state), Some(r.attempts),
            Some(r.maxRetries), Some(r.createdAt), Some(r.updatedAt))
  }

  /**
   * The fields `Job.__init__` stores: an unknown state is coerced to
   * "pending", a missing `created_at` becomes the clock `now`, a missing
   * `updated_at` becomes `created_at`.
   */
  function Initial(id: string, command: string, state: string, attempts: nat, maxRetries: int,
                   createdAt: Option<Timestamp>, updatedAt: Option<Timestamp>, now: Timestamp): (r: JobRow)
    ensures r.state in ValidStates
    ensures state in ValidStates ==> r.state == state
    ensures state !in ValidStates ==> r.state == "pending"
    ensures createdAt.None? ==> r.createdAt == now
    ensures updatedAt.None? ==> r.updatedAt == r.createdAt
  {
    var created := createdAt.GetOr(now);
    JobRow(id, command, if state in ValidStates then state else "pending",
           attempts, maxRetries, created, updatedAt.GetOr(created))
  }

  /** The record `Job.from_dict(data)` builds, or the `KeyError` it raises. */
  function FromDictRow(data: JobData, now: Timestamp): (r: Result<JobRow, JobError>)
    ensures r.Success? <==> data.id.Some? && data.command.Some?
    ensures data.id.None? ==> r == Failure(KeyError("id"))
    ensures data.id.Some? && data.command.None? ==> r == Failure(KeyError("command"))
    ensures r.Success? ==> r.value.id == data.id.value && r.value.command == data.command.value
                           && r.value.state in ValidStates
  {
    if data.id.None? then Failure(KeyError("id"))
    else if data.command.None? then Failure(KeyError("command"))
    else Success(Initial(data.id.value, data.command.value, data.state.GetOr("pending"),
                         data.attempts.GetOr(0), data.maxRetries.GetOr(DefaultMaxRetries),
                         data.createdAt, data.updatedAt, now))
  }

  /**
   * Each missing key of `from_dict` takes its own default, whatever the other
   * keys hold: state "pending", attempts 0, max_retries 3, created_at the
   * clock and updated_at the created_at; a present key is taken as given
   * (a state outside `VALID_STATES` becoming "pending").
   */
  lemma FromDictDefaults(data: JobData, now: Timestamp)
    requires data.id.Some? && data.command.Some?
    ensures FromDictRow(data, now).Success?
    ensures data.state.None? ==> FromDictRow(data, now).value.state == "pending"
    ensures data.state.Some? ==> FromDictRow(data, now).value.state
                                 == (if data.state.value in ValidStates then data.state.value else "pending")
    ensures FromDictRow(data, now).value.attempts == (if data.attempts.None? then 0 else data.attempts.value)
    ensures FromDictRow(data, now).value.maxRetries == (if data.maxRetries.None? then 3 else data.maxRetries.value)
    ensures FromDictRow(data, now).value.createdAt == (if data.createdAt.None? then now else data.createdAt.value)
    ensures FromDictRow(data, now).value.updatedAt
            == (if data.updatedAt.None? then FromDictRow(data, now).value.createdAt else data.updatedAt.value)
  {
  }

  /** `from_dict(to_dict(j))` gives back all seven fields when j's state is valid. */
  lemma RoundTrip(r: JobRow, now: Timestamp)
    requires r.state in ValidStates
    ensures FromDictRow(AsData(r), now) == Success(r)
  {
  }

  /** `Job`: id, command and max_retries are never reassigned; the rest is updated in place. */
  class Job {
    const id: string
    const command: string
    var state: string
    var attempts: nat
    const maxRetries: int
    var createdAt: Timestamp
    var updatedAt: Timestamp

    /** The class invariant: the state is one of `VALID_STATES`. */
    ghost predicate Valid()
      reads this
    {
      state in ValidStates
    }

    /** `to_dict`: the seven fields, which `from_dict` reads back when the state is valid. */
    function ToDict(): (r: JobRow)
      reads this
      ensures r.id == id && r.command == command && r.maxRetries == maxRetries
      ensures r.state in ValidStates <==> Valid()
      ensures Valid() ==> forall now :: FromDictRow(AsData(r), now) == Success(r)
    {
      JobRow(id, command, state, attempts, maxRetries, createdAt, updatedAt)
    }

    /** `Job.__init__`; `now` stands for `datetime.utcnow()`. */
    constructor (id: string, command: string, state: string, attempts: nat, maxRetries: int,
                 createdAt: Option<Timestamp>, updatedAt: Option<Timestamp>, now: Timestamp)
      ensures Valid()
      ensures ToDict() == Initial(id, command, state, attempts, maxRetries, createdAt, updatedAt, now)
    {
      this.id := id;
      this.command := command;
      this.state := if state in ValidStates then state else "pending";
      this.attempts := attempts;
      this.maxRetries := maxRetries;
      this.createdAt := createdAt.GetOr(now);
      this.updatedAt := updatedAt.GetOr(createdAt.GetOr(now));
    }

    /** `Job.from_dict`: a fresh job, or the `KeyError` of the first missing required key. */
    static method FromDict(data: JobData, now: Timestamp) returns (r: Result<Job, JobError>)
      ensures r.Success? <==> FromDictRow(data, now).Success?
      ensures r.Success? ==> fresh(r.value) && r.value.Valid()
                             && FromDictRow(data, now) == Success(r.value.ToDict())
      ensures r.Failure? ==> FromDictRow(data, now) == Failure(r.error)
    {
      if data.id.None? {
        return Failure(KeyError("id"));
      }
      if data.command.None? {
        return Failure(KeyError("command"));
      }
      var job := new Job(data.id.value, data.command.value, data.state.GetOr("pending"),
                         data.attempts.GetOr(0), data.maxRetries.GetOr(DefaultMaxRetries),
                         data.createdAt, data.updatedAt, now);
      r := Success(job);
    }

    /** `increment_attempts`: one more attempt, stamped with the clock `now`. */
    method IncrementAttempts(now: Timestamp)
      modifies this
      ensures attempts == old(attempts) + 1
      ensures updatedAt == now
      ensures state == old(state) && createdAt == old(createdAt)
    {
      attempts := attempts + 1;
      updatedAt := now;
    }

    /** `update_state`: a valid state is set and stamped; any other raises and changes nothing. */
    method UpdateState(newState: string, now: Timestamp) returns (r: Outcome<JobError>)
      modifies this
      ensures r.Pass? <==> newState in ValidStates
      ensures r.Pass? ==> state == newState && updatedAt == now
      ensures r.Fail? ==> r.error == InvalidState(newState)
                          && state == old(state) && updatedAt == old(updatedAt)
      ensures attempts == old(attempts) && createdAt == old(createdAt)
      ensures old(Valid()) ==> Valid()
    {
      if newState in ValidStates {
        state := newState;
        updatedAt := now;
        r := Pass;
      } else {
        r := Fail(InvalidState(newState));
      }
    }

    /**
     * `has_retries_left`: attempts are still below max_retries; a job whose
     * max_retries is zero or negative never has one.
     */
    function HasRetriesLeft(): (b: bool)
      reads this
      ensures b <==> attempts < maxRetries
      ensures maxRetries <= 0 ==> !b
      ensures b ==> maxRetries - attempts >= 1
    {
      attempts < maxRetries
    }
  }
}
