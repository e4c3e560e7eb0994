/**
 Which attempt of a workflow run executed a job: a failed-jobs rerun lists carried copies
 of jobs it did not run, and only the attempt that ran one holds its evidence.
 */
module RunAttempts {
  import opened Prelude

  datatype Job = Job(
    name: string, runId: int, runAttempt: int, headSha: string, status: string,
    conclusion: Option<string>, startedAt: Option<string>, completedAt: Option<string>)

  datatype Run = Run(
    id: int, attempt: nat, event: string, path: string, headSha: string, repositoryId: int,
    repositoryName: string, headRepositoryId: int, status: string, startedAt: Option<string>)

  /** The API's answers for one run; `None` is a call or a check of one that raised. */
  datatype History = History(
    run: Run, jobs: nat -> Option<seq<Job>>, runs: nat -> Option<Run>, parse: string -> Option<int>)

  /** CARRIED_JOB_FIELDS. */
  predicate SameCarried(a: Job, b: Job) {
    && a.name == b.name && a.headSha == b.headSha && a.status == b.status
    && a.conclusion == b.conclusion && a.startedAt == b.startedAt && a.completedAt == b.completedAt
  }

  /** `attempt_run`'s checks on an earlier attempt. */
  predicate SameRun(value: Run, run: Run, attempt: nat) {
    && value.id == run.id && value.attempt == attempt
    && value.event == run.event && value.path == run.path && value.headSha == run.headSha
    && value.repositoryId == run.repositoryId && value.repositoryName == run.repositoryName
    && value.headRepositoryId == run.headRepositoryId && value.status == "completed"
  }

  function WithName(jobs: seq<Job>, name: string): (s: seq<Job>)
    ensures forall j :: j in s <==> j in jobs && j.name == name
  {
    if jobs == [] then []
    else (if jobs[0].name == name then [jobs[0]] else []) + WithName(jobs[1..], name)
  }

  /** `attempt_run` as the history answers it. */
  function RunOf(h: History, attempt: nat): Option<Run> {
    if attempt == h.run.attempt then Some(h.run)
    else if h.runs(attempt).Some? && SameRun(h.runs(attempt).value, h.run, attempt) then h.runs(attempt)
    else None
  }

  /** `named`: no record, one record of this run and attempt, or a refusal. */
  function Named(h: History, attempt: nat, name: string): Result<Option<Job>, ()> {
    var listed := h.jobs(attempt);
    if listed.None? then Err(())
    else
      var selected := WithName(listed.value, name);
      if selected == [] then Ok(None)
      else if |selected| == 1 && selected[0].runId == h.run.id && selected[0].runAttempt == attempt then Ok(Some(selected[0]))
      else Err(())
  }

  predicate Blank(stamp: Option<string>) {
    stamp.None? || stamp.value == ""
  }

  /** Reads the API lazily and keeps what it read. */
  class Attempts {
    const h: History
    var jobsRead: map<nat, seq<Job>>
    var runsRead: map<nat, Run>

    ghost predicate Valid()
      reads this
    {
      && (forall a :: a in jobsRead ==> h.jobs(a) == Some(jobsRead[a]))
      && h.run.attempt in runsRead
      && (forall a :: a in runsRead ==> RunOf(h, a) == Some(runsRead[a]))
    }

    constructor (h: History)
      ensures Valid() && this.h == h
    {
      this.h := h;
      jobsRead := map[];
      runsRead := map[h.run.attempt := h.run];
    }

    method JobsOf(attempt: nat) returns (r: Option<seq<Job>>)
      requires Valid()
      modifies this
      ensures Valid() && r == h.jobs(attempt)
    {
      if attempt !in jobsRead {
        var answer := h.jobs(attempt);
        if answer.None? {
          return None;
        }
        jobsRead := jobsRead[attempt := answer.value];
      }
      r := Some(jobsRead[attempt]);
    }

    method AttemptRun(attempt: nat) returns (r: Option<Run>)
      requires Valid()
      modifies this
      ensures Valid() && r == RunOf(h, attempt)
    {
      if attempt !in runsRead {
        var value := h.runs(attempt);
        if value.None? || !SameRun(value.value, h.run, attempt) {
          return None;
        }
        runsRead := runsRead[attempt := value.value];
      }
      r := Some(runsRead[attempt]);
    }

    method NamedIn(attempt: nat, name: string) returns (r: Result<Option<Job>, ()>)
      requires Valid()
      modifies this
      ensures Valid() && r == Named(h, attempt, name)
    {
      var jobs := JobsOf(attempt);
      if jobs.None? {
        return Err(());
      }
      var selected := WithName(jobs.value, name);
      if selected == [] {
        return Ok(None);
      }
      if |selected| != 1 || selected[0].runId != h.run.id || selected[0].runAttempt != attempt {
        return Err(());
      }
      r := Ok(Some(selected[0]));
    }

    /** One turn of `execution`'s loop: is this record run here, refused, or carried from the attempt below? */
    method Below(name: string, attempt: nat, job: Job, owner: Run) returns (turn: Turn)
      requires Valid()
      requires RunOf(h, attempt) == Some(owner) && Named(h, attempt, name) == Ok(Some(job))
      modifies this
      ensures Valid()
      ensures TurnOf(h, name, attempt, turn)
    {
      if attempt <= 1 || job.status != "completed" {
        return RunHere;
      }
      var started, began := job.startedAt, owner.startedAt;
      if Blank(started) || Blank(began) {
        return RunHere;
      }
      var s, b := h.parse(started.value), h.parse(began.value);
      if s.None? || b.None? {
        return Refused;
      }
      if s.value >= b.value {
        return RunHere;
      }
      turn := From(name, attempt - 1, job);
    }

    /** The record a copy was carried from, with the run of its attempt. */
    method From(name: string, attempt: nat, job: Job) returns (turn: Turn)
      requires Valid()
      modifies this
      ensures Valid() && !turn.RunHere?
      ensures turn.Refused? <==> !Matches(h, name, attempt, job)
      ensures turn.Carried? ==> RunOf(h, attempt) == Some(turn.owner) && Named(h, attempt, name) == Ok(Some(turn.job))
    {
      var previous := NamedIn(attempt, name);
      if previous.Err? || previous.value.None? || !SameCarried(previous.value.value, job) {
        return Refused;
      }
      var run := AttemptRun(attempt);
      turn := if run.None? then Refused else Carried(previous.value.value, run.value);
    }

    /** `execution`: walk down from the latest attempt while its record is a carried copy. */
    method Execution(name: string) returns (r: Result<(Run, Option<Job>), ()>)
      requires Valid()
      modifies this
      ensures Valid()
      ensures Answers(h, name, r)
    {
      var attempt: nat := h.run.attempt;
      var latest := NamedIn(attempt, name);
      if latest.Err? || latest.value.None? {
        LatestIsRead(h, name);
        return if latest.Err? then Err(()) else Ok((h.run, None));
      }
      var job, owner := latest.value.value, h.run;
      var turn := Below(name, attempt, job, owner);
      while turn.Carried?
        invariant Valid() && attempt <= h.run.attempt && CarriedDownTo(h, name, attempt)
        invariant RunOf(h, attempt) == Some(owner) && Named(h, attempt, name) == Ok(Some(job))
        invariant TurnOf(h, name, attempt, turn)
        decreases attempt, turn.Carried?
      {
        CarriedOneMore(h, name, attempt, turn);
        attempt, job, owner := attempt - 1, turn.job, turn.owner;
        turn := Below(name, attempt, job, owner);
      }
      Conclude(h, name, attempt, turn);
      r := if turn.Refused? then Err(()) else Ok((owner, Some(job)));
    }
  }

  datatype Turn = RunHere | Refused | Carried(job: Job, owner: Run)

  ghost predicate TurnOf(h: History, name: string, attempt: nat, turn: Turn) {
    match turn
    case RunHere => StartedThere(h, name, attempt)
    case Refused => !StartedThere(h, name, attempt) && !CarriedInto(h, name, attempt)
    case Carried(job, owner) =>
      CarriedInto(h, name, attempt) && RunOf(h, attempt - 1) == Some(owner) && Named(h, attempt - 1, name) == Ok(Some(job))
  }

  ghost predicate CarriedDownTo(h: History, name: string, attempt: nat) {
    forall a :: attempt < a <= h.run.attempt ==> CarriedInto(h, name, a)
  }

  lemma CarriedOneMore(h: History, name: string, attempt: nat, turn: Turn)
    requires CarriedDownTo(h, name, attempt) && turn.Carried? && TurnOf(h, name, attempt, turn)
    ensures attempt > 0 && CarriedDownTo(h, name, attempt - 1)
  {
  }

  /** What a call of `execution` may return: no record, the attempt that executed it, or a refusal of any other history. */
  ghost predicate Answers(h: History, name: string, r: Result<(Run, Option<Job>), ()>) {
    match r
    case Ok((owner, None)) => owner == h.run && Named(h, h.run.attempt, name) == Ok(None)
    case Ok((owner, Some(job))) =>
      exists k :: Executed(h, name, k) && RunOf(h, k) == Some(owner) && Named(h, k, name) == Ok(Some(job))
    case Err(_) => Named(h, h.run.attempt, name) != Ok(None) && forall k :: !Executed(h, name, k)
  }

  lemma Conclude(h: History, name: string, attempt: nat, turn: Turn)
    requires attempt <= h.run.attempt && CarriedDownTo(h, name, attempt) && TurnOf(h, name, attempt, turn) && !turn.Carried?
    requires Named(h, attempt, name).Ok? && Named(h, attempt, name).value.Some?
    ensures turn.RunHere? ==> Executed(h, name, attempt)
    ensures turn.Refused? ==> Named(h, h.run.attempt, name) != Ok(None) && forall k :: !Executed(h, name, k)
  {
    if turn.Refused? {
      NoOther(h, name, attempt);
      assert attempt < h.run.attempt ==> CarriedInto(h, name, h.run.attempt);
    }
  }

  /** The record of attempt `a` is a copy: it started before its attempt began. */
  ghost predicate StartedBefore(h: History, name: string, a: nat) {
    && Named(h, a, name).Ok? && Named(h, a, name).value.Some? && RunOf(h, a).Some?
    && var job, owner := Named(h, a, name).value.value, RunOf(h, a).value;
    && job.status == "completed" && !Blank(job.startedAt) && !Blank(owner.startedAt)
    && h.parse(job.startedAt.value).Some? && h.parse(owner.startedAt.value).Some?
    && h.parse(job.startedAt.value).value < h.parse(owner.startedAt.value).value
  }

  /** The record of attempt `a` agrees with this one on every carried field. */
  predicate Matches(h: History, name: string, a: nat, job: Job) {
    && Named(h, a, name).Ok? && Named(h, a, name).value.Some? && RunOf(h, a).Some?
    && SameCarried(Named(h, a, name).value.value, job)
  }

  /** Attempt `a` only copied the job, and the attempt below holds the matching record. */
  ghost predicate CarriedInto(h: History, name: string, a: nat) {
    a > 1 && StartedBefore(h, name, a) && Matches(h, name, a - 1, Named(h, a, name).value.value)
  }

  /** The record of attempt `a` counts as run there: the first, unfinished, undated, or begun no later than it. */
  ghost predicate StartedThere(h: History, name: string, a: nat) {
    && Named(h, a, name).Ok? && Named(h, a, name).value.Some? && RunOf(h, a).Some?
    && var job, owner := Named(h, a, name).value.value, RunOf(h, a).value;
    && (a <= 1 || job.status != "completed" || Blank(job.startedAt) || Blank(owner.startedAt)
        || (h.parse(job.startedAt.value).Some? && h.parse(owner.startedAt.value).Some?
            && h.parse(owner.startedAt.value).value <= h.parse(job.startedAt.value).value))
  }

  /** Attempt `k` executed the latest record: every attempt above it carried it, and it did not. */
  ghost predicate Executed(h: History, name: string, k: nat) {
    && k <= h.run.attempt
    && StartedThere(h, name, k)
    && forall a :: k < a <= h.run.attempt ==> CarriedInto(h, name, a)
  }

  lemma LatestIsRead(h: History, name: string)
    ensures (exists k :: Executed(h, name, k)) ==>
              Named(h, h.run.attempt, name).Ok? && Named(h, h.run.attempt, name).value.Some?
  {
    if k: nat :| Executed(h, name, k) && k < h.run.attempt {
      assert CarriedInto(h, name, h.run.attempt);
    }
  }

  lemma NoOther(h: History, name: string, attempt: nat)
    requires attempt <= h.run.attempt && !StartedThere(h, name, attempt) && !CarriedInto(h, name, attempt)
    requires forall a :: attempt < a <= h.run.attempt ==> CarriedInto(h, name, a)
    ensures forall k :: !Executed(h, name, k)
  {
    forall k: nat
      ensures !Executed(h, name, k)
    {
      if k > attempt {
        assert Executed(h, name, k) ==> CarriedInto(h, name, k);
        NotBoth(h, name, k);
      } else if k < attempt {
        assert Executed(h, name, k) ==> CarriedInto(h, name, attempt);
      }
    }
  }

  lemma NotBoth(h: History, name: string, a: nat)
    ensures !(CarriedInto(h, name, a) && StartedThere(h, name, a))
  {
  }

  /** At most one attempt executed a record: it is the highest one that did not carry it. */
  lemma ExecutedOnce(h: History, name: string, j: nat, k: nat)
    requires Executed(h, name, j) && Executed(h, name, k)
    ensures j == k
  {
    if j < k {
      NotBoth(h, name, k);
    } else if k < j {
      NotBoth(h, name, j);
    }
  }

  /** The executing attempt's job agrees with the latest record on every carried field. */
  lemma {:induction false} ExecutedAgrees(h: History, name: string, k: nat, a: nat)
    requires Executed(h, name, k) && k <= a <= h.run.attempt
    ensures Named(h, a, name).Ok? && Named(h, a, name).value.Some?
    ensures SameCarried(Named(h, k, name).value.value, Named(h, a, name).value.value)
    decreases a
  {
    if k < a {
      assert CarriedInto(h, name, a);
      ExecutedAgrees(h, name, k, a - 1);
    }
  }
}
