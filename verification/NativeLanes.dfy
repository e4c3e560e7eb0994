/**
 Collecting native evidence: one record per producer of every inspected workflow, folded
 into lane statuses and pending lanes, and the decision to publish "pending".
 */
module NativeLanes {
  import opened Prelude
  import RunAttempts

  datatype Producer = Producer(workflow: string, job: string, lane: string)

  datatype Status = Success | Failure | Cancelled | Skipped | TimedOut | Unverified | Missing | Stale | Pending

  datatype Record = Record(lane: string, job: string, status: Status)

  /** The executing attempt's artifact: none, one that raises when read, or a readable receipt. */
  datatype Evidence = NoArtifact | Unusable | Receipt(namesCurrentMerge: bool, normalizes: bool)

  const ACTIVE := {"queued", "in_progress", "requested", "waiting", "pending"}
  const CI := "ci.yml"
  const UNIT := "unit_tests"

  /** One workflow's latest run: its attempts, whether it is bound to the candidate, and its evidence. */
  datatype Inspection = Inspection(
    workflow: string, h: RunAttempts.History, current: bool, evidence: (nat, string) -> Evidence)
  {
    predicate ActiveRun() {
      h.run.status in ACTIVE
    }

    predicate PendingRun() {
      current && ActiveRun()
    }

    function IfCurrent(s: Status): Status {
      if current then s else Stale
    }
  }

  type Executed = Result<(RunAttempts.Run, Option<RunAttempts.Job>), ()>

  /** The branches of the per-producer step, given what `execution` returned. */
  function StatusFor(i: Inspection, p: Producer, r: Executed): Status {
    match r
    case Err(_) => i.IfCurrent(Unverified)
    case Ok((_, None)) => if i.PendingRun() then Pending else i.IfCurrent(Missing)
    case Ok((owner, Some(job))) =>
      if job.status != "completed" then if i.PendingRun() then Pending else i.IfCurrent(Missing)
      else if job.conclusion == Some("failure") then Failure
      else if job.conclusion == Some("cancelled") then Cancelled
      else if job.conclusion == Some("skipped") then Skipped
      else if job.conclusion == Some("timed_out") then TimedOut
      else if job.conclusion != Some("success") then i.IfCurrent(Unverified)
      else match i.evidence(owner.attempt, p.job)
        case NoArtifact => i.IfCurrent(Missing)
        case Unusable => i.IfCurrent(Unverified)
        case Receipt(namesCurrentMerge, normalizes) =>
          if !i.current && namesCurrentMerge then Stale
          else if !normalizes then i.IfCurrent(Unverified)
          else if i.PendingRun() then Pending
          else if i.ActiveRun() then Stale
          else Success
  }

  /** The record the source appends for a producer. */
  ghost predicate RecordedAs(i: Inspection, p: Producer, record: Record) {
    && record.lane == p.lane && record.job == p.job
    && exists r :: RunAttempts.Answers(i.h, p.job, r) && record.status == StatusFor(i, p, r)
  }

  // ---------------------------------------------------------------- which records there are

  datatype Pair = Pair(inspection: Inspection, producer: Producer)

  function OfWorkflow(producers: seq<Producer>, workflow: string): seq<Producer> {
    if producers == [] then []
    else (if producers[0].workflow == workflow then [producers[0]] else []) + OfWorkflow(producers[1..], workflow)
  }

  function PairUp(i: Inspection, producers: seq<Producer>): (ps: seq<Pair>)
    ensures |ps| == |producers|
    ensures forall k :: 0 <= k < |ps| ==> ps[k] == Pair(i, producers[k])
  {
    seq(|producers|, k requires 0 <= k < |producers| => Pair(i, producers[k]))
  }

  /** Every inspected workflow with each of its producers, in the order the loops visit them. */
  function Pairs(inspections: seq<Inspection>, producers: seq<Producer>): seq<Pair> {
    if inspections == [] then []
    else
      var last := inspections[|inspections| - 1];
      Pairs(inspections[..|inspections| - 1], producers) + PairUp(last, OfWorkflow(producers, last.workflow))
  }

  ghost predicate Collected(pairs: seq<Pair>, native: seq<Record>) {
    |native| == |pairs|
    && forall k :: 0 <= k < |pairs| ==> RecordedAs(pairs[k].inspection, pairs[k].producer, native[k])
  }

  // ---------------------------------------------------------------- the lane fold

  datatype Verdict = Reported(status: Status) | Waiting | Unreported

  function VerdictOf(values: seq<Status>, required: nat, unionOk: bool): Verdict {
    if Failure in values || TimedOut in values || Unverified in values then
      Reported(if Unverified in values then Unverified else Failure)
    else if Cancelled in values || Skipped in values then
      Reported(if Cancelled in values then Cancelled else Skipped)
    else if |values| == required && values != [] && forall v :: v in values ==> v == Success then
      Reported(if unionOk then Success else Unverified)
    else if |values| == required && Pending in values && forall v :: v in values ==> v == Success || v == Pending then
      Waiting
    else Unreported
  }

  function LaneValues(native: seq<Record>, lane: string): seq<Status> {
    if native == [] then []
    else (if native[0].lane == lane then [native[0].status] else []) + LaneValues(native[1..], lane)
  }

  function OfLane(producers: seq<Producer>, lane: string): seq<Producer> {
    if producers == [] then []
    else (if producers[0].lane == lane then [producers[0]] else []) + OfLane(producers[1..], lane)
  }

  function VerdictIn(native: seq<Record>, producers: seq<Producer>, lane: string, unionOk: bool): Verdict {
    VerdictOf(LaneValues(native, lane), |OfLane(producers, lane)|, lane != UNIT || unionOk)
  }

  predicate Evaluated(native: seq<Record>, lane: string) {
    exists k :: 0 <= k < |native| && native[k].lane == lane
  }

  function LaneNames(producers: seq<Producer>): set<string> {
    set p | p in producers :: p.lane
  }

  predicate AnyPendingRun(inspections: seq<Inspection>) {
    exists i :: 0 <= i < |inspections| && inspections[i].PendingRun()
  }

  /** `lane_statuses` and `pending_lanes` of a collection. */
  ghost predicate Folded(
    native: seq<Record>, producers: seq<Producer>, active: bool, unionOk: bool,
    statuses: map<string, Status>, pendingLanes: set<string>)
  {
    && (forall lane :: lane in statuses <==> lane in LaneNames(producers) && VerdictIn(native, producers, lane, unionOk).Reported?)
    && (forall lane :: lane in statuses ==> VerdictIn(native, producers, lane, unionOk) == Reported(statuses[lane]))
    && (forall lane :: lane in pendingLanes <==>
          lane in LaneNames(producers)
          && (VerdictIn(native, producers, lane, unionOk).Waiting? || (active && !Evaluated(native, lane))))
  }

  /** The producers in force once ci.yml's approved unit layout replaced the default shards. */
  function WithUnits(producers: seq<Producer>, units: seq<Producer>): seq<Producer> {
    NotUnit(producers) + units
  }

  function NotUnit(producers: seq<Producer>): seq<Producer> {
    if producers == [] then []
    else (if producers[0].lane != UNIT then [producers[0]] else []) + NotUnit(producers[1..])
  }

  predicate UnitsInCi(producers: seq<Producer>) {
    forall p :: p in producers && p.lane == UNIT ==> p.workflow == CI
  }

  predicate DistinctWorkflows(inspections: seq<Inspection>) {
    forall i, j :: 0 <= i < j < |inspections| ==> inspections[i].workflow != inspections[j].workflow
  }

  function InForce(inspections: seq<Inspection>, producers: seq<Producer>, units: seq<Producer>): seq<Producer> {
    if exists i :: 0 <= i < |inspections| && inspections[i].workflow == CI then WithUnits(producers, units) else producers
  }

  /** The run has attempts and the jobs of the latest can be listed: what is asked before any producer is looked at. */
  predicate Listed(i: Inspection) {
    i.h.run.attempt >= 1 && i.h.jobs(i.h.run.attempt).Some?
  }

  predicate AllListed(inspections: seq<Inspection>) {
    forall i :: 0 <= i < |inspections| ==> Listed(inspections[i])
  }

  /** What `collect_native` returns of the native runs. */
  datatype Collection = Collection(
    producers: seq<Producer>, native: seq<Record>, statuses: map<string, Status>, pendingLanes: set<string>)

  /**
   `collect_native` from its loop over the latest runs on: `inspections` is that dictionary,
   so its workflows differ; the unit shards are ci.yml jobs, as in PRODUCERS.
   */
  method CollectNative(inspections: seq<Inspection>, defaults: seq<Producer>, units: seq<Producer>, unionOk: bool)
    returns (r: Result<Collection, ()>)
    requires DistinctWorkflows(inspections) && UnitsInCi(defaults)
    requires forall u :: u in units ==> u.lane == UNIT && u.workflow == CI
    ensures r.Ok? <==> AllListed(inspections)
    ensures r.Ok? ==> && r.value.producers == InForce(inspections, defaults, units)
                      && Collected(Pairs(inspections, r.value.producers), r.value.native)
                      && Folded(r.value.native, r.value.producers, AnyPendingRun(inspections), unionOk,
                                r.value.statuses, r.value.pendingLanes)
  {
    var gathered := Gather(inspections, defaults, units);
    if gathered.Err? {
      return Err(());
    }
    var (producers, native, active) := gathered.value;
    var statuses, pendingLanes := FoldLanes(native, producers, active, unionOk);
    r := Ok(Collection(producers, native, statuses, pendingLanes));
  }

  /** The loop over the latest runs: the producers in force, the records, and whether a current run is active. */
  method Gather(inspections: seq<Inspection>, defaults: seq<Producer>, units: seq<Producer>)
    returns (r: Result<(seq<Producer>, seq<Record>, bool), ()>)
    requires DistinctWorkflows(inspections) && UnitsInCi(defaults)
    requires forall u :: u in units ==> u.lane == UNIT && u.workflow == CI
    ensures r.Ok? <==> AllListed(inspections)
    ensures r.Ok? ==> && r.value.0 == InForce(inspections, defaults, units)
                      && Collected(Pairs(inspections, r.value.0), r.value.1)
                      && r.value.2 == AnyPendingRun(inspections)
  {
    var producers, native: seq<Record>, active := defaults, [], false;
    for n := 0 to |inspections|
      invariant AllListed(inspections[..n])
      invariant producers == InForce(inspections[..n], defaults, units)
      invariant Collected(Pairs(inspections[..n], producers), native)
      invariant active == AnyPendingRun(inspections[..n])
    {
      InspectOne(inspections, n, defaults, units);
      PendingStep(inspections, n);
      ListedStep(inspections, n);
      var inspected := Inspect(inspections[n], producers, units);
      if inspected.Err? {
        return Err(());
      }
      CollectedConcat(Pairs(inspections[..n], producers), native,
                      PairUp(inspections[n], OfWorkflow(inspected.value.0, inspections[n].workflow)), inspected.value.1);
      producers, native := inspected.value.0, native + inspected.value.1;
      active := active || inspections[n].PendingRun();
    }
    assert inspections[..|inspections|] == inspections;
    r := Ok((producers, native, active));
  }

  /** One turn of it: the approved unit layout replaces the default shards, then the workflow's records are made. */
  method Inspect(i: Inspection, before: seq<Producer>, units: seq<Producer>) returns (r: Result<(seq<Producer>, seq<Record>), ()>)
    ensures r.Ok? <==> Listed(i)
    ensures r.Ok? ==> && r.value.0 == (if i.workflow == CI then WithUnits(before, units) else before)
                      && Collected(PairUp(i, OfWorkflow(r.value.0, i.workflow)), r.value.1)
  {
    var producers := if i.workflow == CI then WithUnits(before, units) else before;
    var records := CollectWorkflow(i, OfWorkflow(producers, i.workflow));
    r := if records.Ok? then Ok((producers, records.value)) else Err(());
  }

  lemma ListedStep(inspections: seq<Inspection>, n: nat)
    requires n < |inspections|
    ensures AllListed(inspections[..n + 1]) <==> AllListed(inspections[..n]) && Listed(inspections[n])
    ensures AllListed(inspections) ==> AllListed(inspections[..n + 1])
  {
    var done, more := inspections[..n], inspections[..n + 1];
    assert more[n] == inspections[n];
    assert forall i :: 0 <= i < n ==> more[i] == done[i];
  }

  /** One workflow: its latest attempt is listed, then the attempts object is asked once per producer. */
  method CollectWorkflow(i: Inspection, producers: seq<Producer>) returns (r: Result<seq<Record>, ()>)
    ensures r.Ok? <==> Listed(i)
    ensures r.Ok? ==> Collected(PairUp(i, producers), r.value)
  {
    if i.h.run.attempt < 1 {
      return Err(());
    }
    var records: seq<Record> := [];
    var attempts := new RunAttempts.Attempts(i.h);
    var listed := attempts.JobsOf(i.h.run.attempt);
    if listed.None? {
      return Err(());
    }
    for k := 0 to |producers|
      invariant attempts.Valid() && attempts.h == i.h && fresh(attempts)
      invariant |records| == k
      invariant forall j :: 0 <= j < k ==> RecordedAs(i, producers[j], records[j])
    {
      var p := producers[k];
      var answer := attempts.Execution(p.job);
      var record := Record(p.lane, p.job, StatusFor(i, p, answer));
      assert RecordedAs(i, p, record);
      records := records + [record];
    }
    r := Ok(records);
  }

  method FoldLanes(native: seq<Record>, producers: seq<Producer>, active: bool, unionOk: bool)
    returns (statuses: map<string, Status>, pendingLanes: set<string>)
    ensures Folded(native, producers, active, unionOk, statuses, pendingLanes)
  {
    statuses, pendingLanes := map[], {};
    var left := LaneNames(producers);
    while left != {}
      invariant left <= LaneNames(producers)
      invariant forall lane :: lane in statuses <==>
                  lane in LaneNames(producers) - left && VerdictIn(native, producers, lane, unionOk).Reported?
      invariant forall lane :: lane in statuses ==> VerdictIn(native, producers, lane, unionOk) == Reported(statuses[lane])
      invariant forall lane :: lane in pendingLanes <==>
                  lane in LaneNames(producers) - left && VerdictIn(native, producers, lane, unionOk).Waiting?
    {
      var lane :| lane in left;
      left := left - {lane};
      match VerdictIn(native, producers, lane, unionOk) {
        case Reported(status) => statuses := statuses[lane := status];
        case Waiting => pendingLanes := pendingLanes + {lane};
        case Unreported =>
      }
    }
    if active {
      pendingLanes := pendingLanes + set lane | lane in LaneNames(producers) && !Evaluated(native, lane);
    }
  }

  lemma CollectedConcat(p: seq<Pair>, a: seq<Record>, q: seq<Pair>, b: seq<Record>)
    requires Collected(p, a) && Collected(q, b)
    ensures Collected(p + q, a + b)
  {
  }

  // ---------------------------------------------------------------- the swap of the unit shards is harmless

  lemma {:induction false} OfWorkflowWithoutUnits(producers: seq<Producer>, workflow: string)
    requires UnitsInCi(producers) && workflow != CI
    ensures OfWorkflow(NotUnit(producers), workflow) == OfWorkflow(producers, workflow)
  {
    if producers != [] {
      assert UnitsInCi(producers[1..]);
      OfWorkflowWithoutUnits(producers[1..], workflow);
      if producers[0].lane != UNIT {
        assert NotUnit(producers)[1..] == NotUnit(producers[1..]);
      } else {
        assert NotUnit(producers) == NotUnit(producers[1..]);
      }
    }
  }

  lemma {:induction false} OfWorkflowConcat(a: seq<Producer>, b: seq<Producer>, workflow: string)
    ensures OfWorkflow(a + b, workflow) == OfWorkflow(a, workflow) + OfWorkflow(b, workflow)
  {
    if a == [] {
      assert a + b == b;
    } else {
      assert (a + b)[0] == a[0] && (a + b)[1..] == a[1..] + b;
      OfWorkflowConcat(a[1..], b, workflow);
      var first := if a[0].workflow == workflow then [a[0]] else [];
      assert OfWorkflow(a, workflow) == first + OfWorkflow(a[1..], workflow);
      assert OfWorkflow(a + b, workflow) == first + OfWorkflow(a[1..] + b, workflow);
    }
  }

  lemma {:induction false} OfWorkflowElsewhere(producers: seq<Producer>, workflow: string)
    requires forall p :: p in producers ==> p.workflow != workflow
    ensures OfWorkflow(producers, workflow) == []
  {
    if producers != [] {
      OfWorkflowElsewhere(producers[1..], workflow);
    }
  }

  lemma {:induction false} PairsIgnoreUnits(inspections: seq<Inspection>, producers: seq<Producer>, units: seq<Producer>)
    requires UnitsInCi(producers) && forall u :: u in units ==> u.workflow == CI
    requires forall i :: 0 <= i < |inspections| ==> inspections[i].workflow != CI
    ensures Pairs(inspections, WithUnits(producers, units)) == Pairs(inspections, producers)
  {
    if inspections != [] {
      var init, last := inspections[..|inspections| - 1], inspections[|inspections| - 1];
      PairsIgnoreUnits(init, producers, units);
      OfWorkflowConcat(NotUnit(producers), units, last.workflow);
      OfWorkflowWithoutUnits(producers, last.workflow);
      OfWorkflowElsewhere(units, last.workflow);
    }
  }

  lemma InForceStep(inspections: seq<Inspection>, n: nat, defaults: seq<Producer>, units: seq<Producer>)
    requires n < |inspections| && DistinctWorkflows(inspections)
    ensures InForce(inspections[..n + 1], defaults, units)
         == if inspections[n].workflow == CI then WithUnits(defaults, units) else InForce(inspections[..n], defaults, units)
    ensures inspections[n].workflow == CI ==> InForce(inspections[..n], defaults, units) == defaults
  {
    var done, more := inspections[..n], inspections[..n + 1];
    assert more[n] == inspections[n];
    assert forall i :: 0 <= i < n ==> more[i] == done[i];
  }

  lemma PairsStep(inspections: seq<Inspection>, n: nat, producers: seq<Producer>)
    requires n < |inspections|
    ensures Pairs(inspections[..n + 1], producers)
         == Pairs(inspections[..n], producers) + PairUp(inspections[n], OfWorkflow(producers, inspections[n].workflow))
  {
    assert inspections[..n + 1][..n] == inspections[..n];
  }

  lemma InspectOne(inspections: seq<Inspection>, n: nat, defaults: seq<Producer>, units: seq<Producer>)
    requires n < |inspections| && DistinctWorkflows(inspections) && UnitsInCi(defaults)
    requires forall u :: u in units ==> u.lane == UNIT && u.workflow == CI
    ensures var before, after := InForce(inspections[..n], defaults, units), InForce(inspections[..n + 1], defaults, units);
      && after == (if inspections[n].workflow == CI then WithUnits(before, units) else before)
      && Pairs(inspections[..n + 1], after)
         == Pairs(inspections[..n], before) + PairUp(inspections[n], OfWorkflow(after, inspections[n].workflow))
  {
    var done := inspections[..n];
    InForceStep(inspections, n, defaults, units);
    PairsStep(inspections, n, InForce(inspections[..n + 1], defaults, units));
    if inspections[n].workflow == CI {
      PairsIgnoreUnits(done, defaults, units);
    }
  }

  lemma PendingStep(inspections: seq<Inspection>, n: nat)
    requires n < |inspections|
    ensures AnyPendingRun(inspections[..n + 1]) == (AnyPendingRun(inspections[..n]) || inspections[n].PendingRun())
  {
    var done, more := inspections[..n], inspections[..n + 1];
    assert more[n] == inspections[n];
    assert forall i :: 0 <= i < n ==> more[i] == done[i];
    if i :| 0 <= i < n && done[i].PendingRun() {
      assert more[i].PendingRun();
    }
  }

  // ---------------------------------------------------------------- what a status means

  /** `execution` answers a given history in one way only. */
  lemma OneAnswer(h: RunAttempts.History, name: string, a: Executed, b: Executed)
    requires RunAttempts.Answers(h, name, a) && RunAttempts.Answers(h, name, b)
    ensures a == b
  {
    RunAttempts.LatestIsRead(h, name);
    match (a, b)
    case (Ok((owner, Some(job))), Ok((owner', Some(job')))) =>
      var j :| RunAttempts.Executed(h, name, j) && RunAttempts.RunOf(h, j) == Some(owner)
               && RunAttempts.Named(h, j, name) == Ok(Some(job));
      var k :| RunAttempts.Executed(h, name, k) && RunAttempts.RunOf(h, k) == Some(owner')
               && RunAttempts.Named(h, k, name) == Ok(Some(job'));
      RunAttempts.ExecutedOnce(h, name, j, k);
    case (Err(e), Err(e')) =>
      assert e == () == e';
    case (_, _) =>
  }

  /** A record is fixed by its producer and workflow run: a collection of the same pairs is the same list. */
  lemma CollectionIsDetermined(pairs: seq<Pair>, a: seq<Record>, b: seq<Record>)
    requires Collected(pairs, a) && Collected(pairs, b)
    ensures a == b
  {
    forall k | 0 <= k < |pairs|
      ensures a[k] == b[k]
    {
      var i, p := pairs[k].inspection, pairs[k].producer;
      assert RecordedAs(i, p, a[k]) && RecordedAs(i, p, b[k]);
      var x :| RunAttempts.Answers(i.h, p.job, x) && a[k].status == StatusFor(i, p, x);
      var y :| RunAttempts.Answers(i.h, p.job, y) && b[k].status == StatusFor(i, p, y);
      OneAnswer(i.h, p.job, x, y);
    }
  }

  /** Only a current, active run yields a pending record, and only a current run a miss. */
  lemma RecordMeans(i: Inspection, p: Producer, record: Record)
    requires RecordedAs(i, p, record)
    ensures record.status == Pending ==> i.PendingRun()
    ensures record.status == Missing || record.status == Unverified ==> i.current
    ensures record.status == Success ==> !i.ActiveRun()
  {
    var r :| RunAttempts.Answers(i.h, p.job, r) && record.status == StatusFor(i, p, r);
    StatusMeans(i, p, r);
  }

  lemma StatusMeans(i: Inspection, p: Producer, r: Executed)
    ensures StatusFor(i, p, r) == Pending ==> i.PendingRun()
    ensures StatusFor(i, p, r) == Missing || StatusFor(i, p, r) == Unverified ==> i.current
    ensures StatusFor(i, p, r) == Success ==> !i.ActiveRun()
  {
  }

  /** The latest record of the job is a completed success. */
  ghost predicate LatestSucceeded(h: RunAttempts.History, job: string) {
    var latest := RunAttempts.Named(h, h.run.attempt, job);
    latest.Ok? && latest.value.Some? && latest.value.value.status == "completed"
    && latest.value.value.conclusion == Some("success")
  }

  /** A success record rests on the latest attempt's success and on a readable receipt of the attempt that ran the job. */
  lemma SuccessRecordMeans(i: Inspection, p: Producer, record: Record)
    requires RecordedAs(i, p, record) && record.status == Success
    ensures LatestSucceeded(i.h, p.job)
    ensures exists k :: RunAttempts.Executed(i.h, p.job, k) && RunAttempts.RunOf(i.h, k).Some?
                        && i.evidence(RunAttempts.RunOf(i.h, k).value.attempt, p.job).Receipt?
  {
    var r :| RunAttempts.Answers(i.h, p.job, r) && record.status == StatusFor(i, p, r);
    SuccessNeeds(i, p, r);
    var k :| RunAttempts.Executed(i.h, p.job, k) && RunAttempts.RunOf(i.h, k) == Some(r.value.0)
             && RunAttempts.Named(i.h, k, p.job) == Ok(Some(r.value.1.value));
    RunAttempts.ExecutedAgrees(i.h, p.job, k, i.h.run.attempt);
  }

  lemma SuccessNeeds(i: Inspection, p: Producer, r: Executed)
    requires StatusFor(i, p, r) == Success
    ensures r.Ok? && r.value.1.Some? && r.value.1.value.status == "completed" && r.value.1.value.conclusion == Some("success")
    ensures i.evidence(r.value.0.attempt, p.job).Receipt?
  {
  }

  // ---------------------------------------------------------------- counting a lane's shards

  /** Producers of a lane whose workflow is among the inspected ones. */
  function InspectedOfLane(producers: seq<Producer>, lane: string, inspected: set<string>): nat {
    if producers == [] then 0
    else (if producers[0].lane == lane && producers[0].workflow in inspected then 1 else 0)
         + InspectedOfLane(producers[1..], lane, inspected)
  }

  function PairsOfLane(pairs: seq<Pair>, lane: string): nat {
    if pairs == [] then 0
    else (if pairs[0].producer.lane == lane then 1 else 0) + PairsOfLane(pairs[1..], lane)
  }

  lemma {:induction false} PairsOfLaneConcat(a: seq<Pair>, b: seq<Pair>, lane: string)
    ensures PairsOfLane(a + b, lane) == PairsOfLane(a, lane) + PairsOfLane(b, lane)
  {
    if a == [] {
      assert a + b == b;
    } else {
      assert (a + b)[1..] == a[1..] + b;
      PairsOfLaneConcat(a[1..], b, lane);
    }
  }

  lemma {:induction false} OneWorkflowOfLane(i: Inspection, producers: seq<Producer>, lane: string, inspected: set<string>)
    requires i.workflow !in inspected
    ensures InspectedOfLane(producers, lane, inspected + {i.workflow})
         == InspectedOfLane(producers, lane, inspected) + PairsOfLane(PairUp(i, OfWorkflow(producers, i.workflow)), lane)
  {
    if producers != [] {
      OneWorkflowOfLane(i, producers[1..], lane, inspected);
      var rest := OfWorkflow(producers[1..], i.workflow);
      if producers[0].workflow == i.workflow {
        assert OfWorkflow(producers, i.workflow) == [producers[0]] + rest;
        assert PairUp(i, OfWorkflow(producers, i.workflow))[1..] == PairUp(i, rest);
      } else {
        assert OfWorkflow(producers, i.workflow) == rest;
      }
    }
  }

  function Workflows(inspections: seq<Inspection>): set<string> {
    set k | 0 <= k < |inspections| :: inspections[k].workflow
  }

  lemma {:induction false} RecordsOfLane(inspections: seq<Inspection>, producers: seq<Producer>, lane: string)
    requires DistinctWorkflows(inspections)
    ensures PairsOfLane(Pairs(inspections, producers), lane) == InspectedOfLane(producers, lane, Workflows(inspections))
  {
    if inspections == [] {
      NoneInspected(producers, lane);
      assert Workflows(inspections) == {};
    } else {
      var init, last := inspections[..|inspections| - 1], inspections[|inspections| - 1];
      RecordsOfLane(init, producers, lane);
      assert Workflows(inspections) == Workflows(init) + {last.workflow} by {
        assert forall k :: 0 <= k < |init| ==> init[k] == inspections[k];
        assert inspections[|inspections| - 1].workflow == last.workflow;
      }
      OneWorkflowOfLane(last, producers, lane, Workflows(init));
      PairsOfLaneConcat(Pairs(init, producers), PairUp(last, OfWorkflow(producers, last.workflow)), lane);
    }
  }

  lemma {:induction false} NoneInspected(producers: seq<Producer>, lane: string)
    ensures InspectedOfLane(producers, lane, {}) == 0
  {
    if producers != [] {
      NoneInspected(producers[1..], lane);
    }
  }

  lemma {:induction false} FullCount(producers: seq<Producer>, lane: string, inspected: set<string>)
    ensures InspectedOfLane(producers, lane, inspected) <= |OfLane(producers, lane)|
    ensures InspectedOfLane(producers, lane, inspected) == |OfLane(producers, lane)| ==>
              forall p :: p in producers && p.lane == lane ==> p.workflow in inspected
  {
    if producers != [] {
      FullCount(producers[1..], lane, inspected);
    }
  }

  lemma {:induction false} CountOfLane(pairs: seq<Pair>, native: seq<Record>, lane: string)
    requires Collected(pairs, native)
    ensures |LaneValues(native, lane)| == PairsOfLane(pairs, lane)
  {
    if pairs != [] {
      assert RecordedAs(pairs[0].inspection, pairs[0].producer, native[0]);
      assert Collected(pairs[1..], native[1..]) by {
        forall k | 0 <= k < |pairs| - 1
          ensures RecordedAs(pairs[1..][k].inspection, pairs[1..][k].producer, native[1..][k])
        {
          assert RecordedAs(pairs[k + 1].inspection, pairs[k + 1].producer, native[k + 1]);
        }
      }
      CountOfLane(pairs[1..], native[1..], lane);
    }
  }

  lemma {:induction false} LaneValuesAre(native: seq<Record>, lane: string)
    ensures forall k :: 0 <= k < |native| && native[k].lane == lane ==> native[k].status in LaneValues(native, lane)
    ensures forall v :: v in LaneValues(native, lane) ==> exists k :: 0 <= k < |native| && native[k].lane == lane && native[k].status == v
  {
    if native != [] {
      LaneValuesAre(native[1..], lane);
      assert forall k :: 0 < k < |native| ==> native[k] == native[1..][k - 1];
      forall v | v in LaneValues(native, lane)
        ensures exists k :: 0 <= k < |native| && native[k].lane == lane && native[k].status == v
      {
        if v in LaneValues(native[1..], lane) {
          var k :| 0 <= k < |native[1..]| && native[1..][k].lane == lane && native[1..][k].status == v;
          assert native[k + 1].status == v;
        } else {
          assert native[0].lane == lane && native[0].status == v;
        }
      }
    }
  }

  lemma ValuesOfLane(pairs: seq<Pair>, native: seq<Record>, lane: string)
    requires Collected(pairs, native)
    ensures |LaneValues(native, lane)| == PairsOfLane(pairs, lane)
    ensures forall k :: 0 <= k < |native| && native[k].lane == lane ==> native[k].status in LaneValues(native, lane)
    ensures forall v :: v in LaneValues(native, lane) ==> exists k :: 0 <= k < |native| && native[k].lane == lane && native[k].status == v
  {
    CountOfLane(pairs, native, lane);
    LaneValuesAre(native, lane);
  }

  /** Where a producer of an inspected workflow is paired with its inspection. */
  lemma {:induction false} PairOf(inspections: seq<Inspection>, producers: seq<Producer>, m: nat, p: Producer) returns (k: nat)
    requires p in producers && m < |inspections| && inspections[m].workflow == p.workflow
    ensures k < |Pairs(inspections, producers)| && Pairs(inspections, producers)[k] == Pair(inspections[m], p)
  {
    var init, last := inspections[..|inspections| - 1], inspections[|inspections| - 1];
    if m == |init| {
      var j := PositionOf(producers, p);
      k := |Pairs(init, producers)| + j;
    } else {
      k := PairOf(init, producers, m, p);
    }
  }

  lemma {:induction false} PositionOf(producers: seq<Producer>, p: Producer) returns (j: nat)
    requires p in producers
    ensures j < |OfWorkflow(producers, p.workflow)| && OfWorkflow(producers, p.workflow)[j] == p
  {
    if producers[0] == p {
      j := 0;
    } else {
      j := PositionOf(producers[1..], p);
      if producers[0].workflow == p.workflow {
        j := j + 1;
      }
    }
  }

  // ---------------------------------------------------------------- main results

  lemma SuccessFillsLane(
    inspections: seq<Inspection>, producers: seq<Producer>, native: seq<Record>, unionOk: bool, lane: string)
    requires DistinctWorkflows(inspections) && Collected(Pairs(inspections, producers), native)
    requires VerdictIn(native, producers, lane, unionOk) == Reported(Success)
    ensures forall p :: p in producers && p.lane == lane ==> p.workflow in Workflows(inspections)
    ensures forall k :: 0 <= k < |native| && native[k].lane == lane ==> native[k].status == Success
  {
    ValuesOfLane(Pairs(inspections, producers), native, lane);
    RecordsOfLane(inspections, producers, lane);
    FullCount(producers, lane, Workflows(inspections));
  }

  /** A lane is reported successful only if every one of its producers was inspected and recorded a success. */
  lemma SuccessMeansAllShards(
    inspections: seq<Inspection>, producers: seq<Producer>, native: seq<Record>, unionOk: bool,
    statuses: map<string, Status>, pendingLanes: set<string>, lane: string, p: Producer)
    requires DistinctWorkflows(inspections) && Collected(Pairs(inspections, producers), native)
    requires Folded(native, producers, AnyPendingRun(inspections), unionOk, statuses, pendingLanes)
    requires lane in statuses && statuses[lane] == Success && p in producers && p.lane == lane
    ensures exists i :: i in inspections && i.workflow == p.workflow && RecordedAs(i, p, Record(p.lane, p.job, Success))
  {
    SuccessFillsLane(inspections, producers, native, unionOk, lane);
    var m: nat :| m < |inspections| && inspections[m].workflow == p.workflow;
    var k := PairOf(inspections, producers, m, p);
    RecordAt(Pairs(inspections, producers), native, k);
    assert inspections[m] in inspections;
    assert native[k] == Record(p.lane, p.job, Success);
  }

  lemma RecordAt(pairs: seq<Pair>, native: seq<Record>, k: nat)
    requires Collected(pairs, native) && k < |pairs|
    ensures k < |native| && RecordedAs(pairs[k].inspection, pairs[k].producer, native[k])
    ensures native[k].lane == pairs[k].producer.lane && native[k].job == pairs[k].producer.job
  {
  }

  /** One record of a lane that is neither a success nor pending keeps the lane from both, wherever it stands in the list. */
  lemma BadShardDecides(
    pairs: seq<Pair>, native: seq<Record>, producers: seq<Producer>, active: bool, unionOk: bool,
    statuses: map<string, Status>, pendingLanes: set<string>, k: nat)
    requires Collected(pairs, native) && Folded(native, producers, active, unionOk, statuses, pendingLanes)
    requires k < |native| && native[k].status != Success && native[k].status != Pending
    ensures native[k].lane !in pendingLanes
    ensures native[k].lane in statuses ==> statuses[native[k].lane] != Success
    ensures native[k].status in {Failure, TimedOut, Unverified, Cancelled, Skipped} && native[k].lane in LaneNames(producers) ==>
              native[k].lane in statuses
  {
    ValuesOfLane(pairs, native, native[k].lane);
    BadValueDecides(LaneValues(native, native[k].lane), |OfLane(producers, native[k].lane)|,
                    native[k].lane != UNIT || unionOk, native[k].status);
    assert Evaluated(native, native[k].lane);
  }

  lemma BadValueDecides(values: seq<Status>, required: nat, unionOk: bool, v: Status)
    requires v in values && v != Success && v != Pending
    ensures !VerdictOf(values, required, unionOk).Waiting? && VerdictOf(values, required, unionOk) != Reported(Success)
    ensures v in {Failure, TimedOut, Unverified, Cancelled, Skipped} ==> VerdictOf(values, required, unionOk).Reported?
  {
  }

  /** The verdict depends on the values a lane recorded, not on their order. */
  lemma OrderDoesNotMatter(a: seq<Status>, b: seq<Status>, required: nat, unionOk: bool)
    requires multiset(a) == multiset(b)
    ensures VerdictOf(a, required, unionOk) == VerdictOf(b, required, unionOk)
  {
    assert |a| == |multiset(a)| == |multiset(b)| == |b|;
    assert forall v :: v in a <==> v in multiset(a);
    assert forall v :: v in b <==> v in multiset(b);
    assert a == [] <==> b == [];
  }

  /** No lane is both pending and reported. */
  lemma NeverBoth(
    pairs: seq<Pair>, native: seq<Record>, producers: seq<Producer>, active: bool, unionOk: bool,
    statuses: map<string, Status>, pendingLanes: set<string>)
    requires Collected(pairs, native) && Folded(native, producers, active, unionOk, statuses, pendingLanes)
    ensures statuses.Keys !! pendingLanes
  {
    forall lane | lane in statuses
      ensures lane !in pendingLanes
    {
      assert VerdictIn(native, producers, lane, unionOk).Reported?;
      ValuesOfLane(pairs, native, lane);
      var values := LaneValues(native, lane);
      assert values != [];
      assert values[0] in values;
      assert Evaluated(native, lane);
    }
  }

  /** `evaluate_lane` for a required lane. */
  datatype LaneState = SelectedPassed | SelectedFailed | SelectedSkipped | SelectedMissing

  function LaneStateOf(statuses: map<string, Status>, lane: string): LaneState {
    if lane !in statuses then SelectedMissing
    else match statuses[lane]
      case Success => SelectedPassed
      case Skipped => SelectedSkipped
      case Cancelled => SelectedSkipped
      case _ => SelectedFailed
  }

  /** `acceptance_pending` over the required lanes of the summary. */
  predicate AcceptancePending(required: set<string>, statuses: map<string, Status>, pendingLanes: set<string>) {
    var blockers := set lane | lane in required && LaneStateOf(statuses, lane) != SelectedPassed;
    blockers != {} && forall lane :: lane in blockers ==> LaneStateOf(statuses, lane) == SelectedMissing && lane in pendingLanes
  }

  /**
   "Pending" is published only while a current run is active, and then no required lane has
   a failed, missing, unverified, cancelled, skipped or stale record.
   */
  lemma PendingIsHonest(
    inspections: seq<Inspection>, producers: seq<Producer>, native: seq<Record>, unionOk: bool,
    statuses: map<string, Status>, pendingLanes: set<string>, required: set<string>)
    requires Collected(Pairs(inspections, producers), native)
    requires Folded(native, producers, AnyPendingRun(inspections), unionOk, statuses, pendingLanes)
    requires AcceptancePending(required, statuses, pendingLanes)
    ensures AnyPendingRun(inspections)
    ensures forall k :: 0 <= k < |native| && native[k].lane in required ==> native[k].status == Success || native[k].status == Pending
    ensures forall lane :: lane in required ==> lane in pendingLanes || (lane in statuses && statuses[lane] == Success)
  {
    var pairs, active := Pairs(inspections, producers), AnyPendingRun(inspections);
    forall k | 0 <= k < |native| && native[k].lane in required
      ensures native[k].status == Success || native[k].status == Pending
    {
      if native[k].status != Success && native[k].status != Pending {
        BadShardDecides(pairs, native, producers, active, unionOk, statuses, pendingLanes, k);
      }
    }
    var lane :| lane in required && LaneStateOf(statuses, lane) != SelectedPassed;
    PendingNeedsActiveRun(inspections, producers, native, unionOk, statuses, pendingLanes, lane);
  }

  lemma PendingNeedsActiveRun(
    inspections: seq<Inspection>, producers: seq<Producer>, native: seq<Record>, unionOk: bool,
    statuses: map<string, Status>, pendingLanes: set<string>, lane: string)
    requires Collected(Pairs(inspections, producers), native) && lane in pendingLanes
    requires Folded(native, producers, AnyPendingRun(inspections), unionOk, statuses, pendingLanes)
    ensures AnyPendingRun(inspections)
  {
    if !AnyPendingRun(inspections) {
      var pairs := Pairs(inspections, producers);
      assert VerdictIn(native, producers, lane, unionOk).Waiting?;
      ValuesOfLane(pairs, native, lane);
      assert Pending in LaneValues(native, lane);
      var k :| 0 <= k < |native| && native[k].lane == lane && native[k].status == Pending;
      RecordMeans(pairs[k].inspection, pairs[k].producer, native[k]);
      var j := PairsAreInspected(inspections, producers, k);
    }
  }

  lemma {:induction false} PairsAreInspected(inspections: seq<Inspection>, producers: seq<Producer>, k: nat) returns (j: nat)
    requires k < |Pairs(inspections, producers)|
    ensures j < |inspections| && inspections[j] == Pairs(inspections, producers)[k].inspection
  {
    var init, last := inspections[..|inspections| - 1], inspections[|inspections| - 1];
    if k < |Pairs(init, producers)| {
      j := PairsAreInspected(init, producers, k);
    } else {
      j := |init|;
    }
  }

  /** A first attempt of ci.yml with these jobs, a good receipt for each, and one shard to look for. */
  function Example(status: string, jobs: seq<RunAttempts.Job>): Inspection {
    var run := RunAttempts.Run(1, 1, "push", CI, "head", 1, "repository", 1, status, None);
    Inspection(CI, RunAttempts.History(run, a => Some(jobs), a => None, s => None), true, (a, name) => Receipt(false, true))
  }

  const SHARD := Producer(CI, "shard", UNIT)
  const DONE := RunAttempts.Job("shard", 1, 1, "head", "completed", Some("success"), None, None)

  /** A finished run whose only shard succeeded: its lane is reported, as a success. */
  lemma OneShardSucceeds()
    ensures var runs, native := [Example("completed", [DONE])], [Record(UNIT, "shard", Success)];
      && DistinctWorkflows(runs) && Collected(Pairs(runs, [SHARD]), native)
      && Folded(native, [SHARD], AnyPendingRun(runs), true, map[UNIT := Success], {})
  {
    var i, native := Example("completed", [DONE]), [Record(UNIT, "shard", Success)];
    OneRecord(i, Success);
    assert RunAttempts.WithName([DONE], "shard") == [DONE] by {
      assert DONE.name == "shard" && RunAttempts.WithName([DONE][1..], "shard") == [];
    }
    assert RunAttempts.Executed(i.h, "shard", 1);
    assert RunAttempts.Answers(i.h, "shard", Ok((i.h.run, Some(DONE))));
    assert RecordedAs(i, SHARD, native[0]);
    assert VerdictOf([Success], 1, true) == Reported(Success);
  }

  /** A queued run that lists no job yet: its lane is pending, and so is the acceptance of a change that needs it. */
  lemma OneShardWaits()
    ensures var runs, native := [Example("queued", [])], [Record(UNIT, "shard", Pending)];
      && DistinctWorkflows(runs) && Collected(Pairs(runs, [SHARD]), native)
      && Folded(native, [SHARD], AnyPendingRun(runs), true, map[], {UNIT})
      && AcceptancePending({UNIT}, map[], {UNIT})
  {
    var i, native := Example("queued", []), [Record(UNIT, "shard", Pending)];
    OneRecord(i, Pending);
    assert RunAttempts.Answers(i.h, "shard", Ok((i.h.run, None)));
    assert RecordedAs(i, SHARD, native[0]);
    assert VerdictOf([Pending], 1, true) == Waiting by {
      assert [Pending][0] == Pending;
    }
    NothingElseBlocks();
  }

  lemma NothingElseBlocks()
    ensures AcceptancePending({UNIT}, map[], {UNIT})
  {
    var required, statuses: map<string, Status> := {UNIT}, map[];
    var blockers := set lane | lane in required && LaneStateOf(statuses, lane) != SelectedPassed;
    assert UNIT in blockers;
    assert AcceptancePending(required, statuses, {UNIT});
  }

  lemma OneRecord(i: Inspection, status: Status)
    requires i.workflow == CI
    ensures Pairs([i], [SHARD]) == [Pair(i, SHARD)] && LaneNames([SHARD]) == {UNIT}
    ensures var native := [Record(UNIT, "shard", status)];
            VerdictIn(native, [SHARD], UNIT, true) == VerdictOf([status], 1, true) && Evaluated(native, UNIT)
  {
    var native := [Record(UNIT, "shard", status)];
    assert [i][..0] == [];
    assert OfWorkflow([SHARD], CI) == [SHARD];
    assert LaneValues(native, UNIT) == [status] by {
      assert LaneValues(native[1..], UNIT) == [] && native[0].lane == UNIT;
    }
    assert OfLane([SHARD], UNIT) == [SHARD];
  }
}
