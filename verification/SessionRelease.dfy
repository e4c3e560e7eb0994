/**
 Ownership and release of the paid session: one controller, and an assignment service whose
 every answer may be wrong, late or missing.

 The controller's history is kept as a ghost trace.  Safety says what stood immediately before
 each allocation, stop and release in it; the release loop is also shown to end by its deadline,
 to give up only for the reasons it should, and to succeed against a service that recovers in time.
 */
module SessionRelease {
  import opened Prelude

  const RELEASE_RETRY_SECONDS := 5.0
  const EXPORT_SECONDS := 20.0
  const FINAL_USAGE_SECONDS := 5.0
  /** The timeouts of the three calls of one pass of the release loop: listing, stop, listing. */
  const PASS_SECONDS := 5.0 + 10.0 + 5.0

  type Duration = d: real | 0.0 <= d

  type Assignments = map<string, string>

  /** How a tool call can go wrong: nonzero exit, an OS error, a timeout, or a controller refusal. */
  datatype Failure = ToolFailed | SystemError | TimedOut | Refusal

  datatype Event =
    | Listed(assignments: Assignments, bound: Option<string>)
    | Allocating
    | StopSent
    | Released

  datatype Manifest = Manifest(attempted: bool, endpoint: Option<string>, released: bool)

  function Earlier(a: real, b: real): real {
    if a <= b then a else b
  }

  function Later(a: real, b: real): real {
    if a <= b then b else a
  }

  // ---------------------------------------------------------------- what a trace may contain

  /** A listing of the active assignments in which the session's name maps to the bound endpoint. */
  predicate ShowsOwned(e: Event, session: string, endpoint: Option<string>) {
    e.Listed? && endpoint.Some? && session in e.assignments && e.assignments[session] == endpoint.value
  }

  /** A listing with neither the session's name nor, under any name, the bound endpoint. */
  predicate ShowsAbsent(e: Event, session: string, endpoint: Option<string>) {
    e.Listed? && endpoint.Some? && session !in e.assignments && endpoint.value !in e.assignments.Values
  }

  ghost predicate SafeAt(trace: seq<Event>, k: nat, session: string, endpoint: Option<string>)
    requires k < |trace|
  {
    match trace[k]
    case Listed(_, bound) => bound.Some? ==> bound == endpoint
    case Allocating => k > 0 && trace[k - 1].Listed? && session !in trace[k - 1].assignments
    case StopSent => k > 0 && ShowsOwned(trace[k - 1], session, endpoint)
    case Released => k > 0 && ShowsAbsent(trace[k - 1], session, endpoint)
  }

  /** Every step of the trace was justified by the listing right before it, for one fixed endpoint. */
  ghost predicate Safe(trace: seq<Event>, session: string, endpoint: Option<string>) {
    forall k :: 0 <= k < |trace| ==> SafeAt(trace, k, session, endpoint)
  }

  lemma SafeSnoc(trace: seq<Event>, e: Event, session: string, endpoint: Option<string>)
    requires Safe(trace, session, endpoint) && SafeAt(trace + [e], |trace|, session, endpoint)
    ensures Safe(trace + [e], session, endpoint)
  {
    forall k | 0 <= k < |trace + [e]|
      ensures SafeAt(trace + [e], k, session, endpoint)
    {
      if k < |trace| {
        assert SafeAt(trace, k, session, endpoint);
      }
    }
  }

  /** Until an endpoint is bound nothing was stopped or released, so binding one keeps a trace safe. */
  lemma SafeBind(trace: seq<Event>, session: string, endpoint: Option<string>)
    requires Safe(trace, session, None)
    ensures Safe(trace, session, endpoint)
  {
    forall k | 0 <= k < |trace|
      ensures SafeAt(trace, k, session, endpoint)
    {
      assert SafeAt(trace, k, session, None);
    }
  }

  /** How often a trace says an event happened. */
  ghost function Count(trace: seq<Event>, e: Event): nat {
    if trace == [] then 0 else Count(trace[..|trace| - 1], e) + if trace[|trace| - 1] == e then 1 else 0
  }

  lemma CountSnoc(trace: seq<Event>, last: Event, e: Event)
    ensures Count(trace + [last], e) == Count(trace, e) + if last == e then 1 else 0
  {
    assert (trace + [last])[..|trace|] == trace;
  }

  // ---------------------------------------------------------------- ownership

  datatype Ownership = Held(endpoint: string) | Absent | Disowned

  /** The case split of `owned` on one listing. */
  function Decide(session: string, m: Manifest, assignments: Assignments): Ownership {
    if session !in assignments then
      if m.attempted && m.endpoint.None? then Disowned
      else if m.endpoint.Some? && m.endpoint.value in assignments.Values then Disowned
      else Absent
    else if m.endpoint.None? then
      if m.attempted then Held(assignments[session]) else Disowned
    else if assignments[session] == m.endpoint.value then Held(assignments[session])
    else Disowned
  }

  /**
   The account's active assignments.  An honest service may fail and may be slow, but what it lists
   is so, and only a stop changes it; from `calmFrom` on it also obeys, and answers within its pace.
   */
  class Service {
    const honest: bool
    const calmFrom: real
    const pace: Duration
    var active: Assignments
    /** The requests that can change what is billed. */
    ghost var stops: nat
    ghost var news: nat

    constructor (honest: bool, calmFrom: real, pace: Duration)
      ensures this.honest == honest && this.calmFrom == calmFrom && this.pace == pace && stops == news == 0
    {
      this.honest, this.calmFrom, this.pace := honest, calmFrom, pace;
      stops, news := 0, 0;
    }

    predicate Calm(at: real) {
      honest && calmFrom <= at
    }

    method List(began: real) returns (answer: Result<Assignments, Failure>)
      modifies this`active
      ensures honest ==> active == old(active) && (answer == Ok(active) || (answer.Err? && answer.error != Refusal))
      ensures Calm(began) ==> answer == Ok(active)
    {
      if Calm(began) {
        return Ok(active);
      }
      answer := *;
      if honest {
        answer := if answer.Ok? then Ok(active) else Err(ToolFailed);
      } else {
        active := *;
      }
    }

    method Stop(session: string, began: real) returns (failure: Option<Failure>)
      modifies this`active, this`stops
      ensures stops == old(stops) + 1
      ensures honest ==> failure != Some(Refusal) && (active == old(active) || active == old(active) - {session})
      ensures Calm(began) ==> failure.None? && active == old(active) - {session}
    {
      stops := stops + 1;
      if Calm(began) {
        active := active - {session};
        return None;
      }
      failure := *;
      if honest {
        var done: bool := *;
        active := if done then active - {session} else active;
        failure := if failure == Some(Refusal) then Some(ToolFailed) else failure;
      } else {
        active := *;
      }
    }

    method New(session: string) returns (failure: Option<Failure>)
      modifies this`active, this`news
      ensures news == old(news) + 1
    {
      news := news + 1;
      active := *;
      failure := *;
    }
  }

  class Run {
    const session: string
    const service: Service
    const expiry: real
    const workExpiry: real
    /** How far past its deadline a call's own clean-up can carry the clock. */
    const slack: Duration
    /** Every drain of output stops, every listing fits its bound, and the output budget covers every call. */
    const orderly: bool
    var now: real
    var manifest: Manifest
    /** The manifest file. */
    var disk: Manifest
    var retries: nat
    ghost var trace: seq<Event>
    /** The service's counts when this controller started. */
    ghost const stopsBefore: nat
    ghost const newsBefore: nat
    ghost const releasedBefore: bool

    ghost predicate Valid()
      reads this, service
    {
      // The trace misses no request.
      && service.stops == stopsBefore + Count(trace, StopSent)
      && service.news == newsBefore + Count(trace, Allocating)
      && workExpiry <= expiry
      && Safe(trace, session, manifest.endpoint)
      && (disk.endpoint.Some? ==> disk.endpoint == manifest.endpoint)
      && (disk.attempted ==> manifest.attempted)
      // The attempt is on disk before the service can have been asked for a session.
      && (Allocating in trace ==> disk.attempted)
      && (manifest.endpoint.Some? ==> manifest.attempted)
      && (disk.endpoint.Some? ==> disk.attempted)
      // Nobody writes that the session is gone without having seen it gone.
      && (manifest.released || disk.released ==> releasedBefore || Released in trace)
    }

    /** What every operation below keeps: identity, time, and an endpoint once bound. */
    twostate predicate Continues()
      reads this
    {
      && old(now) <= now && old(trace) <= trace
      && (old(manifest).endpoint.Some? ==> manifest.endpoint == old(manifest).endpoint)
      && (old(manifest).attempted ==> manifest.attempted)
      && (old(disk).attempted ==> disk.attempted)
    }

    /** A controller starting, or recovering, from the manifest it finds. */
    constructor (session: string, service: Service, disk: Manifest, now: real, expiry: real, workExpiry: real, slack: Duration,
                 orderly: bool)
      requires workExpiry <= expiry && (disk.endpoint.Some? ==> disk.attempted)
      ensures Valid() && manifest == disk == this.disk && trace == [] && retries == 0
      ensures this.session == session && this.service == service && this.now == now
      ensures this.expiry == expiry && this.workExpiry == workExpiry && this.slack == slack && this.orderly == orderly
      ensures releasedBefore == disk.released
    {
      this.session, this.service := session, service;
      this.now, this.expiry, this.workExpiry, this.slack, this.orderly := now, expiry, workExpiry, slack, orderly;
      this.manifest, this.disk := disk, disk;
      retries, trace := 0, [];
      stopsBefore, newsBefore, releasedBefore := service.stops, service.news, disk.released;
    }

    /** `save` replaces the manifest file or fails to. */
    method Save() returns (ok: bool)
      requires Valid()
      modifies this`disk
      ensures Valid() && disk == if ok then manifest else old(disk)
    {
      ok := *;
      if ok {
        disk := manifest;
      }
    }

    /** Neither the service nor the controller's own output gives a reason to refuse a call in time. */
    predicate Dependable() {
      service.honest && orderly
    }

    /** The service is calm, and a call begun now ends before its deadline and its timeout. */
    predicate Answers(at: real, deadline: real, seconds: real) {
      orderly && service.Calm(at) && at < deadline && at + service.pace <= deadline && service.pace <= seconds
    }

    /**
     The timing of `command`: refused at its deadline, otherwise cut off at its timeout or there.
     A call that failed may have run the tool or not; one past its deadline did not.
     */
    method Command(deadline: real, seconds: real) returns (failure: Option<Failure>, ran: bool)
      requires Valid() && seconds > 0.0
      modifies this`now
      ensures Valid() && old(now) <= now <= Later(old(now), deadline + slack) && now <= old(now) + seconds + slack
      ensures old(now) >= deadline ==> now == old(now) && failure == Some(Refusal) && !ran
      ensures failure.None? ==> ran
      ensures Dependable() && old(now) < deadline ==> failure != Some(Refusal)
      ensures Answers(old(now), deadline, seconds) ==> failure.None? && now <= old(now) + service.pace
    {
      var remaining := deadline - now;
      if remaining <= 0.0 {
        return Some(Refusal), false;
      }
      var elapsed: real := *;
      elapsed := Later(0.0, Earlier(elapsed, Earlier(seconds, remaining) + slack));
      failure, ran := None, true;
      if Answers(now, deadline, seconds) {
        elapsed := Earlier(elapsed, service.pace);
      } else {
        failure := *;
        if Dependable() && failure == Some(Refusal) {
          failure := Some(TimedOut);
        }
        if failure.Some? {
          ran := *;
        }
      }
      now := now + elapsed;
    }

    method Record(e: Event)
      requires Valid() && SafeAt(trace + [e], |trace|, session, manifest.endpoint) && (e.Listed? || e.Released?)
      modifies this`trace
      ensures Valid() && trace == old(trace) + [e]
    {
      Extended(e);
      trace := trace + [e];
    }

    lemma Extended(e: Event)
      requires Valid() && SafeAt(trace + [e], |trace|, session, manifest.endpoint)
      ensures Safe(trace + [e], session, manifest.endpoint)
      ensures Count(trace + [e], StopSent) == Count(trace, StopSent) + if e.StopSent? then 1 else 0
      ensures Count(trace + [e], Allocating) == Count(trace, Allocating) + if e.Allocating? then 1 else 0
      ensures Allocating in trace + [e] <==> Allocating in trace || e.Allocating?
      ensures Released in trace + [e] <==> Released in trace || e.Released?
    {
      SafeSnoc(trace, e, session, manifest.endpoint);
      CountSnoc(trace, e, StopSent);
      CountSnoc(trace, e, Allocating);
    }

    /** `colab stop`, for a session just seen to be this run's. */
    method SendStop() returns (failure: Option<Failure>)
      requires Valid() && trace != [] && ShowsOwned(trace[|trace| - 1], session, manifest.endpoint)
      modifies this`now, this`trace, service
      ensures Valid() && old(now) <= now <= Later(old(now), expiry + slack) && now <= old(now) + 10.0 + slack
      ensures trace == old(trace) || trace == old(trace) + [StopSent]
      ensures old(now) >= expiry ==> failure == Some(Refusal) && trace == old(trace)
      ensures service.honest ==> service.active == old(service.active) || service.active == old(service.active) - {session}
      ensures Dependable() && old(now) < expiry ==> failure != Some(Refusal)
      ensures Answers(old(now), expiry, 10.0)
              ==> && failure.None? && now <= old(now) + service.pace
                  && service.active == old(service.active) - {session}
    {
      var began := now;
      var ran;
      failure, ran := Command(expiry, 10.0);
      if ran {
        Extended(StopSent);
        trace := trace + [StopSent];
        var refused := service.Stop(session, began);
        failure := if failure.None? then refused else failure;
      }
    }

    /** `colab new`, under a name just seen to be free, once the attempt is on disk. */
    method AskForSession() returns (failure: Option<Failure>)
      requires Valid() && trace != [] && trace[|trace| - 1].Listed? && session !in trace[|trace| - 1].assignments
      requires disk.attempted
      modifies this`trace, service
      ensures Valid() && trace == old(trace) + [Allocating] && service.news == old(service.news) + 1
    {
      Extended(Allocating);
      trace := trace + [Allocating];
      failure := service.New(session);
    }

    /** `sessions`: one listing, at most `seconds` long. */
    method Sessions(deadline: real, seconds: real) returns (r: Result<Assignments, Failure>)
      requires Valid() && seconds > 0.0
      modifies this`now, service
      ensures Valid() && old(now) <= now <= Later(old(now), deadline + slack) && now <= old(now) + seconds + slack
      ensures service.news == old(service.news)
      ensures old(now) >= deadline ==> r == Err(Refusal)
      ensures service.honest ==> service.active == old(service.active) && (r.Ok? ==> r.value == service.active)
      ensures Dependable() && old(now) < deadline ==> r != Err(Refusal)
      ensures Answers(old(now), deadline, seconds) ==> r.Ok? && now <= old(now) + service.pace
    {
      var began := now;
      var failure, _ := Command(deadline, seconds);
      if failure.Some? {
        return Err(failure.value);
      }
      r := service.List(began);
    }

    /** What `owned` does with an answered listing, except that binding an endpoint may fail to be saved. */
    method Judge(assignments: Assignments, cleanup: bool) returns (r: Result<bool, Failure>)
      requires Valid()
      modifies this`manifest, this`disk, this`trace
      ensures Valid() && (old(disk).attempted ==> disk.attempted)
      ensures manifest == old(manifest).(endpoint := manifest.endpoint)
      ensures old(manifest).endpoint.Some? ==> manifest == old(manifest)
      ensures r == Err(Refusal) <==> Decide(session, old(manifest), assignments) == Disowned
      ensures r == Err(Refusal) ==> trace == old(trace) && manifest == old(manifest)
      ensures r != Err(Refusal) ==> trace == old(trace) + [Listed(assignments, manifest.endpoint)]
      ensures r.Ok? ==> Judged(old(manifest), assignments, r.value, manifest)
      ensures r.Err? && r.error != Refusal ==> r.error == SystemError && !cleanup
      ensures r == Ok(true) ==> ShowsOwned(Listed(assignments, manifest.endpoint), session, manifest.endpoint)
      ensures r == Ok(false) && manifest.attempted ==> ShowsAbsent(Listed(assignments, manifest.endpoint), session, manifest.endpoint)
    {
      match Decide(session, manifest, assignments)
      case Disowned =>
        r := Err(Refusal);
      case Absent =>
        Record(Listed(assignments, manifest.endpoint));
        r := Ok(false);
      case Held(endpoint) =>
        var binding := manifest.endpoint.None?;
        if binding {
          SafeBind(trace, session, Some(endpoint));
          manifest := manifest.(endpoint := Some(endpoint));
        }
        Record(Listed(assignments, manifest.endpoint));
        r := Ok(true);
        if binding {
          var saved := Save();
          if !saved && !cleanup {
            r := Err(SystemError);
          }
        }
    }

    /**
     `owned`.  Its answer is backed by the listing it adds to the trace; the endpoint is bound at
     most once, and only by a run that attempted an allocation.
     */
    method Owned(deadline: real, seconds: real, cleanup: bool) returns (r: Result<bool, Failure>)
      requires Valid() && seconds > 0.0
      modifies this`now, this`manifest, this`disk, this`trace, service
      ensures Valid() && Continues() && now <= Later(old(now), deadline + slack) && now <= old(now) + seconds + slack
      ensures manifest == old(manifest).(endpoint := manifest.endpoint) && service.news == old(service.news)
      ensures r.Ok? ==> |trace| > 0 && trace[|trace| - 1].Listed?
      ensures r == Ok(true) ==> ShowsOwned(trace[|trace| - 1], session, manifest.endpoint)
      ensures r == Ok(false) && manifest.attempted ==> ShowsAbsent(trace[|trace| - 1], session, manifest.endpoint)
      ensures old(now) >= deadline ==> r == Err(Refusal)
      ensures service.honest ==> service.active == old(service.active)
      ensures service.honest && r.Ok? ==> trace[|trace| - 1].assignments == service.active
      ensures cleanup && r.Err? ==> manifest == old(manifest)
      ensures service.honest && cleanup && r.Ok? ==> Judged(old(manifest), service.active, r.value, manifest)
      ensures Dependable() && cleanup && r == Err(Refusal) && old(now) < deadline
              ==> Decide(session, old(manifest), service.active) == Disowned
      ensures Answers(old(now), deadline, seconds) && cleanup
              ==> && now <= old(now) + service.pace
                  && (r.Ok? || (r == Err(Refusal) && Decide(session, old(manifest), service.active) == Disowned))
    {
      var answer := Sessions(deadline, seconds);
      if answer.Err? {
        return Err(answer.error);
      }
      r := Judge(answer.value, cleanup);
    }

    /** The answer `held` about these assignments, and the manifest after it. */
    predicate Judged(before: Manifest, assignments: Assignments, held: bool, after: Manifest) {
      match Decide(session, before, assignments)
      case Held(e) => held && after == before.(endpoint := Some(e))
      case Absent => !held && after == before
      case Disowned => false
    }

    lemma JudgedKeeps(before: Manifest, assignments: Assignments, held: bool, after: Manifest)
      requires before.attempted && Judged(before, assignments, held, after)
      ensures Decide(session, after, assignments) == Decide(session, before, assignments)
      ensures Releasable(after, assignments) == Releasable(before, assignments)
    {
    }

    /** The request itself: once the attempt is on disk, and unless the time for work is up. */
    method Ask() returns (ok: bool)
      requires Valid() && trace != [] && trace[|trace| - 1].Listed? && session !in trace[|trace| - 1].assignments
      requires manifest.attempted
      modifies this`now, this`disk, this`trace, service
      ensures Valid() && Continues()
      ensures service.news <= old(service.news) + 1 && (ok ==> service.news == old(service.news) + 1)
      ensures service.news > old(service.news) ==> disk.attempted
    {
      var saved := Save();
      if !saved {
        return false;
      }
      var failure, ran := Command(workExpiry, 180.0);
      if !ran {
        return false;
      }
      var refused := AskForSession();
      ok := failure.None? && refused.None?;
    }

    method Attempt()
      requires Valid()
      modifies this`manifest
      ensures Valid() && manifest == old(manifest).(attempted := true)
    {
      manifest := manifest.(attempted := true);
    }

    /** The name check: nobody has the session's name, and from here on the run has attempted. */
    method Claim() returns (ok: bool)
      requires Valid()
      modifies this`now, this`manifest, this`trace, service
      ensures Valid() && Continues() && service.news == old(service.news)
      ensures manifest == if ok then old(manifest).(attempted := true) else old(manifest)
      ensures ok ==> trace != [] && trace[|trace| - 1].Listed? && session !in trace[|trace| - 1].assignments
    {
      var listing := Sessions(workExpiry, 30.0);
      if listing.Err? || session in listing.value {
        return false;
      }
      Record(Listed(listing.value, manifest.endpoint));
      Attempt();
      ok := true;
    }

    /** From the name check of `run` to its first ownership check: at most one session is ever asked for. */
    method Allocate() returns (ok: bool)
      requires Valid() && !manifest.attempted
      modifies this, service
      ensures Valid() && Continues()
      ensures manifest == old(manifest).(attempted := manifest.attempted, endpoint := manifest.endpoint)
      ensures service.news <= old(service.news) + 1
      ensures service.news > old(service.news) ==> manifest.attempted && disk.attempted
      ensures ok ==> |trace| > 0 && ShowsOwned(trace[|trace| - 1], session, manifest.endpoint)
      ensures ok ==> manifest.attempted && service.news == old(service.news) + 1
    {
      ok := Claim();
      if ok {
        ok := Ask();
      }
      if ok {
        var owned := Owned(workExpiry, 30.0, false);
        ok := owned == Ok(true);
      }
    }

    /** The stop signal, a pause for the runtime to package, and the download, all before `phase`. */
    method Transfer(phase: real) returns (ok: bool)
      requires Valid()
      modifies this`now
      ensures Valid() && old(now) <= now <= Later(old(now), phase + slack)
    {
      ok := false;
      var upload, _ := Command(Earlier(expiry, phase), Later(0.1, (phase - now) / 2.0));
      if upload.None? || upload == Some(TimedOut) {
        var wait: real := *;
        now := now + Later(0.0, Earlier(wait, Earlier(5.0, phase - now)));
        var download, _ := Command(Earlier(expiry, phase), Later(0.1, phase - now));
        ok := download.None?;
      }
    }

    /**
     The bounded export before release: at most 20 seconds, and never more of the remaining
     window than leaves 30 seconds or two thirds of it.
     */
    method Export() returns (ok: bool)
      requires Valid() && manifest.attempted
      modifies this`now, this`manifest, this`disk, this`trace, service
      ensures Valid() && Continues() && manifest.attempted && manifest.released == old(manifest).released
      ensures service.honest && Releasable(old(manifest), old(service.active)) ==> Releasable(manifest, service.active)
      ensures now <= old(now) + EXPORT_SECONDS + slack
      ensures now <= Later(old(now), expiry - Earlier(30.0, Later(0.0, expiry - old(now)) * 2.0 / 3.0) + slack)
      ensures service.honest ==> service.active == old(service.active)
    {
      var remaining := Later(0.0, expiry - now);
      var phase := Earlier(now + EXPORT_SECONDS, expiry - Earlier(30.0, remaining * 2.0 / 3.0));
      ok := false;
      var owned := Owned(Earlier(expiry, phase), 5.0, true);
      if service.honest && owned.Ok? {
        JudgedKeeps(old(manifest), service.active, owned.value, manifest);
      }
      if owned == Ok(true) {
        ok := Transfer(phase);
      } else {
        ok := owned.Ok?;
      }
    }

    /** `final_usage`: at most five seconds and a quarter of what is left. */
    method FinalUsage()
      requires Valid()
      modifies this`now
      ensures Valid() && old(now) <= now
      ensures now <= old(now) + Earlier(FINAL_USAGE_SECONDS, Later(0.0, expiry - old(now)) / 4.0) + slack
    {
      var phase := now + Earlier(FINAL_USAGE_SECONDS, Later(0.0, expiry - now) / 4.0);
      var failure, _ := Command(Earlier(expiry, phase), FINAL_USAGE_SECONDS);
    }

    /** The session is this run's, or already gone, and its endpoint is not also active under another name. */
    predicate Releasable(m: Manifest, active: Assignments) {
      match Decide(session, m, active)
      case Held(e) => forall name :: name in active && name != session ==> active[name] != e
      case Absent => true
      case Disowned => false
    }

    /** A pass begun now against a calm service has time for its three calls. */
    predicate InTime(at: real) {
      orderly && service.Calm(at) && at + 3.0 * service.pace < expiry && service.pace <= 5.0
    }

    /** The first half of a pass of the release loop: stop the session if it is this run's. */
    method StopIfOwned() returns (failure: Option<Failure>)
      requires Valid() && manifest.attempted
      modifies this`now, this`manifest, this`disk, this`trace, service
      ensures Valid() && Continues() && now <= Later(old(now), expiry + slack) && now <= old(now) + 15.0 + 2.0 * slack
      ensures manifest == old(manifest).(endpoint := manifest.endpoint)
      ensures old(now) >= expiry ==> failure == Some(Refusal)
      ensures service.honest && Releasable(old(manifest), old(service.active)) ==> Releasable(manifest, service.active)
      ensures Dependable() && Releasable(old(manifest), old(service.active)) && old(now) < expiry && failure == Some(Refusal)
              ==> expiry <= old(now) + 5.0 + slack
      ensures Releasable(old(manifest), old(service.active)) && InTime(old(now))
              ==> && failure.None? && now <= old(now) + 2.0 * service.pace
                  && Decide(session, manifest, service.active) == Absent
    {
      var owned := Owned(expiry, 5.0, true);
      if owned.Err? {
        return Some(owned.error);
      }
      if service.honest {
        JudgedKeeps(old(manifest), service.active, owned.value, manifest);
      }
      failure := None;
      if owned.value {
        failure := SendStop();
      }
    }

    /** One pass of the release loop: stop what is owned, then look again. */
    method TryRelease() returns (r: Result<bool, Failure>)
      requires Valid() && manifest.attempted
      modifies this`now, this`manifest, this`disk, this`trace, service
      ensures Valid() && Continues()
      ensures now <= Later(old(now), expiry + slack) && now <= old(now) + PASS_SECONDS + 3.0 * slack
      ensures manifest == old(manifest).(endpoint := manifest.endpoint)
      ensures r == Ok(true) ==> |trace| > 0 && ShowsAbsent(trace[|trace| - 1], session, manifest.endpoint)
      ensures r == Ok(true) && service.honest ==> session !in service.active
      ensures old(now) >= expiry ==> r == Err(Refusal)
      ensures service.honest && Releasable(old(manifest), old(service.active)) ==> Releasable(manifest, service.active)
      ensures Dependable() && Releasable(old(manifest), old(service.active)) && old(now) < expiry && r == Err(Refusal)
              ==> expiry <= old(now) + 15.0 + 2.0 * slack
      ensures Releasable(old(manifest), old(service.active)) && InTime(old(now))
              ==> r == Ok(true) && now <= old(now) + 3.0 * service.pace
    {
      var failure := StopIfOwned();
      if failure.Some? {
        return Err(failure.value);
      }
      ghost var before := manifest;
      var owned := Owned(expiry, 5.0, true);
      if service.honest && owned.Ok? {
        JudgedKeeps(before, service.active, owned.value, manifest);
      }
      r := if owned.Ok? then Ok(!owned.value) else Err(owned.error);
    }

    /** The outcome of the loop is noted, in memory and, if it can be written, on disk. */
    method Settle(released: bool)
      requires Valid() && (released ==> |trace| > 0 && ShowsAbsent(trace[|trace| - 1], session, manifest.endpoint))
      modifies this`manifest, this`disk, this`trace
      ensures Valid() && (old(disk).attempted ==> disk.attempted)
      ensures manifest == old(manifest).(released := released)
      ensures trace == old(trace) + if released then [Released] else []
    {
      if released {
        Record(Released);
      }
      manifest := manifest.(released := released);
      var _ := Save();
    }

    /**
     The service is calm now and a pass fits; or it will be, and after the pass that is then under
     way a retry and three answered calls still fit.
     */
    predicate RecoversInTime(at: real) {
      && Dependable() && service.pace <= 5.0
      && if service.calmFrom <= at then at + 3.0 * service.pace < expiry
         else service.calmFrom + PASS_SECONDS + 3.0 * slack + RELEASE_RETRY_SECONDS + 3.0 * service.pace < expiry
    }

    method Retry()
      requires Valid()
      modifies this`retries, this`now
      ensures Valid() && retries == old(retries) + 1 && now == old(now) + RELEASE_RETRY_SECONDS
    {
      retries := retries + 1;
      now := now + RELEASE_RETRY_SECONDS;
    }

    /** A service that recovers in time but was not calm for a whole pass still does after a retry. */
    lemma RetryFits(began: real, ended: real)
      requires RecoversInTime(began) && !InTime(began) && began <= ended <= began + PASS_SECONDS + 3.0 * slack
      ensures ended + RELEASE_RETRY_SECONDS < expiry && RecoversInTime(ended + RELEASE_RETRY_SECONDS)
      ensures began + 15.0 + 2.0 * slack < expiry
    {
    }

    /** One turn of the loop: a pass, then its outcome noted, or a retry if one is allowed and fits. */
    method Turn() returns (more: bool, refused: bool)
      requires Valid() && manifest.attempted
      modifies this, service
      ensures Valid() && Continues() && now <= Later(old(now), expiry + slack)
      ensures more ==> && retries == old(retries) + 1 && old(now) + RELEASE_RETRY_SECONDS <= now < expiry
                       && (Releasable(old(manifest), old(service.active)) && RecoversInTime(old(now))
                           ==> Releasable(manifest, service.active) && RecoversInTime(now))
      ensures !more ==> retries == old(retries) && Outcome(manifest.released, refused)
      ensures !more ==> |trace| >= |old(trace)| + if manifest.released then 1 else 0
      ensures Releasable(old(manifest), old(service.active)) && RecoversInTime(old(now)) ==> more || manifest.released
      ensures Releasable(old(manifest), old(service.active)) && InTime(old(now))
              ==> !more && manifest.released && now <= old(now) + 3.0 * service.pace
    {
      var r := TryRelease();
      if RecoversInTime(old(now)) && !InTime(old(now)) {
        RetryFits(old(now), now);
      }
      refused := r == Err(Refusal);
      more := false;
      if r == Ok(true) {
        Settle(true);
      } else if !refused && now + RELEASE_RETRY_SECONDS < expiry {
        Retry();
        more := true;
      } else {
        Settle(false);
      }
    }

    /** What the loop leaves behind: a release it just saw, or a refusal, or no time for a retry. */
    ghost predicate Outcome(released: bool, refused: bool)
      reads this, service
    {
      if released then
        |trace| > 0 && trace[|trace| - 1] == Released && (service.honest ==> session !in service.active)
      else
        refused || now + RELEASE_RETRY_SECONDS >= expiry
    }

    /**
     The release loop.  It ends by the deadline; it ends unreleased only on a refusal or when no
     retry fits; each retry costs five seconds of the window; an honest service that recovers in
     time, however often it failed before, is released.
     */
    method Release() returns (released: bool, refused: bool)
      requires Valid() && manifest.attempted
      modifies this, service
      ensures Valid() && Continues() && now <= Later(old(now), expiry + slack)
      ensures manifest.released == released && Outcome(released, refused)
      ensures released ==> |trace| > |old(trace)|
      ensures (retries - old(retries)) as real * RELEASE_RETRY_SECONDS <= now - old(now)
      ensures Releasable(old(manifest), old(service.active)) && RecoversInTime(old(now)) ==> released
      ensures Releasable(old(manifest), old(service.active)) && InTime(old(now)) ==> now <= old(now) + 3.0 * service.pace
    {
      ghost var hopeful := Releasable(manifest, service.active) && RecoversInTime(now);
      ghost var calm := Releasable(manifest, service.active) && InTime(now);
      var more := true;
      refused := false;
      while more
        invariant Valid() && Continues() && manifest.attempted && now <= Later(old(now), expiry + slack)
        invariant retries >= old(retries)
        invariant (retries - old(retries)) as real * RELEASE_RETRY_SECONDS <= now - old(now)
        invariant hopeful && more ==> Releasable(manifest, service.active) && RecoversInTime(now)
        invariant calm ==> if more then now == old(now) && Releasable(manifest, service.active) else now <= old(now) + 3.0 * service.pace
        invariant !more ==> Outcome(manifest.released, refused) && (hopeful ==> manifest.released)
        invariant !more && manifest.released ==> |trace| > |old(trace)|
        decreases more, expiry - now
      {
        more, refused := Turn();
      }
      released := manifest.released;
    }

    /** What the two bounded phases before the loop leave of the window, less what their calls overrun. */
    function Left(window: real): real {
      0.75 * (Earlier(30.0, window * 2.0 / 3.0) - slack) - slack
    }

    /**
     Export and the usage query together leave three quarters of 30 seconds, or of two thirds
     of the window, to the release loop, less what their calls overrun.
     */
    method BeforeRelease()
      requires Valid() && manifest.attempted
      modifies this, service
      ensures Valid() && Continues() && manifest.attempted && retries == old(retries)
      ensures slack <= Earlier(30.0, (expiry - old(now)) * 2.0 / 3.0) ==> expiry - now >= Left(expiry - old(now))
      ensures service.honest ==> service.active == old(service.active)
      ensures service.honest && Releasable(old(manifest), old(service.active)) ==> Releasable(manifest, service.active)
      ensures now <= old(now) + EXPORT_SECONDS + FINAL_USAGE_SECONDS + 2.0 * slack
    {
      var _ := Export();
      FinalUsage();
    }

    /** Of the cleanup window, the loop's share holds three answered calls, and so does what follows a recovery. */
    predicate CleanupFits(at: real) {
      && Dependable() && service.pace <= 5.0
      && slack <= Earlier(30.0, (expiry - at) * 2.0 / 3.0) && 3.0 * service.pace < Left(expiry - at)
      && service.calmFrom + PASS_SECONDS + 3.0 * slack + RELEASE_RETRY_SECONDS + 3.0 * service.pace < expiry
    }

    /**
     `_cleanup`: nothing is sent for a run that never asked for a session, and a session it can
     release is released, by a service that recovers in time, whatever the export before it did;
     by a calm one within seconds that a reserve can be compared with.
     */
    method Cleanup() returns (released: bool, refused: bool)
      requires Valid()
      modifies this, service
      ensures Valid() && Continues()
      ensures !manifest.attempted ==> trace == old(trace) && !released
      ensures manifest.attempted ==> manifest.released == released && Outcome(released, refused)
      ensures manifest.attempted && Releasable(old(manifest), old(service.active)) && CleanupFits(old(now)) ==> released
      ensures manifest.attempted && Releasable(old(manifest), old(service.active)) && CleanupFits(old(now)) && service.Calm(old(now))
              ==> now <= old(now) + EXPORT_SECONDS + FINAL_USAGE_SECONDS + 2.0 * slack + 3.0 * service.pace
    {
      released, refused := false, false;
      if manifest.attempted {
        BeforeRelease();
        released, refused := Release();
      }
    }

    /**
     The `stop` command after this controller died at any point: a session it may have asked for
     is not forgotten, and an endpoint it recorded is the one the recovery is held to.
     */
    method Recover(later: real) returns (next: Run)
      requires Valid()
      ensures fresh(next) && next.Valid() && next.session == session && next.manifest == disk
      ensures Allocating in trace ==> next.manifest.attempted
      ensures next.manifest.endpoint.Some? ==> next.manifest.endpoint == manifest.endpoint
      ensures next.manifest.released ==> releasedBefore || Released in trace
      ensures next.now == later && next.expiry == later + 60.0 && next.orderly == orderly
    {
      next := new Run(session, service, disk, later, later + 60.0, later + 60.0, slack, orderly);
    }
  }
}
