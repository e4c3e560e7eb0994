/**
 The compute-unit envelope of a paid session: every observation shrinks the work deadline so
 that spending at the observed rate ends inside the approved cap and above the floor.
 */
module UsageBudget {
  import opened Prelude

  // ---------------------------------------------------------------- bounded histories

  /** `record_history`: a list kept to its last `limit` items beside running totals. */
  class History<T(!new)> {
    const limit: nat
    var items: seq<T>
    var total: nat
    var dropped: nat
    /** Everything ever recorded. */
    ghost var log: seq<T>

    ghost predicate Valid()
      reads this
    {
      && total == |log| && dropped + |items| == total
      && items == log[dropped..]
    }

    /** A manifest may already hold a list, of any length, without totals. */
    constructor (limit: nat, existing: seq<T>)
      ensures Valid() && this.limit == limit && items == existing && log == existing
    {
      this.limit := limit;
      items, total, dropped, log := existing, |existing|, 0, existing;
    }

    method Record(value: T)
      requires Valid()
      modifies this
      ensures Valid() && log == old(log) + [value]
      ensures items == if |log| - old(dropped) > limit then log[|log| - limit..] else log[old(dropped)..]
    {
      items := items + [value];
      log := log + [value];
      total := total + 1;
      var excess := if |items| > limit then |items| - limit else 0;
      items := items[excess..];
      dropped := dropped + excess;
    }
  }

  // ---------------------------------------------------------------- observations and their summary

  datatype Observation = Observation(time: real, balance: real, rate: real, assignments: nat)

  datatype Summary = Summary(first: Observation, last: Observation, minBalance: real, maxRate: real)

  function Min(a: real, b: real): real {
    if b < a then b else a
  }

  function Max(a: real, b: real): real {
    if b > a then b else a
  }

  ghost predicate Summarizes(s: Summary, log: seq<Observation>) {
    && log != [] && s.first == log[0] && s.last == log[|log| - 1]
    && (forall o :: o in log ==> s.minBalance <= o.balance && o.rate <= s.maxRate)
    && (exists o :: o in log && o.balance == s.minBalance)
    && (exists o :: o in log && o.rate == s.maxRate)
  }

  lemma SummaryGrows(s: Summary, log: seq<Observation>, o: Observation)
    requires Summarizes(s, log)
    ensures Summarizes(Summary(s.first, o, Min(s.minBalance, o.balance), Max(s.maxRate, o.rate)), log + [o])
  {
  }

  /** The summary rebuilt from a list that has none. */
  method Rebuild(existing: seq<Observation>) returns (s: Summary)
    requires existing != []
    ensures Summarizes(s, existing)
  {
    var minBalance, maxRate := existing[0].balance, existing[0].rate;
    for i := 1 to |existing|
      invariant Summarizes(Summary(existing[0], existing[i - 1], minBalance, maxRate), existing[..i])
    {
      SummaryGrows(Summary(existing[0], existing[i - 1], minBalance, maxRate), existing[..i], existing[i]);
      assert existing[..i + 1] == existing[..i] + [existing[i]];
      minBalance, maxRate := Min(minBalance, existing[i].balance), Max(maxRate, existing[i].rate);
    }
    assert existing[..|existing|] == existing;
    s := Summary(existing[0], existing[|existing| - 1], minBalance, maxRate);
  }

  // ---------------------------------------------------------------- the envelope

  const STALE_SECONDS := 120.0
  const CU_HISTORY_LIMIT: nat := 32

  /** Floor, cap and cleanup reserve are fixed for a run; `starting` is the first observed balance. */
  datatype Envelope = Envelope(floor: real, cap: real, reserve: real, starting: real)

  function Spent(env: Envelope, balance: real): real {
    Max(0.0, env.starting - balance)
  }

  /** What `budget` demands of an observation before it shrinks the deadline. */
  predicate Admitted(env: Envelope, o: Observation, initial: bool) {
    && (if initial then o.assignments == 0 && o.balance >= env.floor + env.cap else o.assignments <= 1)
    && o.balance > env.floor && Spent(env, o.balance) < env.cap
  }

  function Remaining(env: Envelope, o: Observation): real {
    Min(env.cap - Spent(env, o.balance), o.balance - env.floor)
  }

  function Shrink(env: Envelope, expiry: real, o: Observation): real {
    if o.rate > 0.0 then Min(expiry, o.time + Lasts(Remaining(env, o), o.rate) - env.reserve) else expiry
  }

  /** A poll's answer: a reading, a tool failure or timeout, or output that names no usable numbers. */
  datatype Answer = Reading(balance: real, rate: real, assignments: nat) | PollFailed | Unreadable

  /** A missed poll: the last observation saw the owned assignment, not long ago. */
  predicate Tolerated(summary: Option<Summary>, now: real) {
    summary.Some? && summary.value.last.assignments > 0 && now - summary.value.last.time < STALE_SECONDS
  }

  class Controller {
    const floor: real
    const cap: real
    const reserve: real
    var starting: real
    var workExpiry: real
    var observations: History<Observation>
    var summary: Option<Summary>
    var pollFailures: nat

    ghost predicate Valid()
      reads this, observations
    {
      && observations.Valid() && observations.limit == CU_HISTORY_LIMIT
      && (summary.Some? ==> Summarizes(summary.value, observations.log))
      && (summary.None? ==> observations.dropped == 0)
    }

    constructor (floor: real, cap: real, reserve: real, workExpiry: real, existing: seq<Observation>)
      ensures Valid() && fresh(observations)
      ensures this.floor == floor && this.cap == cap && this.reserve == reserve && this.workExpiry == workExpiry
      ensures observations.log == existing && summary.None?
    {
      this.floor, this.cap, this.reserve, this.workExpiry := floor, cap, reserve, workExpiry;
      starting, summary, pollFailures := 0.0, None, 0;
      observations := new History<Observation>(CU_HISTORY_LIMIT, existing);
    }

    function Env(): Envelope
      reads this
    {
      Envelope(floor, cap, reserve, starting)
    }

    /** `observe_usage`, once the reading parsed: the log grows by it and the summary stays that of the whole log. */
    method Observe(o: Observation)
      requires Valid()
      modifies this`summary, observations
      ensures Valid() && observations.log == old(observations.log) + [o]
      ensures summary.Some?
      ensures |observations.items| <= CU_HISTORY_LIMIT
    {
      if summary.None? && observations.items != [] {
        var rebuilt := Rebuild(observations.items);
        assert observations.items == observations.log;
        summary := Some(rebuilt);
      }
      ghost var log := observations.log;
      observations.Record(o);
      if summary.Some? {
        var s := summary.value;
        SummaryGrows(s, log, o);
        summary := Some(Summary(s.first, o, Min(s.minBalance, o.balance), Max(s.maxRate, o.rate)));
      } else {
        assert observations.log == [o];
        summary := Some(Summary(o, o, o.balance, o.rate));
      }
    }

    /**
     `budget`; a refusal is an `Err` and ends the run.  A poll that could not run is tolerated
     only while the last observation is recent and saw the owned assignment.
     */
    method Budget(answer: Answer, now: real, initial: bool) returns (r: Result<(), ()>)
      requires Valid()
      modifies this, observations
      ensures Valid() && observations == old(observations)
      ensures workExpiry <= old(workExpiry)
      ensures answer.Reading? ==>
                var o := Observation(now, answer.balance, answer.rate, answer.assignments);
                var env := Envelope(floor, cap, reserve, if initial then o.balance else old(starting));
                && observations.log == old(observations.log) + [o]
                && (r.Ok? <==> Admitted(env, o, initial))
                && (r.Ok? ==> Env() == env && workExpiry == Shrink(env, old(workExpiry), o))
      ensures !answer.Reading? ==>
                && observations.log == old(observations.log) && workExpiry == old(workExpiry) && starting == old(starting)
                && (r.Ok? <==> answer.PollFailed? && !initial && Tolerated(old(summary), now))
      ensures r.Err? && !initial ==> workExpiry == old(workExpiry) && starting == old(starting)
    {
      if answer.Unreadable? || (answer.PollFailed? && initial) {
        return Err(());
      }
      if answer.PollFailed? {
        if !Tolerated(summary, now) {
          return Err(());
        }
        pollFailures := pollFailures + 1;
        return Ok(());
      }
      var o := Observation(now, answer.balance, answer.rate, answer.assignments);
      Observe(o);
      if initial {
        if o.assignments > 0 {
          return Err(());
        }
        starting := o.balance;
        if o.balance < floor + cap {
          return Err(());
        }
      } else if o.assignments > 1 {
        return Err(());
      }
      if o.balance <= floor {
        return Err(());
      }
      var spent := Max(0.0, starting - o.balance);
      if spent >= cap {
        return Err(());
      }
      if o.rate > 0.0 {
        var remaining := Min(cap - spent, o.balance - floor);
        workExpiry := Min(workExpiry, now + remaining / o.rate * 3600.0 - reserve);
      }
      r := Ok(());
    }

    /** The supervision loop of `run`, at the moments it polls: the deadline is checked before each poll. */
    method Supervise(polls: seq<Poll>) returns (r: Result<(), ()>, ghost os: seq<Observation>)
      requires Valid()
      modifies this, observations
      ensures Valid() && observations == old(observations) && starting == old(starting)
      ensures workExpiry == ExpiryAfter(old(Env()), old(workExpiry), os)
      ensures forall o :: o in os ==> Admitted(old(Env()), o, false)
      ensures InTime(old(Env()), old(workExpiry), os)
    {
      os := [];
      r := Ok(());
      for i := 0 to |polls|
        invariant Valid() && observations == old(observations) && starting == old(starting)
        invariant workExpiry == ExpiryAfter(old(Env()), old(workExpiry), os)
        invariant forall o :: o in os ==> Admitted(old(Env()), o, false)
        invariant InTime(old(Env()), old(workExpiry), os)
      {
        if polls[i].now >= workExpiry {
          return Err(()), os;
        }
        r := Budget(polls[i].answer, polls[i].now, false);
        if r.Err? {
          return r, os;
        }
        if polls[i].answer.Reading? {
          var a := polls[i].answer;
          ghost var o := Observation(polls[i].now, a.balance, a.rate, a.assignments);
          InTimeSnoc(old(Env()), old(workExpiry), os, o);
          os := os + [o];
        }
      }
    }
  }

  datatype Poll = Poll(now: real, answer: Answer)

  // ---------------------------------------------------------------- over any sequence of polls

  /** The deadline after the admitted observations of a run; failed polls leave it alone. */
  function ExpiryAfter(env: Envelope, expiry: real, os: seq<Observation>): real {
    if os == [] then expiry else Shrink(env, ExpiryAfter(env, expiry, os[..|os| - 1]), os[|os| - 1])
  }

  /** Each observation was made before the deadline the ones before it left. */
  ghost predicate InTime(env: Envelope, expiry: real, os: seq<Observation>) {
    forall i :: 0 <= i < |os| ==> os[i].time < ExpiryAfter(env, expiry, os[..i])
  }

  lemma InTimeSnoc(env: Envelope, expiry: real, os: seq<Observation>, o: Observation)
    requires InTime(env, expiry, os) && o.time < ExpiryAfter(env, expiry, os)
    ensures InTime(env, expiry, os + [o])
    ensures ExpiryAfter(env, expiry, os + [o]) == Shrink(env, ExpiryAfter(env, expiry, os), o)
  {
    var more := os + [o];
    assert more[..|os|] == os;
    forall i | 0 <= i < |more|
      ensures more[i].time < ExpiryAfter(env, expiry, more[..i])
    {
      if i < |os| {
        assert more[..i] == os[..i];
      }
    }
  }

  lemma {:induction false} ExpiryNeverGrows(env: Envelope, expiry: real, os: seq<Observation>, i: nat)
    requires i <= |os|
    ensures ExpiryAfter(env, expiry, os) <= ExpiryAfter(env, expiry, os[..i])
    decreases |os|
  {
    if i < |os| {
      var init := os[..|os| - 1];
      ExpiryNeverGrows(env, expiry, init, i);
      assert init[..i] == os[..i];
    } else {
      assert os[..i] == os;
    }
  }

  /**
   The cap and the floor hold to the end of the reserve: whatever polls follow, if the balance
   after an observation never falls faster than its positive rate, then until the final
   deadline plus the reserve no more than the cap is spent and the floor is kept.
   */
  lemma {:induction false} SpendStaysInside(env: Envelope, expiry: real, os: seq<Observation>, i: nat, balanceAt: real -> real, t: real)
    requires i < |os| && os[i].rate > 0.0
    requires os[i].time <= t <= ExpiryAfter(env, expiry, os) + env.reserve
    requires os[i].balance - balanceAt(t) <= Burn(os[i].rate, t - os[i].time)
    ensures env.starting - balanceAt(t) <= env.cap
    ensures balanceAt(t) >= env.floor
  {
    var o := os[i];
    DeadlineBound(env, expiry, os, i);
    BurnWithin(o.rate, t - o.time, Remaining(env, o));
    InsideAfterBurn(env, o, balanceAt(t), Burn(o.rate, t - o.time));
  }

  /** Units burnt in some seconds at an hourly rate. */
  function Burn(rate: real, seconds: real): real {
    rate * seconds / 3600.0
  }

  /** Seconds until an hourly rate has burnt some units. */
  function Lasts(units: real, rate: real): real
    requires rate > 0.0
  {
    units / rate * 3600.0
  }

  lemma BurnWithin(rate: real, seconds: real, units: real)
    requires rate > 0.0 && seconds <= Lasts(units, rate)
    ensures Burn(rate, seconds) <= units
  {
    var hours := seconds / 3600.0;
    assert hours <= units / rate;
    assert rate * hours <= rate * (units / rate) == units;
    assert Burn(rate, seconds) == rate * hours;
  }

  /** The final deadline plus the reserve is no later than the observed rate exhausts what remained. */
  lemma {:induction false} DeadlineBound(env: Envelope, expiry: real, os: seq<Observation>, i: nat)
    requires i < |os| && os[i].rate > 0.0
    ensures ExpiryAfter(env, expiry, os) + env.reserve <= os[i].time + Lasts(Remaining(env, os[i]), os[i].rate)
  {
    ExpiryNeverGrows(env, expiry, os, i + 1);
    assert os[..i + 1][..i] == os[..i] && os[..i + 1][i] == os[i];
    ShrinkBound(env, ExpiryAfter(env, expiry, os[..i]), os[i]);
  }

  lemma ShrinkBound(env: Envelope, expiry: real, o: Observation)
    requires o.rate > 0.0
    ensures Shrink(env, expiry, o) + env.reserve <= o.time + Lasts(Remaining(env, o), o.rate)
  {
  }

  lemma InsideAfterBurn(env: Envelope, o: Observation, balance: real, burn: real)
    requires o.balance - balance <= burn <= Remaining(env, o)
    ensures env.starting - balance <= env.cap && balance >= env.floor
  {
  }
}
