/**
 Output accounting of the session controller: pools of raw-output allowance shared by every
 captured child, and the drain that keeps a fixed prefix of each of a child's two streams.
 */
module CaptureBudget {
  import opened Prelude

  const STREAM_LIMIT: nat := 64 * 1024

  datatype Pool = Work | Export | Release

  function Limit(pool: Pool): nat {
    match pool
    case Work => 4 * 1024 * 1024
    case Export => 256 * 1024
    case Release => 512 * 1024
  }

  /** An amount per pool. */
  datatype Pools = Pools(work: int, export_: int, release: int)
  {
    function Of(pool: Pool): int {
      match pool
      case Work => work
      case Export => export_
      case Release => release
    }

    function With(pool: Pool, n: int): Pools {
      match pool
      case Work => this.(work := n)
      case Export => this.(export_ := n)
      case Release => this.(release := n)
    }

    /** What a persisted record must satisfy. */
    predicate WithinLimits() {
      0 <= work <= Limit(Work) && 0 <= export_ <= Limit(Export) && 0 <= release <= Limit(Release)
    }
  }

  /** One reservation ever granted: open, or closed with the bytes its log holds. */
  datatype Ticket = Ticket(pool: Pool, size: nat, open: bool, written: nat)

  /** An open reservation is charged in full, a closed one for what it wrote. */
  function Charge(t: Ticket): nat {
    if t.open then t.size else t.written
  }

  function Charged(tickets: seq<Ticket>, pool: Pool): nat {
    if tickets == [] then 0
    else Charged(tickets[..|tickets| - 1], pool)
         + if tickets[|tickets| - 1].pool == pool then Charge(tickets[|tickets| - 1]) else 0
  }

  lemma ChargedSnoc(tickets: seq<Ticket>, t: Ticket, pool: Pool)
    ensures Charged(tickets + [t], pool) == Charged(tickets, pool) + if t.pool == pool then Charge(t) else 0
  {
    assert (tickets + [t])[..|tickets|] == tickets;
  }

  lemma {:induction false} ChargedUpdate(tickets: seq<Ticket>, i: nat, t: Ticket, pool: Pool)
    requires i < |tickets| && t.pool == tickets[i].pool
    ensures Charged(tickets[i := t], pool) + (if t.pool == pool then Charge(tickets[i]) else 0)
         == Charged(tickets, pool) + if t.pool == pool then Charge(t) else 0
  {
    var init := tickets[..|tickets| - 1];
    if i < |init| {
      ChargedUpdate(init, i, t, pool);
      assert tickets[i := t][..|init|] == init[i := t];
    } else {
      assert tickets[i := t][..|init|] == init;
    }
  }

  /** The budget's invariant: each pool within its limit, and charged for every reservation on it. */
  ghost predicate Covers(used: Pools, tickets: seq<Ticket>) {
    && Charged(tickets, Work) <= used.work <= Limit(Work)
    && Charged(tickets, Export) <= used.export_ <= Limit(Export)
    && Charged(tickets, Release) <= used.release <= Limit(Release)
  }

  lemma Granting(used: Pools, tickets: seq<Ticket>, pool: Pool, size: nat)
    requires Covers(used, tickets) && size <= Limit(pool) - used.Of(pool)
    ensures Covers(used.With(pool, used.Of(pool) + size), tickets)
    ensures Covers(used.With(pool, used.Of(pool) + size), tickets + [Ticket(pool, size, true, 0)])
  {
    ChargedSnoc(tickets, Ticket(pool, size, true, 0), Work);
    ChargedSnoc(tickets, Ticket(pool, size, true, 0), Export);
    ChargedSnoc(tickets, Ticket(pool, size, true, 0), Release);
  }

  lemma Closing(used: Pools, tickets: seq<Ticket>, i: nat, written: nat)
    requires Covers(used, tickets) && i < |tickets| && tickets[i].open && written <= tickets[i].size
    ensures Covers(used.With(tickets[i].pool, used.Of(tickets[i].pool) - (tickets[i].size - written)),
                   tickets[i := Ticket(tickets[i].pool, tickets[i].size, false, written)])
    ensures Covers(used, tickets[i := Ticket(tickets[i].pool, tickets[i].size, false, written)])
  {
    var closed := Ticket(tickets[i].pool, tickets[i].size, false, written);
    ChargedUpdate(tickets, i, closed, Work);
    ChargedUpdate(tickets, i, closed, Export);
    ChargedUpdate(tickets, i, closed, Release);
  }

  class Budget {
    var used: Pools
    var unavailable: bool
    /** The record on disk, `None` when it is absent. */
    var disk: Option<Pools>
    /** Every reservation granted so far. */
    ghost var tickets: seq<Ticket>

    /** Whatever was granted is covered in memory, and by the record a recovery would start from. */
    ghost predicate Valid()
      reads this
    {
      && Covers(used, tickets)
      && (tickets != [] ==> disk.Some? && Covers(disk.value, tickets))
      && (!unavailable && disk.Some? ==> disk.value == used)
      && (!unavailable && disk.None? ==> tickets == [])
    }

    /** `stored` is the persisted record, `None` when it is absent; an invalid one makes the budget unavailable. */
    constructor (stored: Option<Pools>)
      ensures Valid() && tickets == [] && disk == stored
      ensures unavailable <==> stored.Some? && !stored.value.WithinLimits()
      ensures stored.Some? && stored.value.WithinLimits() ==> used == stored.value
      ensures !(stored.Some? && stored.value.WithinLimits()) ==> used == Pools(0, 0, 0)
    {
      if stored.Some? && stored.value.WithinLimits() {
        used, unavailable := stored.value, false;
      } else {
        used, unavailable := Pools(0, 0, 0), stored.Some?;
      }
      disk, tickets := stored, [];
    }

    /** `private_json` on the budget file: it replaces the record whole, or raises and leaves it. */
    method Persist() returns (ok: bool)
      modifies this`disk
      ensures disk == if ok then Some(used) else old(disk)
    {
      ok := *;
      if ok {
        disk := Some(used);
      }
    }

    /** Charge a reservation and persist it; without the record there is no reservation. */
    method Grant(pool: Pool, size: nat) returns (ok: bool)
      requires Valid() && !unavailable && 0 < size <= Limit(pool) - used.Of(pool)
      modifies this
      ensures Valid() && unavailable == !ok
      ensures used == old(used).With(pool, old(used).Of(pool) + size)
      ensures tickets == if ok then old(tickets) + [Ticket(pool, size, true, 0)] else old(tickets)
    {
      Granting(used, tickets, pool, size);
      used := used.With(pool, used.Of(pool) + size);
      ok := Persist();
      if ok {
        tickets := tickets + [Ticket(pool, size, true, 0)];
      } else {
        unavailable := true;
      }
    }

    /**
     `reserve`: work demands its full allowance, the other pools take what is left, down to
     nothing.  A reservation that could not be persisted is refused, but stays charged.
     */
    method Reserve(pool: Pool) returns (r: Result<nat, ()>)
      requires Valid()
      modifies this
      ensures Valid()
      ensures used == old(used).With(pool, used.Of(pool)) && old(used).Of(pool) <= used.Of(pool)
      ensures r.Ok? && (r.value > 0 || !unavailable) ==> used.Of(pool) == old(used).Of(pool) + r.value
      ensures tickets == if r.Ok? && r.value > 0 then old(tickets) + [Ticket(pool, r.value, true, 0)] else old(tickets)
      ensures r.Ok? ==> r.value <= 2 * STREAM_LIMIT && (pool == Work ==> r.value == 2 * STREAM_LIMIT)
      ensures r.Ok? && !unavailable ==> r.value == Least(2 * STREAM_LIMIT, Limit(pool) - old(used).Of(pool))
      ensures r.Err? ==> pool == Work && (unavailable || Limit(pool) - old(used).Of(pool) < 2 * STREAM_LIMIT)
      ensures old(unavailable) ==> used == old(used) && unavailable
    {
      var available := if unavailable then 0 else Limit(pool) - used.Of(pool);
      var size: nat := Least(2 * STREAM_LIMIT, available);
      if pool == Work && size < 2 * STREAM_LIMIT {
        return Err(());
      }
      if size == 0 {
        return Ok(0);
      }
      var ok := Grant(pool, size);
      if !ok {
        return if pool == Work then Err(()) else Ok(0);
      }
      r := Ok(size);
    }

    /** `finish`: give back what the reservation did not write.  A reservation of nothing holds no ticket. */
    method Finish(pool: Pool, reserved: nat, written: nat, ghost ticket: nat)
      requires Valid() && written <= reserved
      requires reserved > 0 ==> ticket < |tickets| && tickets[ticket] == Ticket(pool, reserved, true, 0)
      modifies this
      ensures Valid()
      ensures used == old(used).With(pool, old(used).Of(pool) - (reserved - written))
      ensures tickets == if reserved > 0 then old(tickets)[ticket := Ticket(pool, reserved, false, written)] else old(tickets)
      ensures old(unavailable) ==> unavailable
    {
      if reserved > 0 {
        Closing(used, tickets, ticket, written);
        if disk.Some? {
          Closing(disk.value, tickets, ticket, written);
        }
        tickets := tickets[ticket := Ticket(pool, reserved, false, written)];
      }
      used := used.With(pool, used.Of(pool) - (reserved - written));
      if !unavailable {
        var ok := Persist();
        unavailable := !ok;
      }
    }
  }

  function Least(a: int, b: int): int {
    if a < b then a else b
  }

  // ---------------------------------------------------------------- the drain

  datatype Stream = Stdout | Stderr

  function Prefix(data: Bytes): Bytes {
    if |data| <= STREAM_LIMIT then data else data[..STREAM_LIMIT]
  }

  /**
   What the drain thread meets: bytes ready on a pipe, a read that would block, the end of a
   pipe, the grace after the child's exit running out, or a failing read.  `accepted` is how
   many of the bytes offered to it the log took, `None` when the log failed.
   */
  datatype Event =
    | Data(stream: Stream, bytes: Bytes, accepted: Option<nat>)
    | WouldBlock
    | End(stream: Stream)
    | GraceOver(probe: Per<seq<Event>>)
    | Failed

  /** A value per stream. */
  datatype Per<T> = Per(stdout: T, stderr: T)
  {
    function Of(s: Stream): T {
      if s.Stdout? then stdout else stderr
    }

    function With(s: Stream, v: T): Per<T> {
      if s.Stdout? then this.(stdout := v) else this.(stderr := v)
    }
  }

  datatype Kept = Kept(output: Bytes, size: nat, truncated: bool)

  /** What is kept of everything read from one pipe, `forced` being the truncation marked at the end. */
  ghost predicate Keeps(k: Kept, received: Bytes, forced: bool, retain: bool) {
    && k.size == |Prefix(received)|
    && k.output == (if retain then Prefix(received) else [])
    && (k.truncated <==> |received| > STREAM_LIMIT || forced)
  }

  /**
   How a stream is reported after its drain: the first 64 KiB read; marked truncated just when a
   byte read was dropped, its pipe had not ended, or reading failed; so unmarked means complete.
   */
  ghost predicate Reported(k: Kept, received: Bytes, open: bool, failed: bool, retain: bool) {
    && (k.truncated <==> |received| > STREAM_LIMIT || open || failed)
    && (retain ==> k.output == Prefix(received))
    && (retain && !k.truncated ==> !open && k.output == received)
  }

  /** The bytes of a chunk that still fit the prefix. */
  function Room(k: Kept, data: Bytes): Bytes {
    var room := if k.size <= STREAM_LIMIT then STREAM_LIMIT - k.size else 0;
    if |data| <= room then data else data[..room]
  }

  function Absorb(k: Kept, data: Bytes, retain: bool): Kept {
    var kept := Room(k, data);
    Kept(if retain then k.output + kept else k.output, k.size + |kept|, k.truncated || |kept| != |data|)
  }

  lemma PrefixGrows(k: Kept, received: Bytes, data: Bytes)
    requires k.size == |Prefix(received)|
    ensures Prefix(received + data) == Prefix(received) + Room(k, data)
  {
  }

  lemma AbsorbKeeps(k: Kept, received: Bytes, forced: bool, retain: bool, data: Bytes)
    requires Keeps(k, received, forced, retain)
    ensures Keeps(Absorb(k, data, retain), received + data, forced, retain)
  {
    PrefixGrows(k, received, data);
  }

  // ---------------------------------------------------------------- the log

  /** A chunk of kept output offered to a stream's log, and how many of its first bytes the log took. */
  datatype Offer = Offer(chunk: Bytes, accepted: nat)
  {
    function Taken(): Bytes {
      if accepted <= |chunk| then chunk[..accepted] else chunk
    }
  }

  /** The kept output, chunk by chunk. */
  function Whole(offers: seq<Offer>): Bytes {
    if offers == [] then [] else Whole(offers[..|offers| - 1]) + offers[|offers| - 1].chunk
  }

  /** What the log holds. */
  function LogOf(offers: seq<Offer>): Bytes {
    if offers == [] then [] else LogOf(offers[..|offers| - 1]) + offers[|offers| - 1].Taken()
  }

  lemma OfferSnoc(offers: seq<Offer>, o: Offer)
    ensures Whole(offers + [o]) == Whole(offers) + o.chunk && LogOf(offers + [o]) == LogOf(offers) + o.Taken()
  {
    assert (offers + [o])[..|offers|] == offers;
  }

  lemma WholeStep(offers: seq<Offer>, o: Offer, k: Kept, received: Bytes, data: Bytes)
    requires Whole(offers) == Prefix(received) && k.size == |Prefix(received)| && o.chunk == Room(k, data)
    ensures Whole(offers + [o]) == Prefix(received + data) && LogOf(offers + [o]) == LogOf(offers) + o.Taken()
  {
    OfferSnoc(offers, o);
    PrefixGrows(k, received, data);
  }

  /** The position in the kept output of each byte of the log. */
  function Positions(offers: seq<Offer>): seq<nat> {
    if offers == [] then []
    else
      var before, last := offers[..|offers| - 1], offers[|offers| - 1];
      Positions(before) + Range(|Whole(before)|, |last.Taken()|)
  }

  function Range(from: nat, count: nat): (positions: seq<nat>)
    ensures |positions| == count && forall i :: 0 <= i < count ==> positions[i] == from + i
  {
    seq(count, i requires 0 <= i < count => from + i)
  }

  /** Each byte of a log is the byte of the kept output at its position. */
  lemma {:induction false} LogStandsAt(offers: seq<Offer>, i: nat)
    requires i < |LogOf(offers)|
    ensures |LogOf(offers)| == |Positions(offers)|
    ensures Positions(offers)[i] < |Whole(offers)| && LogOf(offers)[i] == Whole(offers)[Positions(offers)[i]]
  {
    var before := offers[..|offers| - 1];
    SameLength(offers);
    SameLength(before);
    if i < |LogOf(before)| {
      LogStandsAt(before, i);
    }
  }

  lemma {:induction false} SameLength(offers: seq<Offer>)
    ensures |LogOf(offers)| == |Positions(offers)| <= |Whole(offers)|
    ensures |Positions(offers)| == |Whole(offers)| <==> AllTaken(offers)
  {
    if offers != [] {
      SameLength(offers[..|offers| - 1]);
    }
  }

  /** Every chunk was taken whole. */
  predicate AllTaken(offers: seq<Offer>) {
    offers == [] || (offers[|offers| - 1].accepted >= |offers[|offers| - 1].chunk| && AllTaken(offers[..|offers| - 1]))
  }

  /** The log is the kept output cut at some position: its bytes stand where they were kept. */
  ghost predicate Cut(offers: seq<Offer>) {
    CountsUp(Positions(offers))
  }

  /** After a chunk that was not taken whole the log took nothing more. */
  predicate NothingAfterShort(offers: seq<Offer>) {
    offers == []
    || (NothingAfterShort(offers[..|offers| - 1]) && (offers[|offers| - 1].Taken() == [] || AllTaken(offers[..|offers| - 1])))
  }

  lemma CutStep(before: seq<Offer>, last: Offer)
    ensures Cut(before + [last]) <==> Cut(before) && (last.Taken() == [] || |Positions(before)| == |Whole(before)|)
  {
    assert (before + [last])[..|before|] == before;
    CountsOn(Positions(before), |Whole(before)|, |last.Taken()|);
  }

  ghost predicate CountsUp(positions: seq<nat>) {
    forall i :: 0 <= i < |positions| ==> positions[i] == i
  }

  /** A list counts up from 0 with a range behind it just when the range goes on where the list ends. */
  lemma CountsOn(head: seq<nat>, from: nat, count: nat)
    ensures CountsUp(head + Range(from, count)) <==> CountsUp(head) && (count == 0 || |head| == from)
  {
    var tail := Range(from, count);
    var all := head + tail;
    if CountsUp(all) {
      assert forall i :: 0 <= i < |head| ==> head[i] == all[i];
      assert count > 0 ==> all[|head|] == tail[0];
    }
    if CountsUp(head) && (count == 0 || |head| == from) {
      forall i | 0 <= i < |all|
        ensures all[i] == i
      {
        assert all[i] == if i < |head| then head[i] else tail[i - |head|];
      }
    }
  }

  /** Exactly when a log is a cut of the kept output: nothing is taken after the first short write. */
  lemma {:induction false} LogIsCutIff(offers: seq<Offer>)
    ensures Cut(offers) <==> NothingAfterShort(offers)
  {
    if offers != [] {
      var before, last := offers[..|offers| - 1], offers[|offers| - 1];
      assert offers == before + [last];
      LogIsCutIff(before);
      SameLength(before);
      CutStep(before, last);
    }
  }

  /** A log that is a cut of the kept output is one of its prefixes. */
  lemma CutLogIsPrefix(offers: seq<Offer>)
    requires NothingAfterShort(offers)
    ensures LogOf(offers) <= Whole(offers)
  {
    LogIsCutIff(offers);
    SameLength(offers);
    forall i | 0 <= i < |LogOf(offers)|
      ensures LogOf(offers)[i] == Whole(offers)[i]
    {
      LogStandsAt(offers, i);
    }
  }

  // ---------------------------------------------------------------- both streams

  ghost predicate KeepsBoth(kept: Per<Kept>, received: Per<Bytes>, forced: set<Stream>, retain: bool) {
    && Keeps(kept.stdout, received.stdout, Stdout in forced, retain)
    && Keeps(kept.stderr, received.stderr, Stderr in forced, retain)
  }

  ghost predicate LogsBoth(offers: Per<seq<Offer>>, received: Per<Bytes>, written: nat) {
    && Whole(offers.stdout) == Prefix(received.stdout) && Whole(offers.stderr) == Prefix(received.stderr)
    && written == |LogOf(offers.stdout)| + |LogOf(offers.stderr)|
  }

  lemma KeepsBothStep(kept: Per<Kept>, received: Per<Bytes>, forced: set<Stream>, retain: bool, s: Stream, data: Bytes)
    requires KeepsBoth(kept, received, forced, retain)
    ensures KeepsBoth(kept.With(s, Absorb(kept.Of(s), data, retain)), received.With(s, received.Of(s) + data), forced, retain)
  {
    AbsorbKeeps(kept.Of(s), received.Of(s), s in forced, retain, data);
  }

  lemma LogsBothStep(
    offers: Per<seq<Offer>>, kept: Per<Kept>, received: Per<Bytes>, forced: set<Stream>, retain: bool, written: nat,
    s: Stream, data: Bytes, o: Offer)
    requires LogsBoth(offers, received, written) && KeepsBoth(kept, received, forced, retain) && o.chunk == Room(kept.Of(s), data)
    ensures LogsBoth(offers.With(s, offers.Of(s) + [o]), received.With(s, received.Of(s) + data), written + |o.Taken()|)
  {
    WholeStep(offers.Of(s), o, kept.Of(s), received.Of(s), data);
  }

  // ---------------------------------------------------------------- what events say

  /** The end of the pipe was among the events. */
  predicate Ended(events: seq<Event>, s: Stream) {
    events != [] && (events[|events| - 1] == End(s) || Ended(events[..|events| - 1], s))
  }

  /** Everything read from a pipe, up to its end, in the order it was read. */
  function ReadFrom(events: seq<Event>, s: Stream): Bytes {
    if events == [] then []
    else
      var before, last := events[..|events| - 1], events[|events| - 1];
      ReadFrom(before, s) + if last.Data? && last.stream == s && !Ended(before, s) then last.bytes else []
  }

  lemma {:induction false} NothingAfterEnd(events: seq<Event>, i: nat, s: Stream)
    requires i <= |events| && Ended(events[..i], s)
    ensures Ended(events, s) && ReadFrom(events, s) == ReadFrom(events[..i], s)
    decreases |events|
  {
    if i < |events| {
      var before := events[..|events| - 1];
      assert before[..i] == events[..i];
      NothingAfterEnd(before, i, s);
    } else {
      assert events[..i] == events;
    }
  }

  /** Both pipes were read exactly as these events say. */
  ghost predicate Follows(received: Per<Bytes>, open: set<Stream>, events: seq<Event>) {
    && received.stdout == ReadFrom(events, Stdout) && received.stderr == ReadFrom(events, Stderr)
    && (Stdout in open <==> !Ended(events, Stdout)) && (Stderr in open <==> !Ended(events, Stderr))
  }

  /** What one event, neither an error nor the grace, does to both. */
  ghost predicate Read(received: Per<Bytes>, open: set<Stream>, e: Event, received': Per<Bytes>, open': set<Stream>) {
    match e
    case Data(s, bytes, _) => open' == open && received' == if s in open then received.With(s, received.Of(s) + bytes) else received
    case End(s) => open' == open - {s} && received' == received
    case _ => open' == open && received' == received
  }

  lemma FollowsStep(received: Per<Bytes>, open: set<Stream>, before: seq<Event>, e: Event, received': Per<Bytes>, open': set<Stream>)
    requires Follows(received, open, before) && Read(received, open, e, received', open')
    ensures Follows(received', open', before + [e])
  {
    assert (before + [e])[..|before|] == before;
  }

  /** Once both pipes ended, the events left unread say nothing more. */
  lemma AllFollowed(received: Per<Bytes>, open: set<Stream>, events: seq<Event>, i: nat)
    requires i <= |events| && Follows(received, open, events[..i]) && (i == |events| || open == {})
    ensures Follows(received, open, events)
  {
    if i == |events| {
      assert events[..i] == events;
    } else {
      NothingAfterEnd(events, i, Stdout);
      NothingAfterEnd(events, i, Stderr);
    }
  }

  /** Neither cut short nor failed: the drain goes on to the end of both pipes, or to its stop. */
  predicate Plain(events: seq<Event>) {
    events == [] || (Plain(events[..|events| - 1]) && !events[|events| - 1].GraceOver? && !events[|events| - 1].Failed?)
  }

  lemma {:induction false} PlainAt(events: seq<Event>, i: nat)
    requires Plain(events) && i < |events|
    ensures !events[i].GraceOver? && !events[i].Failed?
  {
    if i < |events| - 1 {
      PlainAt(events[..|events| - 1], i);
    }
  }

  /** Over plain events nothing cuts the drain short, and it reads what they say. */
  ghost predicate Progress(events: seq<Event>, i: nat, received: Per<Bytes>, open: set<Stream>, cut: bool)
    requires i <= |events|
  {
    Plain(events) ==> !cut && Follows(received, open, events[..i])
  }

  lemma ProgressStep(
    events: seq<Event>, i: nat, received: Per<Bytes>, open: set<Stream>, received': Per<Bytes>, open': set<Stream>, cut: bool)
    requires i < |events| && Progress(events, i, received, open, false)
    requires cut ==> events[i].GraceOver? || events[i].Failed?
    requires !events[i].GraceOver? ==> Read(received, open, events[i], received', open')
    ensures Progress(events, i + 1, received', open', cut)
  {
    if Plain(events) {
      PlainAt(events, i);
      assert events[..i + 1] == events[..i] + [events[i]];
      FollowsStep(received, open, events[..i], events[i], received', open');
    }
  }

  lemma ProgressEnds(events: seq<Event>, i: nat, received: Per<Bytes>, open: set<Stream>, cut: bool)
    requires i <= |events| && Progress(events, i, received, open, cut) && (i == |events| || open == {} || cut)
    ensures Plain(events) ==> !cut && Follows(received, open, events)
  {
    if Plain(events) {
      AllFollowed(received, open, events, i);
    }
  }

  class ProcessCapture {
    const pool: Pool
    const reserved: nat
    const retain: bool
    var kept: Per<Kept>
    var open: set<Stream>
    var logs: set<Stream>
    var written: nat
    var logFailed: bool
    /** Every byte read from each pipe, and the streams marked truncated although nothing was seen dropped. */
    ghost var received: Per<Bytes>
    ghost var forced: set<Stream>
    /** Every chunk offered to each stream's log. */
    ghost var offers: Per<seq<Offer>>

    ghost predicate Valid()
      reads this
    {
      written <= reserved && KeepsBoth(kept, received, forced, retain)
    }

    /** What was offered to a log is the kept output, and `written` counts what the logs took. */
    ghost predicate Logged()
      reads this`offers, this`received, this`written
    {
      LogsBoth(offers, received, written)
    }

    constructor (pool: Pool, reserved: nat, retain: bool, logs: set<Stream>)
      ensures Valid() && Logged() && this.pool == pool && this.reserved == reserved && this.retain == retain
      ensures received == Per([], []) && forced == {} && open == {Stdout, Stderr} && written == 0
      ensures this.logs == logs && offers == Per([], [])
    {
      this.pool, this.reserved, this.retain, this.logs := pool, reserved, retain, logs;
      kept, received := Per(Kept([], 0, false), Kept([], 0, false)), Per([], []);
      open, forced, written, logFailed := {Stdout, Stderr}, {}, 0, false;
      offers := Per([], []);
    }

    /** How many bytes of a chunk the log takes: no more than the reservation still allows, and maybe fewer. */
    function Share(s: Stream, chunk: Bytes, accepted: Option<nat>): nat
      requires written <= reserved
      reads this
    {
      if s in logs && accepted.Some? then Least(accepted.value, Least(|chunk|, reserved - written)) else 0
    }

    /** A chunk offered to the log, which is given up when it fails. */
    method WriteLog(s: Stream, chunk: Bytes, accepted: Option<nat>) returns (ghost offer: Offer)
      requires written <= reserved
      modifies this`written, this`logs, this`logFailed, this`offers
      ensures offer == Offer(chunk, old(Share(s, chunk, accepted))) && |offer.Taken()| == offer.accepted
      ensures written == old(written) + offer.accepted <= reserved
      ensures logs == if s in old(logs) && accepted.None? && Least(|chunk|, reserved - old(written)) > 0 then old(logs) - {s} else old(logs)
      ensures offers == old(offers).With(s, old(offers).Of(s) + [offer])
    {
      var raw := Least(|chunk|, reserved - written);
      var taken: nat := 0;
      if s in logs && raw > 0 {
        if accepted.Some? {
          taken := Least(accepted.value, raw);
        } else {
          logFailed := true;
          logs := logs - {s};
        }
      }
      written := written + taken;
      offer := Offer(chunk, taken);
      offers := offers.With(s, offers.Of(s) + [offer]);
    }

    /** `read_pipe` with data: keep the prefix, drop the rest, and log while the reservation lasts. */
    method ReadPipe(s: Stream, data: Bytes, accepted: Option<nat>) returns (ghost offer: Offer)
      requires Valid() && Logged()
      modifies this`kept, this`received, this`written, this`logs, this`logFailed, this`offers
      ensures Valid() && Logged()
      ensures received == old(received).With(s, old(received).Of(s) + data)
      ensures kept.Of(s) == Absorb(old(kept).Of(s), data, retain)
      ensures offer == Offer(Room(old(kept).Of(s), data), old(Share(s, Room(kept.Of(s), data), accepted)))
      ensures offers == old(offers).With(s, old(offers).Of(s) + [offer]) && written == old(written) + offer.accepted
      ensures accepted.Some? ==> logs == old(logs)
    {
      offer := WriteLog(s, Room(kept.Of(s), data), accepted);
      KeepsBothStep(kept, received, forced, retain, s, data);
      LogsBothStep(old(offers), kept, received, forced, retain, old(written), s, data, offer);
      kept := kept.With(s, Absorb(kept.Of(s), data, retain));
      received := received.With(s, received.Of(s) + data);
    }

    method MarkTruncated(streams: set<Stream>)
      requires Valid()
      modifies this`kept, this`forced
      ensures Valid() && forced == old(forced) + streams
    {
      kept := Per(kept.stdout.(truncated := kept.stdout.truncated || Stdout in streams),
                  kept.stderr.(truncated := kept.stderr.truncated || Stderr in streams));
      forced := forced + streams;
    }

    /** One read of the final probe: no more than `limit` bytes of pipe `s`; `None` when it found none. */
    method ProbeOnce(s: Stream, event: Event, limit: nat) returns (got: Option<nat>, failed: bool)
      requires Valid() && Logged() && s in open && limit > 0
      modifies this`kept, this`received, this`written, this`logs, this`logFailed, this`offers, this`open
      ensures Valid() && Logged() && (open == old(open) || open == old(open) - {s})
      ensures received.With(s, []) == old(received).With(s, []) && old(received).Of(s) <= received.Of(s)
      ensures |received.Of(s)| == |old(received).Of(s)| + if got.Some? then got.value else 0
      ensures got.Some? ==> 0 < got.value <= limit && open == old(open) && !failed
    {
      got, failed := None, event.Failed?;
      if event.Data? && event.stream == s && event.bytes != [] {
        var data := event.bytes[..Least(|event.bytes|, limit)];
        var _ := ReadPipe(s, data, event.accepted);
        got := Some(|data|);
      } else if event == End(s) {
        open := open - {s};
      }
    }

    /**
     The final probe of one pipe: at most what is left of its prefix plus one byte, so that
     an overflow is noticed and no more than that is read from a pipe that never ends.
     */
    method Probe(s: Stream, probe: seq<Event>) returns (failed: bool)
      requires Valid() && Logged()
      modifies this`kept, this`received, this`written, this`logs, this`logFailed, this`offers, this`open
      ensures Valid() && Logged() && (open == old(open) || open == old(open) - {s})
      ensures received.With(s, []) == old(received).With(s, []) && old(received).Of(s) <= received.Of(s)
      ensures |received.Of(s)| <= |old(received).Of(s)| + STREAM_LIMIT + 1 - |Prefix(old(received).Of(s))|
    {
      failed := false;
      if s !in open {
        return;
      }
      var remaining := STREAM_LIMIT - kept.Of(s).size + 1;
      ghost var bound := |received.Of(s)| + remaining;
      var i := 0;
      while remaining > 0 && i < |probe|
        invariant Valid() && Logged() && open == old(open) && s in open && 0 <= remaining
        invariant received.With(s, []) == old(received).With(s, []) && old(received).Of(s) <= received.Of(s)
        invariant |received.Of(s)| + remaining == bound
      {
        var got;
        got, failed := ProbeOnce(s, probe[i], Least(8192, remaining));
        if got.None? {
          return;
        }
        remaining := remaining - got.value;
        i := i + 1;
      }
    }

    /** The last moments of a drain whose child has exited and left a pipe open. */
    method ProbeBoth(probe: Per<seq<Event>>) returns (failed: bool)
      requires Valid() && Logged()
      modifies this`kept, this`received, this`written, this`logs, this`logFailed, this`offers, this`open
      ensures Valid() && Logged() && open <= old(open)
    {
      failed := Probe(Stdout, probe.stdout);
      if !failed {
        failed := Probe(Stderr, probe.stderr);
      }
    }

    /** One turn of the loop of `drain`. */
    method Meet(e: Event) returns (grace: bool, failed: bool)
      requires Valid() && Logged()
      modifies this`kept, this`received, this`written, this`logs, this`logFailed, this`offers, this`open
      ensures Valid() && Logged() && (grace ==> e.GraceOver?) && (failed ==> e.GraceOver? || e.Failed?) && (e.Failed? ==> failed)
      ensures e.GraceOver? ==> grace
      ensures !e.GraceOver? ==> Read(old(received), old(open), e, received, open)
    {
      grace, failed := e.GraceOver?, e.Failed?;
      match e
      case Data(s, bytes, accepted) =>
        if s in open {
          var _ := ReadPipe(s, bytes, accepted);
        }
      case End(s) =>
        open := open - {s};
      case GraceOver(probe) =>
        failed := ProbeBoth(probe);
      case _ =>
    }

    /** The marks set once the loop of `drain` is left. */
    method Mark(failed: bool)
      requires Valid() && forced == {}
      modifies this`kept, this`forced, this`logFailed
      ensures Valid()
      ensures Reported(kept.stdout, received.stdout, Stdout in open, failed, retain)
      ensures Reported(kept.stderr, received.stderr, Stderr in open, failed, retain)
    {
      if failed {
        logFailed := true;
        MarkTruncated({Stdout, Stderr});
      } else {
        MarkTruncated(open * {Stdout, Stderr});
      }
    }

    /**
     The loop of `drain`, over what the thread meets until `stop` is set: the end of `events`
     is that moment.
     */
    method DrainStreams(events: seq<Event>) returns (failed: bool)
      requires Valid() && Logged() && forced == {} && received == Per([], []) && open == {Stdout, Stderr}
      modifies this`kept, this`received, this`written, this`logs, this`logFailed, this`offers, this`open
      ensures Valid() && Logged()
      ensures Plain(events) ==> !failed && Follows(received, open, events)
    {
      failed := false;
      var i, grace := 0, false;
      while i < |events| && open != {} && !grace && !failed
        invariant Valid() && Logged() && 0 <= i <= |events|
        invariant Progress(events, i, received, open, grace || failed)
      {
        ghost var before, pipes := received, open;
        grace, failed := Meet(events[i]);
        ProgressStep(events, i, before, pipes, received, open, grace || failed);
        i := i + 1;
      }
      ProgressEnds(events, i, received, open, grace || failed);
    }

    /** The loop and its marks. */
    method DrainBoth(events: seq<Event>) returns (failed: bool)
      requires Valid() && Logged() && forced == {} && received == Per([], []) && open == {Stdout, Stderr}
      modifies this
      ensures Valid() && Logged()
      ensures Reported(kept.stdout, received.stdout, Stdout in open, failed, retain)
      ensures Reported(kept.stderr, received.stderr, Stderr in open, failed, retain)
      ensures Plain(events) ==> !failed && Follows(received, open, events)
    {
      failed := DrainStreams(events);
      Mark(failed);
    }

    /** A whole `drain`, with its reservation given back. */
    method Drain(events: seq<Event>, budget: Budget, ghost ticket: nat) returns (failed: bool)
      requires Valid() && Logged() && budget.Valid() && forced == {} && received == Per([], []) && open == {Stdout, Stderr}
      requires reserved > 0 ==> ticket < |budget.tickets| && budget.tickets[ticket] == Ticket(pool, reserved, true, 0)
      modifies this, budget
      ensures Valid() && Logged() && budget.Valid() && written <= reserved
      ensures Reported(kept.stdout, received.stdout, Stdout in open, failed, retain)
      ensures Reported(kept.stderr, received.stderr, Stderr in open, failed, retain)
      ensures Plain(events) ==> !failed && Follows(received, open, events)
      ensures budget.used == old(budget.used).With(pool, old(budget.used).Of(pool) - (reserved - written))
      ensures budget.tickets == if reserved > 0 then old(budget.tickets)[ticket := Ticket(pool, reserved, false, written)]
                                else old(budget.tickets)
    {
      failed := DrainBoth(events);
      budget.Finish(pool, reserved, written, ticket);
    }
  }

  /** A chunk taken in part, and one taken after it. */
  function ShortThenMore(x: bv8, y: bv8, z: bv8): seq<Offer> {
    [Offer([x, y], 1), Offer([z], 1)]
  }

  /**
   The log then misses a byte in its middle: it is no cut of the output, and no prefix of it
   when the byte it goes on with is not the one it missed.
   */
  lemma ShortThenMoreLeavesGap(x: bv8, y: bv8, z: bv8)
    ensures var offers := ShortThenMore(x, y, z);
            && Whole(offers) == [x, y, z] && LogOf(offers) == [x, z] && !Cut(offers)
            && (y != z ==> !(LogOf(offers) <= Whole(offers)))
  {
    var first, second := Offer([x, y], 1), Offer([z], 1);
    TwoOffers(first, second);
    assert first.Taken() == [x] && second.Taken() == [z];
    LogIsCutIff([first, second]);
    assert ([x] + [z])[1] == z && ([x, y] + [z])[1] == y;
  }

  lemma TwoOffers(a: Offer, b: Offer)
    ensures Whole([a, b]) == a.chunk + b.chunk && LogOf([a, b]) == a.Taken() + b.Taken()
    ensures NothingAfterShort([a, b]) <==> b.Taken() == [] || a.accepted >= |a.chunk|
  {
    assert [a, b][..1] == [a] && [a][..0] == [];
    assert AllTaken([a]) <==> a.accepted >= |a.chunk|;
    assert Whole([a]) == a.chunk && LogOf([a]) == a.Taken() && NothingAfterShort([a]);
  }

  /** A capture that meets just that: both chunks reach the log, the first in part. */
  method MeetsShortWrite(x: bv8, y: bv8, z: bv8) returns (c: ProcessCapture)
    ensures fresh(c) && c.Valid() && c.Logged() && c.offers.stdout == ShortThenMore(x, y, z)
  {
    c := new ProcessCapture(Work, 128, true, {Stdout, Stderr});
    RoomForAll(c.kept.stdout, [x, y]);
    var _ := c.ReadPipe(Stdout, [x, y], Some(1));
    assert c.written == 1 && c.kept.stdout.size == 2;
    RoomForAll(c.kept.stdout, [z]);
    var _ := c.ReadPipe(Stdout, [z], Some(1));
  }

  lemma RoomForAll(k: Kept, data: Bytes)
    requires k.size + |data| <= STREAM_LIMIT
    ensures Room(k, data) == data && Absorb(k, data, true).size == k.size + |data|
  {
  }
}
