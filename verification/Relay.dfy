/**
 The loopback relay: one client connection, forwarded through a stream to the server that is
 dropped when idle and reopened by the next request.  A run is a list of rounds of the pump's
 loop; what each socket call does, and when, is an input.  The pump is proved against a function
 of those inputs, and what the relay promises is proved of that function.
 */
module Relay {
  import opened Prelude

  /** What `recv` brings. */
  datatype Chunk = Data(bytes: Bytes) | Finished | Broken

  /**
   One readable socket: what is received, whether a connection made for it succeeds, how many of
   the bytes the other side takes (`None` for all of them), and the time when that is done.  The
   relay reads no protocol; `count` says how many requests the client's bytes begin, or how many
   answers the server's bytes complete.
   */
  datatype Transfer = Transfer(chunk: Chunk, connects: bool, cut: Option<nat>, at: real, count: nat)

  datatype Round = Quiet(at: real) | Readable(client: Option<Transfer>, upstream: Option<Transfer>)

  // ---------------------------------------------------------------- a run of the pump

  /** What was forwarded, and idle streams dropped, in order, each with the round it happened in. */
  datatype Event =
    | Sent(at: real, round: nat, requests: nat)
    | Answered(at: real, round: nat, answers: nat)
    | Dropped(at: real, round: nat)

  /** Bytes received from and passed to either side, over all streams of the connection. */
  datatype Wire = Wire(fromClient: Bytes, toServer: Bytes, fromServer: Bytes, toClient: Bytes, log: seq<Event>)

  /** The pump's own variables, with what it has moved; `over` is its `return`. */
  datatype State = State(connected: bool, awaiting: bool, last: real, over: bool, wire: Wire)

  function Initial(start: real): State {
    State(false, false, start, false, Wire([], [], [], [], []))
  }

  /** What was sent of `data`. */
  function Passed(data: Bytes, cut: Option<nat>): Bytes {
    if cut.Some? && cut.value < |data| then data[..cut.value] else data
  }

  /** The client's socket is readable. */
  function AfterClient(s: State, t: Transfer, n: nat): State {
    if !t.chunk.Data? then s.(over := true)
    else
      var received := s.wire.(fromClient := s.wire.fromClient + t.chunk.bytes);
      if !s.connected && !t.connects then s.(over := true, wire := received)
      else
        var sent := received.(toServer := received.toServer + Passed(t.chunk.bytes, t.cut));
        if t.cut.Some? then s.(connected := true, over := true, wire := sent)
        else State(true, true, t.at, false, sent.(log := sent.log + [Sent(t.at, n, t.count)]))
  }

  /** The stream's socket is readable. */
  function AfterServer(s: State, t: Transfer, n: nat): State {
    if !t.chunk.Data? then s.(over := true)
    else
      var moved := s.wire.(fromServer := s.wire.fromServer + t.chunk.bytes,
                           toClient := s.wire.toClient + Passed(t.chunk.bytes, t.cut));
      if t.cut.Some? then s.(over := true, wire := moved)
      else State(s.connected, false, t.at, false, moved.(log := moved.log + [Answered(t.at, n, t.count)]))
  }

  /** Nothing readable for a poll: an idle stream that awaits no answer is dropped. */
  function AfterQuiet(s: State, at: real, n: nat, idleClose: real): State {
    if s.connected && !s.awaiting && at - s.last >= idleClose
    then s.(connected := false, wire := s.wire.(log := s.wire.log + [Dropped(at, n)]))
    else s
  }

  /** One round, the `n`-th: the client's socket first, as it is the first watched. */
  function AfterRound(s: State, round: Round, n: nat, idleClose: real): State {
    match round
    case Quiet(at) => AfterQuiet(s, at, n, idleClose)
    case Readable(client, upstream) =>
      var forwarded := if client.Some? then AfterClient(s, client.value, n) else s;
      if upstream.Some? && s.connected && !forwarded.over then AfterServer(forwarded, upstream.value, n) else forwarded
  }

  /** The rounds until `stopping` is set. */
  function AfterRounds(start: real, rounds: seq<Round>, idleClose: real): State {
    if rounds == [] then Initial(start)
    else
      var n := |rounds| - 1;
      var s := AfterRounds(start, rounds[..n], idleClose);
      if s.over then s else AfterRound(s, rounds[n], n, idleClose)
  }

  // ---------------------------------------------------------------- bytes

  /** Nothing reordered, altered or invented. */
  ghost predicate InOrder(w: Wire) {
    w.toServer <= w.fromClient && w.toClient <= w.fromServer
  }

  /** ... and nothing missing. */
  ghost predicate Complete(w: Wire) {
    w.toServer == w.fromClient && w.toClient == w.fromServer
  }

  /** Everything the client's socket brings in these rounds. */
  function ClientBytes(rounds: seq<Round>): Bytes {
    if rounds == [] then []
    else ClientBytes(rounds[..|rounds| - 1]) + RoundBytes(rounds[|rounds| - 1])
  }

  function RoundBytes(round: Round): Bytes {
    if round.Readable? && round.client.Some? && round.client.value.chunk.Data? then round.client.value.chunk.bytes else []
  }

  /** A round that can end the connection: a socket finished or broke, or a connection or a send failed. */
  predicate CanEnd(round: Round) {
    round.Readable? && (TransferCanEnd(round.client) || TransferCanEnd(round.upstream))
  }

  predicate TransferCanEnd(t: Option<Transfer>) {
    t.Some? && (!t.value.chunk.Data? || t.value.cut.Some? || !t.value.connects)
  }

  lemma ClientMovesBytes(s: State, t: Transfer, n: nat)
    requires !s.over && Complete(s.wire)
    ensures var u := AfterClient(s, t, n);
            && InOrder(u.wire) && (u.over ==> TransferCanEnd(Some(t)))
            && (!u.over ==> Complete(u.wire) && t.chunk.Data? && u.wire.fromClient == s.wire.fromClient + t.chunk.bytes)
  {
  }

  lemma ServerMovesBytes(s: State, t: Transfer, n: nat)
    requires !s.over && Complete(s.wire)
    ensures var u := AfterServer(s, t, n);
            && InOrder(u.wire) && (u.over ==> TransferCanEnd(Some(t)))
            && (!u.over ==> Complete(u.wire)) && u.wire.fromClient == s.wire.fromClient
  {
  }

  lemma RoundMovesBytes(s: State, round: Round, n: nat, idleClose: real)
    requires !s.over && Complete(s.wire)
    ensures var t := AfterRound(s, round, n, idleClose);
            && InOrder(t.wire) && (t.over ==> CanEnd(round))
            && (!t.over ==> Complete(t.wire) && t.wire.fromClient == s.wire.fromClient + RoundBytes(round))
  {
    if round.Readable? {
      var forwarded := if round.client.Some? then AfterClient(s, round.client.value, n) else s;
      if round.client.Some? {
        ClientMovesBytes(s, round.client.value, n);
      }
      if round.upstream.Some? && !forwarded.over {
        ServerMovesBytes(forwarded, round.upstream.value, n);
      }
    }
  }

  /** Bytes pass in order and unaltered, and all of them while the connection lasts. */
  lemma {:induction false} BytesArrive(start: real, rounds: seq<Round>, idleClose: real)
    ensures var s := AfterRounds(start, rounds, idleClose);
            && InOrder(s.wire) && (!s.over ==> Complete(s.wire) && s.wire.fromClient == ClientBytes(rounds))
            && (s.over ==> exists n :: 0 <= n < |rounds| && CanEnd(rounds[n]))
  {
    if rounds != [] {
      var n := |rounds| - 1;
      var s := AfterRounds(start, rounds[..n], idleClose);
      BytesArrive(start, rounds[..n], idleClose);
      if !s.over {
        RoundMovesBytes(s, rounds[n], n, idleClose);
      } else {
        var m :| 0 <= m < n && CanEnd(rounds[..n][m]);
        assert CanEnd(rounds[m]);
      }
    }
  }

  // ---------------------------------------------------------------- the log

  /** The state is what the log says: connected exactly after a transfer, awaiting exactly after the client's. */
  ghost predicate Tracks(s: State) {
    var log := s.wire.log;
    && (!s.connected ==> log == [] || log[|log| - 1].Dropped?)
    && (s.connected ==> log != [] && !log[|log| - 1].Dropped? && log[|log| - 1].at == s.last
                        && (s.awaiting <==> log[|log| - 1].Sent?))
  }

  /** A stream is dropped only when the last bytes it carried came from the server, long enough ago. */
  ghost predicate DropIsIdle(log: seq<Event>, k: nat, idleClose: real)
    requires k < |log|
  {
    log[k].Dropped? ==> k > 0 && log[k - 1].Answered? && log[k].at - log[k - 1].at >= idleClose
  }

  /**
   Where an event stands: in a round that had its socket readable, no earlier than the event
   before; an answer on an open stream, right after the request of its round if that had one.
   */
  ghost predicate Placed(log: seq<Event>, k: nat, rounds: seq<Round>)
    requires k < |log|
  {
    && log[k].round < |rounds|
    && (k > 0 ==> log[k - 1].round <= log[k].round)
    && match log[k]
       case Sent(_, n, requests) =>
         rounds[n].Readable? && rounds[n].client.Some? && requests == rounds[n].client.value.count
       case Answered(_, n, answers) =>
         && rounds[n].Readable? && rounds[n].upstream.Some? && answers == rounds[n].upstream.value.count
         && k > 0 && !log[k - 1].Dropped?
         && (if rounds[n].client.Some? then log[k - 1].Sent? && log[k - 1].round == n else log[k - 1].round < n)
       case Dropped(_, n) => rounds[n].Quiet?
  }

  ghost predicate WellLogged(log: seq<Event>, rounds: seq<Round>, idleClose: real) {
    forall k :: 0 <= k < |log| ==> DropIsIdle(log, k, idleClose) && Placed(log, k, rounds)
  }

  /** No event yet in round `n`. */
  ghost predicate Before(log: seq<Event>, n: nat) {
    log == [] || log[|log| - 1].round < n
  }

  lemma WellLoggedSnoc(log: seq<Event>, e: Event, rounds: seq<Round>, idleClose: real)
    requires WellLogged(log, rounds, idleClose)
    requires DropIsIdle(log + [e], |log|, idleClose) && Placed(log + [e], |log|, rounds)
    ensures WellLogged(log + [e], rounds, idleClose)
  {
    forall k | 0 <= k < |log + [e]|
      ensures DropIsIdle(log + [e], k, idleClose) && Placed(log + [e], k, rounds)
    {
      if k < |log| {
        assert DropIsIdle(log, k, idleClose) && Placed(log, k, rounds);
      }
    }
  }

  lemma ClientLogs(s: State, t: Transfer, n: nat, rounds: seq<Round>, idleClose: real)
    requires !s.over && Tracks(s) && WellLogged(s.wire.log, rounds, idleClose) && Before(s.wire.log, n)
    requires n < |rounds| && rounds[n].Readable? && rounds[n].client == Some(t)
    ensures var u := AfterClient(s, t, n);
            && WellLogged(u.wire.log, rounds, idleClose)
            && (!u.over ==> Tracks(u) && u.wire.log == s.wire.log + [Sent(t.at, n, t.count)])
  {
    WellLoggedSnoc(s.wire.log, Sent(t.at, n, t.count), rounds, idleClose);
  }

  lemma ServerLogs(s: State, t: Transfer, n: nat, rounds: seq<Round>, idleClose: real)
    requires !s.over && s.connected && Tracks(s) && WellLogged(s.wire.log, rounds, idleClose)
    requires n < |rounds| && rounds[n].Readable? && rounds[n].upstream == Some(t)
    requires var last := s.wire.log[|s.wire.log| - 1];
             if rounds[n].client.Some? then last.Sent? && last.round == n else last.round < n
    ensures var u := AfterServer(s, t, n);
            && WellLogged(u.wire.log, rounds, idleClose)
            && (!u.over ==> Tracks(u) && u.wire.log == s.wire.log + [Answered(t.at, n, t.count)])
  {
    WellLoggedSnoc(s.wire.log, Answered(t.at, n, t.count), rounds, idleClose);
  }

  lemma QuietLogs(s: State, n: nat, rounds: seq<Round>, idleClose: real)
    requires !s.over && Tracks(s) && WellLogged(s.wire.log, rounds, idleClose) && Before(s.wire.log, n)
    requires n < |rounds| && rounds[n].Quiet?
    ensures var u := AfterQuiet(s, rounds[n].at, n, idleClose);
            Tracks(u) && WellLogged(u.wire.log, rounds, idleClose) && Before(u.wire.log, n + 1)
  {
    if s.connected && !s.awaiting && rounds[n].at - s.last >= idleClose {
      WellLoggedSnoc(s.wire.log, Dropped(rounds[n].at, n), rounds, idleClose);
    }
  }

  lemma RoundLogs(s: State, n: nat, rounds: seq<Round>, idleClose: real)
    requires !s.over && Tracks(s) && WellLogged(s.wire.log, rounds, idleClose) && Before(s.wire.log, n) && n < |rounds|
    ensures var u := AfterRound(s, rounds[n], n, idleClose);
            WellLogged(u.wire.log, rounds, idleClose) && (!u.over ==> Tracks(u) && Before(u.wire.log, n + 1))
  {
    match rounds[n]
    case Quiet(_) => QuietLogs(s, n, rounds, idleClose);
    case Readable(client, upstream) =>
      var forwarded := if client.Some? then AfterClient(s, client.value, n) else s;
      if client.Some? {
        ClientLogs(s, client.value, n, rounds, idleClose);
      }
      if upstream.Some? && s.connected && !forwarded.over {
        ServerLogs(forwarded, upstream.value, n, rounds, idleClose);
      }
  }

  lemma WiderRounds(log: seq<Event>, rounds: seq<Round>, more: seq<Round>, idleClose: real)
    requires WellLogged(log, rounds, idleClose) && rounds <= more
    ensures WellLogged(log, more, idleClose)
  {
    forall k | 0 <= k < |log|
      ensures DropIsIdle(log, k, idleClose) && Placed(log, k, more)
    {
      assert DropIsIdle(log, k, idleClose) && Placed(log, k, rounds);
    }
  }

  /** In every run each event is where its round puts it, and each drop comes long after a last answer. */
  lemma {:induction false} LogIsPlaced(start: real, rounds: seq<Round>, idleClose: real)
    ensures var s := AfterRounds(start, rounds, idleClose);
            WellLogged(s.wire.log, rounds, idleClose) && (!s.over ==> Tracks(s) && Before(s.wire.log, |rounds|))
  {
    if rounds != [] {
      var n := |rounds| - 1;
      var s := AfterRounds(start, rounds[..n], idleClose);
      LogIsPlaced(start, rounds[..n], idleClose);
      WiderRounds(s.wire.log, rounds[..n], rounds, idleClose);
      if !s.over {
        RoundLogs(s, n, rounds, idleClose);
      }
    }
  }

  // ---------------------------------------------------------------- requests that are still waiting

  /** How many requests of the open stream have no complete answer yet. */
  function Outstanding(log: seq<Event>): nat {
    if log == [] then 0
    else
      var before := Outstanding(log[..|log| - 1]);
      match log[|log| - 1]
      case Sent(_, _, requests) => before + requests
      case Answered(_, _, answers) => if answers < before then before - answers else 0
      case Dropped(_, _) => 0
  }

  /** The round that opened the stream: that of the first request after the last drop. */
  function Opened(log: seq<Event>): nat {
    if log == [] then 0
    else
      var init, last := log[..|log| - 1], log[|log| - 1];
      if init == [] || init[|init| - 1].Dropped? then last.round else Opened(init)
  }

  /**
   What these rounds leave unanswered, were they all of one stream opened in the first of them:
   said of the inputs alone.  In its first round the stream is not watched yet.
   */
  function Owed(rounds: seq<Round>): nat {
    if rounds == [] then 0
    else OwedAfter(Owed(rounds[..|rounds| - 1]), |rounds| == 1, rounds[|rounds| - 1])
  }

  function OwedAfter(before: nat, opening: bool, round: Round): nat {
    match round
    case Quiet(_) => before
    case Readable(client, upstream) =>
      var asked, completed := before + CountOf(client), if opening then 0 else CountOf(upstream);
      if completed < asked then asked - completed else 0
  }

  function CountOf(t: Option<Transfer>): nat {
    if t.Some? then t.value.count else 0
  }

  lemma OneMoreEvent(log: seq<Event>, e: Event)
    ensures Outstanding(log + [e]) == match e
              case Sent(_, _, requests) => Outstanding(log) + requests
              case Answered(_, _, answers) => if answers < Outstanding(log) then Outstanding(log) - answers else 0
              case Dropped(_, _) => 0
    ensures Opened(log + [e]) == if log == [] || log[|log| - 1].Dropped? then e.round else Opened(log)
  {
    assert (log + [e])[..|log|] == log;
  }

  /** The open stream began in one of the rounds, and what it still owes is what the rounds since then leave. */
  ghost predicate OwesFrom(s: State, rounds: seq<Round>) {
    s.connected ==> Opened(s.wire.log) < |rounds| && Outstanding(s.wire.log) == Owed(rounds[Opened(s.wire.log)..])
  }

  lemma OwedStep(rounds: seq<Round>, m: nat)
    requires m < |rounds|
    ensures var n := |rounds| - 1; Owed(rounds[m..]) == OwedAfter(Owed(rounds[..n][m..]), m == n, rounds[n])
  {
    var n := |rounds| - 1;
    assert rounds[m..][..n - m] == rounds[..n][m..] && rounds[m..][n - m] == rounds[n];
  }

  lemma ClientCounts(s: State, t: Transfer, n: nat)
    requires Tracks(s)
    ensures var u := AfterClient(s, t, n);
            !u.over ==> && Tracks(u) && u.connected && Outstanding(u.wire.log) == Outstanding(s.wire.log) + t.count
                        && Opened(u.wire.log) == if s.connected then Opened(s.wire.log) else n
  {
    OneMoreEvent(s.wire.log, Sent(t.at, n, t.count));
  }

  lemma ServerCounts(s: State, t: Transfer, n: nat)
    requires Tracks(s) && s.connected
    ensures var u, before := AfterServer(s, t, n), Outstanding(s.wire.log);
            !u.over ==> && u.connected && Outstanding(u.wire.log) == (if t.count < before then before - t.count else 0)
                        && Opened(u.wire.log) == Opened(s.wire.log)
  {
    OneMoreEvent(s.wire.log, Answered(t.at, n, t.count));
  }

  lemma RoundCounts(s: State, round: Round, n: nat, idleClose: real)
    requires !s.over && Tracks(s)
    ensures var t := AfterRound(s, round, n, idleClose);
            !t.over && t.connected ==>
              && Outstanding(t.wire.log) == OwedAfter(Outstanding(s.wire.log), !s.connected, round)
              && Opened(t.wire.log) == if s.connected then Opened(s.wire.log) else n
  {
    if round.Readable? {
      var forwarded := if round.client.Some? then AfterClient(s, round.client.value, n) else s;
      if round.client.Some? {
        ClientCounts(s, round.client.value, n);
      }
      if round.upstream.Some? && s.connected && !forwarded.over {
        ServerCounts(forwarded, round.upstream.value, n);
      }
    }
  }

  lemma RoundOwes(s: State, rounds: seq<Round>, idleClose: real)
    requires rounds != [] && !s.over && Tracks(s) && OwesFrom(s, rounds[..|rounds| - 1])
    ensures var n := |rounds| - 1;
            var t := AfterRound(s, rounds[n], n, idleClose);
            !t.over ==> OwesFrom(t, rounds)
  {
    var n := |rounds| - 1;
    RoundCounts(s, rounds[n], n, idleClose);
    if s.connected {
      OwedStep(rounds, Opened(s.wire.log));
    } else {
      OwedStep(rounds, n);
      assert Owed(rounds[..n][n..]) == 0 == Outstanding(s.wire.log);
    }
  }

  /** Over any rounds, what the log says is outstanding is what the inputs say is owed. */
  lemma {:induction false} OutstandingIsOwed(start: real, rounds: seq<Round>, idleClose: real)
    ensures var s := AfterRounds(start, rounds, idleClose); !s.over ==> OwesFrom(s, rounds)
  {
    if rounds != [] {
      var n := |rounds| - 1;
      var s := AfterRounds(start, rounds[..n], idleClose);
      OutstandingIsOwed(start, rounds[..n], idleClose);
      LogIsPlaced(start, rounds[..n], idleClose);
      if !s.over {
        RoundOwes(s, rounds, idleClose);
      }
    }
  }

  /** A round adds its own events; a drop comes alone, from an open stream. */
  lemma RoundAppends(s: State, round: Round, n: nat, idleClose: real)
    ensures var log, longer := s.wire.log, AfterRound(s, round, n, idleClose).wire.log;
            && log <= longer
            && forall k :: |log| <= k < |longer| && longer[k].Dropped? ==> k == |log| && s.connected && longer[k].round == n
  {
  }

  /** Until the round of a drop the run was that of the rounds before it, and had the stream open. */
  lemma {:induction false} BeforeDrop(start: real, rounds: seq<Round>, idleClose: real, k: nat)
    requires var log := AfterRounds(start, rounds, idleClose).wire.log; k < |log| && log[k].Dropped?
    ensures var log := AfterRounds(start, rounds, idleClose).wire.log;
            && log[k].round < |rounds|
            && var s := AfterRounds(start, rounds[..log[k].round], idleClose);
               !s.over && s.connected && s.wire.log == log[..k]
  {
    var n := |rounds| - 1;
    var s := AfterRounds(start, rounds[..n], idleClose);
    var log := AfterRounds(start, rounds, idleClose).wire.log;
    if !s.over {
      RoundAppends(s, rounds[n], n, idleClose);
    }
    if k < |s.wire.log| {
      BeforeDrop(start, rounds[..n], idleClose, k);
      assert rounds[..n][..log[k].round] == rounds[..log[k].round];
      assert s.wire.log[..k] == log[..k];
    }
  }

  /**
   What a drop abandons, for every run: the last thing the stream carried is a chunk of the
   server's, in a round of its own or with the client's forwarded before it, and requests are
   still waiting if and only if it completes fewer answers than were outstanding then.  The
   outstanding requests are those the inputs since the stream's opening leave unanswered.
   */
  lemma DropAbandonsRequest(start: real, rounds: seq<Round>, idleClose: real, k: nat)
    requires var log := AfterRounds(start, rounds, idleClose).wire.log; k < |log| && log[k].Dropped?
    ensures var log := AfterRounds(start, rounds, idleClose).wire.log;
            && k > 0 && log[k - 1].Answered? && log[k - 1].round < log[k].round < |rounds|
            && rounds[log[k - 1].round].Readable? && rounds[log[k - 1].round].upstream.Some?
            && (Outstanding(log[..k]) > 0 <==> CountOf(rounds[log[k - 1].round].upstream) < Outstanding(log[..k - 1]))
            && Opened(log[..k]) < log[k].round
            && Outstanding(log[..k]) == Owed(rounds[..log[k].round][Opened(log[..k])..])
  {
    var log := AfterRounds(start, rounds, idleClose).wire.log;
    LogIsPlaced(start, rounds, idleClose);
    assert DropIsIdle(log, k, idleClose) && Placed(log, k - 1, rounds) && Placed(log, k, rounds);
    assert log[..k][..k - 1] == log[..k - 1];
    BeforeDrop(start, rounds, idleClose, k);
    OutstandingIsOwed(start, rounds[..log[k].round], idleClose);
  }

  // ---------------------------------------------------------------- who is served by the relay's rule

  /** The client begins a request only with none outstanding on the stream, and one at a time. */
  ghost predicate TakesTurns(log: seq<Event>) {
    forall k :: 0 <= k < |log| && log[k].Sent? && log[k].requests > 0 ==> log[k].requests == 1 && Outstanding(log[..k]) == 0
  }

  /** Every chunk of the server's completes an answer: none arrives in pieces. */
  ghost predicate AnswersWhole(log: seq<Event>) {
    forall k :: 0 <= k < |log| && log[k].Answered? ==> log[k].answers > 0
  }

  lemma {:induction false} AtMostOne(log: seq<Event>)
    requires TakesTurns(log)
    ensures Outstanding(log) <= 1
  {
    if log != [] {
      var init, last := log[..|log| - 1], log[|log| - 1];
      assert TakesTurns(init) by {
        assert forall k :: 0 <= k < |init| ==> init[k] == log[k] && init[..k] == log[..k];
      }
      AtMostOne(init);
      assert last.Sent? && last.requests > 0 ==> Outstanding(init) == 0;
    }
  }

  /** A client that takes turns loses its request exactly when the last chunk was a piece of an answer. */
  lemma TurnTakerLosesOnlyPieces(start: real, rounds: seq<Round>, idleClose: real, k: nat)
    requires var log := AfterRounds(start, rounds, idleClose).wire.log; k < |log| && log[k].Dropped? && TakesTurns(log)
    ensures var log := AfterRounds(start, rounds, idleClose).wire.log;
            && k > 0
            && (Outstanding(log[..k]) > 0 <==> log[k - 1].Answered? && log[k - 1].answers == 0 && Outstanding(log[..k - 1]) == 1)
  {
    var log := AfterRounds(start, rounds, idleClose).wire.log;
    DropAbandonsRequest(start, rounds, idleClose, k);
    LogIsPlaced(start, rounds, idleClose);
    assert Placed(log, k - 1, rounds);
    assert TakesTurns(log[..k - 1]) by {
      assert forall i :: 0 <= i < k - 1 ==> log[..k - 1][i] == log[i] && log[..k - 1][..i] == log[..i];
    }
    AtMostOne(log[..k - 1]);
  }

  /** So nothing waiting is ever dropped between a client that takes turns and a server that answers whole. */
  lemma TurnsAndWholeAnswersSuffice(start: real, rounds: seq<Round>, idleClose: real, k: nat)
    requires var log := AfterRounds(start, rounds, idleClose).wire.log;
             k < |log| && log[k].Dropped? && TakesTurns(log) && AnswersWhole(log)
    ensures Outstanding(AfterRounds(start, rounds, idleClose).wire.log[..k]) == 0
  {
    TurnTakerLosesOnlyPieces(start, rounds, idleClose, k);
  }

  /** What was outstanding before the round of event `k`, which a server's chunk of that round can answer. */
  ghost function SeenBy(log: seq<Event>, k: nat): nat
    requires k < |log|
  {
    if k > 0 && log[k - 1].Sent? && log[k - 1].round == log[k].round then Outstanding(log[..k - 1]) else Outstanding(log[..k])
  }

  /** Every chunk of the client's begins a request, and every chunk of the server's answers all it had been sent. */
  ghost predicate AnswersAllSeen(log: seq<Event>) {
    forall k :: 0 <= k < |log| ==>
      (log[k].Sent? ==> log[k].requests > 0) && (log[k].Answered? ==> log[k].answers == SeenBy(log, k))
  }

  /** With such a server a request is abandoned exactly when it was readable together with the last answer. */
  lemma CrossingIsAbandoned(start: real, rounds: seq<Round>, idleClose: real, k: nat)
    requires var log := AfterRounds(start, rounds, idleClose).wire.log; k < |log| && log[k].Dropped? && AnswersAllSeen(log)
    ensures var log := AfterRounds(start, rounds, idleClose).wire.log;
            && k > 0 && log[k - 1].round < |rounds| && rounds[log[k - 1].round].Readable?
            && (Outstanding(log[..k]) > 0 <==> rounds[log[k - 1].round].client.Some?)
  {
    var log := AfterRounds(start, rounds, idleClose).wire.log;
    DropAbandonsRequest(start, rounds, idleClose, k);
    LogIsPlaced(start, rounds, idleClose);
    assert Placed(log, k - 1, rounds) && log[k - 1].answers == SeenBy(log, k - 1);
    if rounds[log[k - 1].round].client.Some? {
      assert log[k - 2].Sent? && log[k - 2].requests > 0;
      assert log[..k - 1][..k - 2] == log[..k - 2];
    }
  }

  // ---------------------------------------------------------------- three runs that abandon a request

  /** One byte moved at once. */
  function Of(byte: bv8, count: nat): Transfer {
    Transfer(Data([byte]), true, None, 0.0, count)
  }

  const REQUEST := Readable(Some(Of(1, 1)), None)
  const ANSWER := Readable(None, Some(Of(2, 1)))
  const PIECE := Readable(None, Some(Of(2, 0)))
  const CROSSING := Readable(Some(Of(1, 1)), Some(Of(2, 1)))

  /** A run that drops a stream in its last round while a request waits on it. */
  ghost predicate Abandons(rounds: seq<Round>, idleClose: real) {
    var log := AfterRounds(0.0, rounds, idleClose).wire.log;
    log != [] && log[|log| - 1] == Dropped(idleClose, |rounds| - 1) && Outstanding(log[..|log| - 1]) == 1
  }

  /** After rounds that end with an answer, a quiet round as long as the idle time drops the stream. */
  lemma ThenSilence(rounds: seq<Round>, idleClose: real)
    requires var s := AfterRounds(0.0, rounds, idleClose);
             !s.over && s.connected && !s.awaiting && s.last == 0.0 && Outstanding(s.wire.log) == 1
    ensures Abandons(rounds + [Quiet(idleClose)], idleClose)
  {
    var log := AfterRounds(0.0, rounds, idleClose).wire.log;
    OneMoreRound(0.0, rounds, Quiet(idleClose), idleClose);
    assert (log + [Dropped(idleClose, |rounds|)])[..|log|] == log;
  }

  /** After one more round at time zero: the stream open, awaiting or not, with so much outstanding. */
  ghost predicate Stands(rounds: seq<Round>, idleClose: real, awaiting: bool, outstanding: nat) {
    var s := AfterRounds(0.0, rounds, idleClose);
    && !s.over && s.connected && s.awaiting == awaiting && s.last == 0.0 && Outstanding(s.wire.log) == outstanding
  }

  lemma ThenRequest(rounds: seq<Round>, idleClose: real)
    requires rounds == [] || exists awaiting, o :: Stands(rounds, idleClose, awaiting, o)
    ensures Stands(rounds + [REQUEST], idleClose, true, Outstanding(AfterRounds(0.0, rounds, idleClose).wire.log) + 1)
  {
    OneMoreRound(0.0, rounds, REQUEST, idleClose);
    OneMoreEvent(AfterRounds(0.0, rounds, idleClose).wire.log, Sent(0.0, |rounds|, 1));
  }

  lemma ThenAnswer(rounds: seq<Round>, idleClose: real, outstanding: nat, answers: nat)
    requires Stands(rounds, idleClose, true, outstanding) && answers <= outstanding
    ensures Stands(rounds + [Readable(None, Some(Of(2, answers)))], idleClose, false, outstanding - answers)
  {
    OneMoreRound(0.0, rounds, Readable(None, Some(Of(2, answers))), idleClose);
    OneMoreEvent(AfterRounds(0.0, rounds, idleClose).wire.log, Answered(0.0, |rounds|, answers));
  }

  /** A request that arrives together with the answer to the one before is forgotten, and its stream dropped. */
  lemma RequestArrivingWithAnAnswerIsAbandoned(idleClose: real)
    requires idleClose > 0.0
    ensures Abandons([REQUEST, CROSSING, Quiet(idleClose)], idleClose)
  {
    ThenRequest([], idleClose);
    assert [] + [REQUEST] == [REQUEST];
    var log := AfterRounds(0.0, [REQUEST], idleClose).wire.log;
    OneMoreRound(0.0, [REQUEST], CROSSING, idleClose);
    OneMoreEvent(log, Sent(0.0, 1, 1));
    OneMoreEvent(log + [Sent(0.0, 1, 1)], Answered(0.0, 1, 1));
    assert [REQUEST] + [CROSSING] == [REQUEST, CROSSING];
    ThenSilence([REQUEST, CROSSING], idleClose);
    assert [REQUEST, CROSSING] + [Quiet(idleClose)] == [REQUEST, CROSSING, Quiet(idleClose)];
  }

  /** So is a request of which the server has sent a piece of the answer, if it then pauses. */
  lemma HalfAnswerIsAbandoned(idleClose: real)
    requires idleClose > 0.0
    ensures Abandons([REQUEST, PIECE, Quiet(idleClose)], idleClose)
  {
    ThenRequest([], idleClose);
    assert [] + [REQUEST] == [REQUEST];
    ThenAnswer([REQUEST], idleClose, 1, 0);
    assert [REQUEST] + [PIECE] == [REQUEST, PIECE];
    ThenSilence([REQUEST, PIECE], idleClose);
    assert [REQUEST, PIECE] + [Quiet(idleClose)] == [REQUEST, PIECE, Quiet(idleClose)];
  }

  /** So is the second of two requests, once the first is answered. */
  lemma SecondRequestIsAbandoned(idleClose: real)
    requires idleClose > 0.0
    ensures Abandons([REQUEST, REQUEST, ANSWER, Quiet(idleClose)], idleClose)
  {
    ThenRequest([], idleClose);
    assert [] + [REQUEST] == [REQUEST];
    ThenRequest([REQUEST], idleClose);
    assert [REQUEST] + [REQUEST] == [REQUEST, REQUEST];
    ThenAnswer([REQUEST, REQUEST], idleClose, 2, 1);
    assert [REQUEST, REQUEST] + [ANSWER] == [REQUEST, REQUEST, ANSWER];
    ThenSilence([REQUEST, REQUEST, ANSWER], idleClose);
    assert [REQUEST, REQUEST, ANSWER] + [Quiet(idleClose)] == [REQUEST, REQUEST, ANSWER, Quiet(idleClose)];
  }

  /** The ordinary run keeps every rule above: a request, its whole answer, and then the drop of an idle stream. */
  lemma OrdinaryRun(idleClose: real)
    requires idleClose > 0.0
    ensures var log := AfterRounds(0.0, [REQUEST, ANSWER, Quiet(idleClose)], idleClose).wire.log;
            |log| == 3 && log[2].Dropped? && TakesTurns(log) && AnswersWhole(log) && AnswersAllSeen(log)
  {
    OneMoreRound(0.0, [], REQUEST, idleClose);
    assert [] + [REQUEST] == [REQUEST];
    OneMoreRound(0.0, [REQUEST], ANSWER, idleClose);
    assert [REQUEST] + [ANSWER] == [REQUEST, ANSWER];
    OneMoreRound(0.0, [REQUEST, ANSWER], Quiet(idleClose), idleClose);
    assert [REQUEST, ANSWER] + [Quiet(idleClose)] == [REQUEST, ANSWER, Quiet(idleClose)];
    var log := AfterRounds(0.0, [REQUEST, ANSWER, Quiet(idleClose)], idleClose).wire.log;
    assert log == [Sent(0.0, 0, 1), Answered(0.0, 1, 1), Dropped(idleClose, 2)];
    assert log[..0] == [] && log[..1] == [] + [log[0]];
    OneMoreEvent([], log[0]);
  }

  lemma OneMoreRound(start: real, rounds: seq<Round>, round: Round, idleClose: real)
    ensures var s := AfterRounds(start, rounds, idleClose);
            AfterRounds(start, rounds + [round], idleClose) == if s.over then s else AfterRound(s, round, |rounds|, idleClose)
  {
    assert (rounds + [round])[..|rounds|] == rounds;
  }

  // ---------------------------------------------------------------- time

  /** Prompt scheduling: each round is over within `bound` of the one before. */
  ghost predicate PromptRound(previous: real, round: Round, bound: real) {
    match round
    case Quiet(at) => previous <= at <= previous + bound
    case Readable(client, upstream) =>
      && (client.Some? ==> previous <= client.value.at <= previous + bound)
      && (upstream.Some? ==> previous <= upstream.value.at <= previous + bound)
      && (client.Some? && upstream.Some? ==> client.value.at <= upstream.value.at)
  }

  function RoundEnd(previous: real, round: Round): real {
    match round
    case Quiet(at) => at
    case Readable(_, Some(u)) => u.at
    case Readable(Some(c), None) => c.at
    case Readable(None, None) => previous
  }

  function EndOf(start: real, rounds: seq<Round>): real {
    if rounds == [] then start else RoundEnd(EndOf(start, rounds[..|rounds| - 1]), rounds[|rounds| - 1])
  }

  ghost predicate Prompt(start: real, rounds: seq<Round>, bound: real)
    decreases |rounds|
  {
    rounds == [] ||
    var n := |rounds| - 1;
    Prompt(start, rounds[..n], bound) && PromptRound(EndOf(start, rounds[..n]), rounds[n], bound)
  }

  /** No request enters a stream that has been silent, server last, for the idle time and one round. */
  ghost predicate NeverLate(log: seq<Event>, idleClose: real, bound: real) {
    forall k :: 0 < k < |log| && log[k].Sent? && log[k - 1].Answered? ==> log[k].at < log[k - 1].at + idleClose + bound
  }

  /** At the end of a round an open stream is not overdue. */
  ghost predicate Timely(s: State, idleClose: real, end: real, bound: real) {
    && NeverLate(s.wire.log, idleClose, bound)
    && (!s.over && s.connected && !s.awaiting ==> end - s.last < idleClose)
  }

  lemma ClientKeepsTime(s: State, t: Transfer, n: nat, idleClose: real, previous: real, bound: real)
    requires !s.over && Tracks(s) && Timely(s, idleClose, previous, bound) && t.at <= previous + bound
    ensures NeverLate(AfterClient(s, t, n).wire.log, idleClose, bound)
  {
  }

  lemma RoundKeepsTime(s: State, round: Round, n: nat, idleClose: real, previous: real, bound: real)
    requires !s.over && Tracks(s) && idleClose > 0.0
    requires Timely(s, idleClose, previous, bound) && PromptRound(previous, round, bound)
    ensures Timely(AfterRound(s, round, n, idleClose), idleClose, RoundEnd(previous, round), bound)
  {
    if round.Readable? && round.client.Some? {
      ClientKeepsTime(s, round.client.value, n, idleClose, previous, bound);
    }
  }

  /** Whatever the bound on a round, under scheduling that prompt no request enters a stream later than that. */
  lemma {:induction false} RequestsAreNeverLate(start: real, rounds: seq<Round>, idleClose: real, bound: real)
    requires idleClose > 0.0 && Prompt(start, rounds, bound)
    ensures Timely(AfterRounds(start, rounds, idleClose), idleClose, EndOf(start, rounds), bound)
    decreases |rounds|
  {
    if rounds != [] {
      var n := |rounds| - 1;
      var s := AfterRounds(start, rounds[..n], idleClose);
      RequestsAreNeverLate(start, rounds[..n], idleClose, bound);
      LogIsPlaced(start, rounds[..n], idleClose);
      if !s.over {
        RoundKeepsTime(s, rounds[n], n, idleClose, EndOf(start, rounds[..n]), bound);
      }
    }
  }

  // ---------------------------------------------------------------- the relay

  class Socket {
    var closed: bool

    constructor ()
      ensures !closed
    {
      closed := false;
    }
  }

  /** The shared set but for one connection's sockets, and the free slots. */
  datatype Elsewhere = Elsewhere(open: set<Socket>, slots: nat)

  class Relay {
    const idleClose: real
    var open: set<Socket>
    var slots: nat

    constructor (idleClose: real, slots: nat)
      ensures this.idleClose == idleClose && open == {} && this.slots == slots
    {
      this.idleClose, open, this.slots := idleClose, {}, slots;
    }

    method Connect() returns (upstream: Socket)
      modifies this`open
      ensures fresh(upstream) && !upstream.closed && open == old(open) + {upstream}
    {
      upstream := new Socket();
      open := open + {upstream};
    }

    method Drop(sock: Socket)
      modifies this`open, sock
      ensures sock.closed && open == old(open) - {sock}
    {
      open := open - {sock};
      sock.closed := true;
    }

    /** The shared set holds this connection's sockets: the client's and, when connected, the stream's. */
    ghost predicate Holds(s: State, upstream: Option<Socket>, client: Socket, others: set<Socket>)
      reads this
    {
      && s.connected == upstream.Some? && client !in others
      && open == others + {client} + (if upstream.Some? then {upstream.value} else {})
      && (upstream.Some? ==> upstream.value !in others && upstream.value != client)
    }

    /** A readable client: a stream is opened for it when there is none. */
    method FromClient(s: State, t: Transfer, n: nat, upstream0: Option<Socket>, client: Socket, ghost others: set<Socket>)
      returns (s': State, upstream: Option<Socket>)
      requires Holds(s, upstream0, client, others)
      modifies this`open
      ensures s' == AfterClient(s, t, n) && Holds(s', upstream, client, others)
      ensures upstream == upstream0 || (upstream.Some? && fresh(upstream.value))
    {
      s', upstream := AfterClient(s, t, n), upstream0;
      if t.chunk.Data? && upstream.None? && t.connects {
        var stream := Connect();
        upstream := Some(stream);
      }
    }

    /** One round of the loop. */
    method OneRound(s: State, round: Round, n: nat, upstream0: Option<Socket>, client: Socket, ghost others: set<Socket>)
      returns (s': State, upstream: Option<Socket>)
      requires Holds(s, upstream0, client, others)
      modifies this`open, if upstream0.Some? then {upstream0.value} else {}
      ensures s' == AfterRound(s, round, n, idleClose) && Holds(s', upstream, client, others)
      ensures upstream.Some? ==> upstream == upstream0 || fresh(upstream.value)
    {
      s', upstream := s, upstream0;
      match round
      case Quiet(at) =>
        s' := AfterQuiet(s, at, n, idleClose);
        if upstream.Some? && !s'.connected {
          Drop(upstream.value);
          upstream := None;
        }
      case Readable(fromClient, fromServer) =>
        if fromClient.Some? {
          s', upstream := FromClient(s, fromClient.value, n, upstream0, client, others);
        }
        if fromServer.Some? && s.connected && !s'.over {
          s' := AfterServer(s', fromServer.value, n);
        }
    }

    /**
     What other connections and `accept_loop` made of the shared set and the slots, between two
     rounds: they track and drop sockets of their own.
     */
    method Meanwhile(s: State, upstream: Option<Socket>, client: Socket, ghost others: set<Socket>, elsewhere: Elsewhere)
      requires Holds(s, upstream, client, others)
      requires client !in elsewhere.open && (upstream.Some? ==> upstream.value !in elsewhere.open)
      modifies this
      ensures Holds(s, upstream, client, elsewhere.open) && slots == elsewhere.slots
    {
      open := elsewhere.open + {client} + (if upstream.Some? then {upstream.value} else {});
      slots := elsewhere.slots;
    }

    /** What the shared set and the slots are in the end but for this connection. */
    ghost function Finally(elsewhere: seq<Elsewhere>): Elsewhere
      reads this
    {
      if elsewhere == [] then Elsewhere(open, slots) else elsewhere[|elsewhere| - 1]
    }

    /**
     `pump`: the rounds until `stopping` is set, then the sockets go and the slot comes back.
     Other connections run between its rounds; theirs is all that is left in the shared set.
     */
    method Pump(client: Socket, start: real, rounds: seq<Round>, elsewhere: seq<Elsewhere>) returns (w: Wire, over: bool)
      requires client !in open && idleClose > 0.0
      requires |elsewhere| == |rounds| && forall i :: 0 <= i < |elsewhere| ==> client !in elsewhere[i].open
      modifies this, client
      ensures open == old(Finally(elsewhere)).open && slots == old(Finally(elsewhere)).slots + 1 && client.closed
      ensures w == AfterRounds(start, rounds, idleClose).wire && over == AfterRounds(start, rounds, idleClose).over
      ensures InOrder(w) && (!over ==> Complete(w) && w.fromClient == ClientBytes(rounds))
      ensures over ==> exists n :: 0 <= n < |rounds| && CanEnd(rounds[n])
      ensures WellLogged(w.log, rounds, idleClose)
      ensures forall bound :: Prompt(start, rounds, bound) ==> NeverLate(w.log, idleClose, bound)
    {
      ghost var others := open;
      open := open + {client};
      var s, upstream := Initial(start), None;
      for i := 0 to |rounds|
        invariant s == AfterRounds(start, rounds[..i], idleClose) && Holds(s, upstream, client, others)
        invariant upstream.Some? ==> fresh(upstream.value)
        invariant others == old(Finally(elsewhere[..i])).open && slots == old(Finally(elsewhere[..i])).slots
      {
        assert rounds[..i + 1][..i] == rounds[..i];
        if !s.over {
          s, upstream := OneRound(s, rounds[i], i, upstream, client, others);
        }
        Meanwhile(s, upstream, client, others, elsewhere[i]);
        others := elsewhere[i].open;
      }
      assert rounds[..|rounds|] == rounds && elsewhere[..|rounds|] == elsewhere;
      w, over := s.wire, s.over;
      if upstream.Some? {
        Drop(upstream.value);
      }
      Drop(client);
      slots := slots + 1;
      BytesArrive(start, rounds, idleClose);
      LogIsPlaced(start, rounds, idleClose);
      forall bound | Prompt(start, rounds, bound)
        ensures NeverLate(w.log, idleClose, bound)
      {
        RequestsAreNeverLate(start, rounds, idleClose, bound);
      }
    }
  }
}
