/**
 The two-party start of a session: a host controller and the remote runtime, which share only
 the files of the runtime and the diagnostics the remote publishes.

 A run is any sequence of steps: either side advances, fails or is interrupted, time passes, or
 the runtime dies.  The theorems hold of every state of every run, from either side's first step.
 */
module SessionProtocol {
  import opened Prelude

  // ---------------------------------------------------------------- profiles and stages

  datatype Role = Reasoning | Embed | Rerank

  /** The reference profiles: what each serves, in start order. */
  datatype Profile = CpuTransport | Generation | Reranking
  {
    function Servers(): seq<Role> {
      match this
      case CpuTransport => []
      case Generation => [Reasoning, Embed]
      case Reranking => [Embed, Rerank]
    }

    predicate Gpu() {
      !CpuTransport?
    }
  }

  datatype Stage =
    | Starting
    | TransportReady
    | EnvironmentReady
    | InferenceReady
    | ModelsDownloaded
    | PoolingObserved
    | Warmed(count: nat)
    | Ready
    | Stopping
    | Stopped
    | Failed

  /** How far a published stage is; the three stages of a shutdown come last and together. */
  function Rank(profile: Profile, published: Option<Stage>): nat {
    match published
    case None => 0
    case Some(Starting) => 1
    case Some(TransportReady) => 2
    case Some(EnvironmentReady) => 3
    case Some(InferenceReady) => 4
    case Some(ModelsDownloaded) => 5
    case Some(PoolingObserved) => 6
    case Some(Warmed(count)) => 6 + if count <= |profile.Servers()| then count else |profile.Servers()|
    case Some(Ready) => 7 + |profile.Servers()|
    case _ => 10
  }

  // ---------------------------------------------------------------- the remote's program

  /** A child process the remote may start, by the name of its log. */
  datatype Name =
    | Venv | Interpreter | Installer | Install | Dependencies | Software
    | Snapshot(role: Role)
    | Pooling
    | Model(role: Role)

  const INSTALLATION: seq<Name> := [Venv, Interpreter, Installer, Install, Dependencies, Software]

  function Snapshots(roles: seq<Role>): seq<Name> {
    seq(|roles|, i requires 0 <= i < |roles| => Snapshot(roles[i]))
  }

  function Models(roles: seq<Role>): seq<Name> {
    seq(|roles|, i requires 0 <= i < |roles| => Model(roles[i]))
  }

  /** Every process of a session, in the one order in which it may be started. */
  function Plan(profile: Profile): seq<Name> {
    INSTALLATION + Snapshots(profile.Servers()) + [Pooling] + Models(profile.Servers())
  }

  datatype RemotePc =
    | Fresh
    | Opening
    | Awaiting
    | Closing
    | Installing(done: nat, running: bool)
    | Fetching(done: nat, running: bool)
    | Observing(running: bool)
    | Launching(done: nat)
    | Warming(done: nat)
    | Serving
    | Cleaning(why: Ending)
    | Exited

  /** What ended the remote's work; only a requested stop leaves its exit status zero. */
  datatype Ending = StopRequested | Failure | Interrupted

  /** A process start, with what its guard saw. */
  datatype Start = Start(name: Name, time: nat, stop: bool)

  datatype Remote = Remote(pc: RemotePc, listening: nat, started: seq<Start>, models: seq<Role>, warmed: seq<Role>)

  datatype Files = Files(approval: bool, stop: bool, diagnostics: Option<Stage>)

  // ---------------------------------------------------------------- the host's program

  datatype HostPc =
    | AwaitTransport
    | Tunnelling
    | Probing(done: nat)
    | ProbingGateway
    | Approving
    | AwaitReady
    | Launch
    | Working
    | Quiescing
    | Signalling
    | Releasing
    | Done

  datatype Host = Host(pc: HostPc, reached: nat, gatewayVerified: bool, workloadStarted: bool, workloadRunning: bool, quiesceFailed: bool)

  const PORTS: nat := 2

  datatype State = State(profile: Profile, deadline: nat, clock: nat, host: Host, remote: Remote, files: Files)

  function Initial(profile: Profile, deadline: nat, clock: nat): State {
    State(profile, deadline, clock,
          Host(AwaitTransport, 0, false, false, false, false),
          Remote(Fresh, 0, [], [], []),
          Files(false, false, None))
  }

  // ---------------------------------------------------------------- steps of the remote

  /** How a remote step goes: as written, with an exception, or interrupted; a report may fail to be written. */
  datatype Choice = Proceed | Fault(written: bool) | Interrupt(written: bool)

  /** `check`: before the deadline, no stop file.  Dead children and full disks are faults. */
  predicate Checked(s: State) {
    s.clock < s.deadline && !s.files.stop
  }

  function Publish(s: State, stage: Stage): State {
    s.(files := s.files.(diagnostics := Some(stage)))
  }

  function Go(s: State, pc: RemotePc): State {
    s.(remote := s.remote.(pc := pc))
  }

  /** The exception handlers of `run`: on to the clean-up, having reported why if that worked. */
  function Abort(s: State, why: Ending, written: bool): State {
    Go(if written then Publish(s, if why.Failure? then Failed else Stopping) else s, Cleaning(why))
  }

  predicate Taken(started: seq<Start>, name: Name) {
    exists e :: e in started && e.name == name
  }

  /** `ProcessSupervisor.start`, whose guard has just passed: a log name is never used twice. */
  function Spawn(s: State, name: Name, pc: RemotePc): State {
    if Taken(s.remote.started, name) then Abort(s, Failure, true)
    else Go(s.(remote := s.remote.(started := s.remote.started + [Start(name, s.clock, s.files.stop)])), pc)
  }

  function LaunchModel(s: State, server: Role, pc: RemotePc): State {
    var launched := Spawn(s, Model(server), pc);
    if launched.remote.pc.Cleaning? then launched
    else launched.(remote := launched.remote.(models := launched.remote.models + [server]))
  }

  /** What a step that begins with `check` does once it passed. */
  function Guarded(s: State): State {
    var servers := s.profile.Servers();
    match s.remote.pc
    case Fresh => Go(Publish(s, Starting), Opening)
    case Opening =>
      s.(remote := s.remote.(listening := s.remote.listening + 1))
    case Awaiting =>
      if !s.files.approval then s
      else if s.profile.Gpu() then Go(s, Closing)
      else Go(Publish(s, Ready), Serving)
    case Installing(done, false) =>
      if done < |INSTALLATION| then Spawn(s, INSTALLATION[done], Installing(done, true)) else s
    case Fetching(done, false) =>
      if done < |servers| then Spawn(s, Snapshot(servers[done]), Fetching(done, true)) else s
    case Observing(false) => Spawn(s, Pooling, Observing(true))
    case Launching(done) => if done < |servers| then LaunchModel(s, servers[done], Warming(done)) else s
    case Warming(done) =>
      if done < |servers| then
        Go(Publish(s.(remote := s.remote.(warmed := s.remote.warmed + [servers[done]])), Warmed(done + 1)), Launching(done + 1))
      else s
    case _ => s
  }

  /** The steps without a check of their own: a stage being published, listeners being closed, a child run to its end. */
  function Unguarded(s: State): State {
    match s.remote.pc
    case Opening => Go(Publish(s, TransportReady), Awaiting)
    case Closing => Go(s.(remote := s.remote.(listening := 0)), Installing(0, false))
    case Installing(done, true) =>
      var next := done + 1;
      if next == 3 then Go(Publish(s, EnvironmentReady), Installing(next, false))
      else if next == |INSTALLATION| then Go(Publish(s, InferenceReady), Fetching(0, false))
      else Go(s, Installing(next, false))
    case Fetching(done, true) =>
      if done + 1 < |s.profile.Servers()| then Go(s, Fetching(done + 1, false))
      else Go(Publish(s, ModelsDownloaded), Observing(false))
    case Observing(true) => Go(Publish(s, PoolingObserved), Launching(0))
    case Launching(_) => Go(Publish(s, Ready), Serving)
    case _ => s
  }

  predicate HasNoCheck(s: State) {
    match s.remote.pc
    case Opening => s.remote.listening >= PORTS
    case Closing => true
    case Installing(_, running) => running
    case Fetching(_, running) => running
    case Observing(running) => running
    case Launching(done) => done >= |s.profile.Servers()|
    case _ => false
  }

  /** The `finally` of `run`. */
  function CleanUp(s: State, choice: Choice): State
    requires s.remote.pc.Cleaning?
  {
    match choice
    case Proceed =>
      Go(Publish(s.(remote := s.remote.(listening := 0, models := [])), if s.remote.pc.why.StopRequested? then Stopped else Failed), Exited)
    case _ => Go(if choice.written then Publish(s, Failed) else s, Exited)
  }

  function RemoteStep(s: State, choice: Choice): State {
    if s.remote.pc.Exited? then s
    else if s.remote.pc.Cleaning? then CleanUp(s, choice)
    else if !HasNoCheck(s) && !Checked(s) then
      Abort(s, if s.clock >= s.deadline then Failure else StopRequested, choice.Proceed? || choice.written)
    else match choice
      case Proceed => if HasNoCheck(s) then Unguarded(s) else Guarded(s)
      case Fault(written) => Abort(s, Failure, written)
      case Interrupt(written) => Abort(s, Interrupted, written)
  }

  // ---------------------------------------------------------------- steps of the host

  /** How a host step goes: it succeeds, it fails, or it fails after taking effect. */
  datatype Answer = Succeeds | Fails | FailsAfterEffect

  function GoHost(s: State, pc: HostPc): State {
    s.(host := s.host.(pc := pc))
  }

  /** `diagnostic_stage`: a poll that brings the awaited stage moves on, one that brings `failed` gives up. */
  function Poll(s: State, stage: Stage, next: HostPc): State {
    if s.files.diagnostics == Some(stage) then GoHost(s, next)
    else if s.files.diagnostics == Some(Failed) then GoHost(s, Quiescing)
    else s
  }

  /** From the wait for the transport to the approval. */
  function Handshake(s: State, answer: Answer): State {
    match s.host.pc
    case AwaitTransport => if answer.Succeeds? then Poll(s, TransportReady, Tunnelling) else GoHost(s, Quiescing)
    case Tunnelling => GoHost(s, if answer.Succeeds? then Probing(0) else Quiescing)
    case Probing(done) =>
      if !answer.Succeeds? then GoHost(s, Quiescing)
      else
        var probed := s.(host := s.host.(reached := done + 1));
        GoHost(probed, if done + 1 < PORTS then Probing(done + 1) else ProbingGateway)
    case ProbingGateway =>
      if answer.Succeeds? then GoHost(s.(host := s.host.(gatewayVerified := true)), Approving) else GoHost(s, Quiescing)
    case Approving =>
      var sent := if answer.Fails? then s else s.(files := s.files.(approval := true));
      GoHost(sent, if answer.Succeeds? then AwaitReady else Quiescing)
    case _ => s
  }

  /** The workload's own time. */
  function Supervise(s: State, answer: Answer): State {
    match s.host.pc
    case AwaitReady => if answer.Succeeds? then Poll(s, Ready, Launch) else GoHost(s, Quiescing)
    case Launch =>
      if answer.Succeeds? then GoHost(s.(host := s.host.(workloadStarted := true, workloadRunning := true)), Working)
      else GoHost(s, Quiescing)
    case Working =>
      if answer.Succeeds? then s
      else GoHost(if answer.Fails? then s.(host := s.host.(workloadRunning := false)) else s, Quiescing)
    case _ => s
  }

  /** The cleanup: the workload is quiesced, the remote told to stop, the runtime released. */
  function WindDown(s: State, answer: Answer): State {
    match s.host.pc
    case Quiescing =>
      if answer.Succeeds? then GoHost(s.(host := s.host.(workloadRunning := false)), Signalling)
      else GoHost(s.(host := s.host.(quiesceFailed := true)), Signalling)
    case Signalling =>
      var sent := if answer.Fails? then s else s.(files := s.files.(stop := true));
      GoHost(sent, Releasing)
    case Releasing =>
      GoHost(if answer.Fails? then s else s.(remote := s.remote.(pc := Exited, listening := 0, models := [])), Done)
    case _ => s
  }

  function HostStep(s: State, answer: Answer): State {
    match s.host.pc
    case AwaitTransport | Tunnelling | Probing(_) | ProbingGateway | Approving => Handshake(s, answer)
    case AwaitReady | Launch | Working => Supervise(s, answer)
    case Quiescing | Signalling | Releasing => WindDown(s, answer)
    case Done => s
  }

  // ---------------------------------------------------------------- runs

  datatype Step = RemoteMoves(choice: Choice) | HostMoves(answer: Answer) | TimePasses(elapsed: nat) | RuntimeDies

  function Apply(s: State, step: Step): State {
    match step
    case RemoteMoves(choice) => RemoteStep(s, choice)
    case HostMoves(answer) => HostStep(s, answer)
    case TimePasses(elapsed) => s.(clock := s.clock + elapsed)
    // Its listeners go with it; models it started may be left behind.
    case RuntimeDies => s.(remote := s.remote.(pc := Exited, listening := 0))
  }

  function Run(s: State, steps: seq<Step>): State
    decreases |steps|
  {
    if steps == [] then s else Run(Apply(s, steps[0]), steps[1..])
  }

  // ---------------------------------------------------------------- the invariant

  predicate Alive(s: State) {
    !s.remote.pc.Cleaning? && !s.remote.pc.Exited?
  }

  /** The host has seen the tunnel's ports and the gateway reach the remote. */
  predicate Verified(h: Host) {
    h.reached == PORTS && h.gatewayVerified
  }

  /** How far the host has come on the way to its approval. */
  predicate HostVerifies(h: Host, files: Files) {
    && (h.pc.AwaitTransport? || h.pc.Tunnelling? ==> h.reached == 0)
    && (h.pc.Probing? ==> h.pc.done == h.reached < PORTS)
    && (h.pc.ProbingGateway? ==> h.reached == PORTS)
    && (h.pc.Approving? || files.approval ==> Verified(h))
  }

  /** What the host does with its workload, and when it asks the remote to stop. */
  predicate HostWorks(h: Host, files: Files) {
    && ((h.pc.AwaitReady? || h.pc.Launch? || h.pc.Working? || h.workloadStarted) ==> files.approval)
    && (h.workloadRunning ==> h.workloadStarted)
    && (h.workloadRunning && (h.pc.Signalling? || h.pc.Releasing? || h.pc.Done?) ==> h.quiesceFailed)
    && (files.stop ==> h.pc.Releasing? || h.pc.Done?)
  }

  predicate HostKnows(s: State) {
    HostVerifies(s.host, s.files) && HostWorks(s.host, s.files)
  }

  /** What the remote's position says of its processes, listeners and warmed servers. */
  predicate RemoteKnows(s: State) {
    var r := s.remote;
    var servers := s.profile.Servers();
    && r.listening <= PORTS
    && (r.started != [] || r.pc.Closing? || Beyond(r.pc) ==> s.profile.Gpu() && s.files.approval)
    && (r.models != [] ==> r.listening == 0)
    && (Beyond(r.pc) ==> r.listening == 0)
    && r.warmed <= servers
    && (BeforeProcesses(r.pc) ==> r.started == [])
    && (BeforeProcesses(r.pc) || BeforeModels(r.pc) ==> r.models == r.warmed == [])
    && (r.pc.Fetching? ==> r.pc.done < |servers|)
    && (r.pc.Launching? || r.pc.Warming? ==> r.pc.done <= |servers| && r.warmed == servers[..r.pc.done])
    && (r.pc.Warming? ==> r.pc.done < |servers|)
    && (r.pc.Serving? ==> r.warmed == servers && s.files.approval)
    && (s.host.workloadStarted || s.host.pc.Launch? || s.files.diagnostics == Some(Ready) ==> r.warmed == servers)
  }

  predicate BeforeProcesses(pc: RemotePc) {
    pc.Fresh? || pc.Opening? || pc.Awaiting? || pc.Closing?
  }

  /** Past the transport: the phases in which processes are started. */
  predicate Beyond(pc: RemotePc) {
    BeforeModels(pc) || pc.Launching? || pc.Warming?
  }

  predicate BeforeModels(pc: RemotePc) {
    pc.Installing? || pc.Fetching? || pc.Observing?
  }

  /** The published stage never runs ahead of the remote's position. */
  predicate StageAgrees(s: State) {
    && (Alive(s) ==> Rank(s.profile, s.files.diagnostics) <= Reached(s))
    && (Alive(s) && !s.files.approval ==> Rank(s.profile, s.files.diagnostics) <= 2)
  }

  /** The rank a live remote's position allows its report to have. */
  function Reached(s: State): nat {
    match s.remote.pc
    case Fresh => 0
    case Opening => 1
    case Awaiting => 2
    case Closing => 2
    case Installing(done, running) => if done < 3 then 2 else 3
    case Fetching(_, _) => 4
    case Observing(_) => 5
    case Launching(done) => 6 + done
    case Warming(done) => 6 + done
    case _ => 10
  }

  /** Every start passed its guard, and the starts so far are a beginning of the plan. */
  predicate Planned(started: seq<Start>, plan: seq<Name>, deadline: nat, clock: nat) {
    && |started| <= |plan|
    && forall i :: 0 <= i < |started| ==> started[i].name == plan[i] && GuardPassed(started[i], deadline, clock)
  }

  predicate GuardPassed(e: Start, deadline: nat, clock: nat) {
    e.time < deadline && e.time <= clock && !e.stop
  }

  predicate StartsGuarded(s: State) {
    && Planned(s.remote.started, Plan(s.profile), s.deadline, s.clock)
    && (Alive(s) ==> |s.remote.started| == Position(s))
  }

  /** How much of the plan a live remote has started. */
  function Position(s: State): nat {
    var n := |s.profile.Servers()|;
    match s.remote.pc
    case Installing(done, running) => done + if running then 1 else 0
    case Fetching(done, running) => 6 + done + if running then 1 else 0
    case Observing(running) => 6 + n + if running then 1 else 0
    case Launching(done) => 7 + n + done
    case Warming(done) => 8 + n + done
    case Serving => if s.profile.Gpu() then 7 + 2 * n else 0
    case _ => 0
  }

  predicate Inv(s: State) {
    HostKnows(s) && RemoteKnows(s) && StageAgrees(s) && StartsGuarded(s)
  }

  lemma InitialHolds(profile: Profile, deadline: nat, clock: nat)
    ensures Inv(Initial(profile, deadline, clock))
  {
  }

  lemma PlanDistinct(profile: Profile, i: nat, j: nat)
    requires i < j < |Plan(profile)|
    ensures Plan(profile)[i] != Plan(profile)[j]
  {
  }

  /** The next process of the plan has not been started before. */
  lemma NextIsNew(started: seq<Start>, profile: Profile, deadline: nat, clock: nat)
    requires Planned(started, Plan(profile), deadline, clock) && |started| < |Plan(profile)|
    ensures !Taken(started, Plan(profile)[|started|])
  {
    forall i: nat | i < |started|
      ensures started[i].name != Plan(profile)[|started|]
    {
      PlanDistinct(profile, i, |started|);
    }
  }

  lemma PlannedSnoc(started: seq<Start>, plan: seq<Name>, deadline: nat, clock: nat, e: Start)
    requires Planned(started, plan, deadline, clock) && |started| < |plan|
    requires e.name == plan[|started|] && GuardPassed(e, deadline, clock)
    ensures Planned(started + [e], plan, deadline, clock)
  {
  }

  lemma SpawnKeepsStarts(s: State, name: Name, pc: RemotePc)
    requires StartsGuarded(s) && Checked(s) && Alive(s)
    requires |s.remote.started| < |Plan(s.profile)| && name == Plan(s.profile)[|s.remote.started|]
    requires Position(Go(s, pc)) == |s.remote.started| + 1
    ensures StartsGuarded(Spawn(s, name, pc)) && Spawn(s, name, pc).remote.pc == pc
  {
    NextIsNew(s.remote.started, s.profile, s.deadline, s.clock);
    PlannedSnoc(s.remote.started, Plan(s.profile), s.deadline, s.clock, Start(name, s.clock, s.files.stop));
    assert Position(Spawn(s, name, pc)) == Position(Go(s, pc));
  }

  predicate Spawning(pc: RemotePc) {
    pc.Installing? || pc.Fetching? || pc.Observing? || pc.Launching?
  }

  lemma PlainKeepsStarts(s: State)
    requires StartsGuarded(s) && RemoteKnows(s) && Checked(s) && Alive(s) && !Spawning(s.remote.pc)
    ensures StartsGuarded(Guarded(s))
  {
  }

  lemma GuardedKeepsStarts(s: State)
    requires StartsGuarded(s) && RemoteKnows(s) && Checked(s) && Alive(s) && Spawning(s.remote.pc)
    ensures StartsGuarded(Guarded(s))
  {
    var servers := s.profile.Servers();
    match s.remote.pc
    case Installing(done, false) =>
      if done < |INSTALLATION| {
        SpawnKeepsStarts(s, INSTALLATION[done], Installing(done, true));
      }
    case Fetching(done, false) => SpawnKeepsStarts(s, Snapshot(servers[done]), Fetching(done, true));
    case Observing(false) => SpawnKeepsStarts(s, Pooling, Observing(true));
    case Launching(done) =>
      if done < |servers| {
        SpawnKeepsStarts(s, Model(servers[done]), Warming(done));
      }
    case _ =>
  }

  lemma UnguardedKeepsStarts(s: State)
    requires StartsGuarded(s) && RemoteKnows(s) && Alive(s) && HasNoCheck(s)
    ensures StartsGuarded(Unguarded(s))
  {
  }

  lemma RemoteKeepsStarts(s: State, choice: Choice)
    requires StartsGuarded(s) && RemoteKnows(s)
    ensures StartsGuarded(RemoteStep(s, choice))
  {
    if Alive(s) && choice.Proceed? && !HasNoCheck(s) && Checked(s) {
      if Spawning(s.remote.pc) {
        GuardedKeepsStarts(s);
      } else {
        PlainKeepsStarts(s);
      }
    } else if Alive(s) && choice.Proceed? && HasNoCheck(s) {
      UnguardedKeepsStarts(s);
    }
  }

  lemma GuardedKeepsRemote(s: State)
    requires HostKnows(s) && RemoteKnows(s) && StageAgrees(s) && Alive(s) && !HasNoCheck(s)
    ensures RemoteKnows(Guarded(s))
  {
    if Spawning(s.remote.pc) {
      SpawningKeepsRemote(s);
    } else {
      PlainKeepsRemote(s);
    }
  }

  lemma SpawningKeepsRemote(s: State)
    requires HostKnows(s) && RemoteKnows(s) && StageAgrees(s) && Spawning(s.remote.pc) && !HasNoCheck(s)
    ensures RemoteKnows(Guarded(s))
  {
  }

  lemma PlainKeepsRemote(s: State)
    requires HostKnows(s) && RemoteKnows(s) && StageAgrees(s) && Alive(s) && !Spawning(s.remote.pc) && !HasNoCheck(s)
    ensures RemoteKnows(Guarded(s))
  {
  }

  lemma UnguardedKeepsRemote(s: State)
    requires HostKnows(s) && RemoteKnows(s) && StageAgrees(s) && HasNoCheck(s)
    ensures RemoteKnows(Unguarded(s))
  {
  }

  lemma GuardedKeepsStage(s: State)
    requires HostKnows(s) && RemoteKnows(s) && StageAgrees(s) && Alive(s) && !HasNoCheck(s)
    ensures StageAgrees(Guarded(s))
  {
  }

  lemma UnguardedKeepsStage(s: State)
    requires HostKnows(s) && RemoteKnows(s) && StageAgrees(s) && HasNoCheck(s)
    ensures StageAgrees(Unguarded(s))
  {
  }

  lemma EndingKeeps(s: State, why: Ending, written: bool, choice: Choice)
    requires HostKnows(s) && RemoteKnows(s) && StageAgrees(s)
    ensures RemoteKnows(Abort(s, why, written)) && StageAgrees(Abort(s, why, written))
    ensures s.remote.pc.Cleaning? ==> RemoteKnows(CleanUp(s, choice)) && StageAgrees(CleanUp(s, choice))
  {
  }

  lemma RemoteKeeps(s: State, choice: Choice)
    requires Inv(s)
    ensures RemoteKnows(RemoteStep(s, choice)) && StageAgrees(RemoteStep(s, choice))
  {
    if s.remote.pc.Cleaning? {
      EndingKeeps(s, Failure, false, choice);
    } else if Alive(s) && !HasNoCheck(s) && !Checked(s) {
      EndingKeeps(s, if s.clock >= s.deadline then Failure else StopRequested, choice.Proceed? || choice.written, choice);
    } else if Alive(s) && !choice.Proceed? {
      EndingKeeps(s, if choice.Fault? then Failure else Interrupted, choice.written, choice);
    } else if Alive(s) && HasNoCheck(s) {
      UnguardedKeepsRemote(s);
      UnguardedKeepsStage(s);
    } else if Alive(s) {
      GuardedKeepsRemote(s);
      GuardedKeepsStage(s);
    }
  }

  /** Two states between which the remote at most published: all the host relies on stands. */
  predicate OnlyPublished(s: State, t: State) {
    && t.host == s.host && t.profile == s.profile && t.deadline == s.deadline && t.clock == s.clock
    && t.files.approval == s.files.approval && t.files.stop == s.files.stop
  }

  lemma RemoteLeavesHost(s: State, choice: Choice)
    ensures OnlyPublished(s, RemoteStep(s, choice))
  {
    if Alive(s) && choice.Proceed? {
      assert OnlyPublished(s, Guarded(s));
      assert OnlyPublished(s, Unguarded(s));
    }
  }

  lemma HostKeepsVerifying(s: State, answer: Answer)
    requires HostKnows(s)
    ensures HostVerifies(HostStep(s, answer).host, HostStep(s, answer).files)
  {
    if s.host.pc.Probing? || s.host.pc.ProbingGateway? || s.host.pc.Approving? {
      ApprovingKeepsVerifying(s, answer);
    }
  }

  lemma ApprovingKeepsVerifying(s: State, answer: Answer)
    requires HostKnows(s) && (s.host.pc.Probing? || s.host.pc.ProbingGateway? || s.host.pc.Approving?)
    ensures HostVerifies(HostStep(s, answer).host, HostStep(s, answer).files)
  {
  }

  lemma HostKeepsWorking(s: State, answer: Answer)
    requires HostKnows(s)
    ensures HostWorks(HostStep(s, answer).host, HostStep(s, answer).files)
  {
  }

  /** Two states between which the host at most added its approval, or ended the runtime. */
  predicate OnlySignalled(s: State, t: State) {
    && t.profile == s.profile && t.deadline == s.deadline && t.clock == s.clock
    && t.files.diagnostics == s.files.diagnostics
    && (s.files.approval ==> t.files.approval) && (s.files.stop ==> t.files.stop)
    && (t.remote == s.remote || t.remote == s.remote.(pc := Exited, listening := 0, models := []))
    && (t.host.workloadStarted || t.host.pc.Launch? ==>
        s.host.workloadStarted || s.host.pc.Launch? || s.files.diagnostics == Some(Ready))
  }

  lemma HandshakeOnlySignals(s: State, answer: Answer)
    ensures OnlySignalled(s, Handshake(s, answer))
  {
  }

  lemma WindDownOnlySignals(s: State, answer: Answer)
    ensures OnlySignalled(s, WindDown(s, answer))
  {
  }

  lemma HostOnlySignals(s: State, answer: Answer)
    ensures OnlySignalled(s, HostStep(s, answer))
  {
    HandshakeOnlySignals(s, answer);
    WindDownOnlySignals(s, answer);
  }

  lemma SignalsKeepRemote(s: State, t: State)
    requires OnlySignalled(s, t) && RemoteKnows(s) && StageAgrees(s)
    ensures RemoteKnows(t) && StageAgrees(t)
  {
  }

  lemma SignalsKeepStarts(s: State, t: State)
    requires OnlySignalled(s, t) && StartsGuarded(s)
    ensures StartsGuarded(t)
  {
  }

  lemma HostKeepsRemote(s: State, answer: Answer)
    requires Inv(s)
    ensures var t := HostStep(s, answer); RemoteKnows(t) && StageAgrees(t) && StartsGuarded(t)
  {
    HostOnlySignals(s, answer);
    SignalsKeepRemote(s, HostStep(s, answer));
    SignalsKeepStarts(s, HostStep(s, answer));
  }

  lemma StepHolds(s: State, step: Step)
    requires Inv(s)
    ensures Inv(Apply(s, step))
  {
    match step
    case RemoteMoves(choice) =>
      RemoteLeavesHost(s, choice);
      RemoteKeeps(s, choice);
      RemoteKeepsStarts(s, choice);
    case HostMoves(answer) =>
      HostKeepsVerifying(s, answer);
      HostKeepsWorking(s, answer);
      HostKeepsRemote(s, answer);
    case _ =>
  }

  lemma {:induction false} RunHolds(s: State, steps: seq<Step>)
    requires Inv(s)
    ensures Inv(Run(s, steps))
    decreases |steps|
  {
    if steps != [] {
      StepHolds(s, steps[0]);
      RunHolds(Apply(s, steps[0]), steps[1..]);
    }
  }

  // ---------------------------------------------------------------- what every run keeps

  /** The state any interleaving leads to. */
  function After(profile: Profile, deadline: nat, clock: nat, steps: seq<Step>): State {
    Run(Initial(profile, deadline, clock), steps)
  }

  lemma AfterHolds(profile: Profile, deadline: nat, clock: nat, steps: seq<Step>)
    ensures Inv(After(profile, deadline, clock, steps))
    ensures After(profile, deadline, clock, steps).profile == profile
  {
    InitialHolds(profile, deadline, clock);
    RunHolds(Initial(profile, deadline, clock), steps);
    ProfileFixed(Initial(profile, deadline, clock), steps);
  }

  lemma {:induction false} ProfileFixed(s: State, steps: seq<Step>)
    ensures Run(s, steps).profile == s.profile
    decreases |steps|
  {
    if steps != [] {
      match steps[0] {
        case RemoteMoves(choice) => RemoteLeavesHost(s, choice);
        case HostMoves(answer) => HostOnlySignals(s, answer);
        case _ =>
      }
      ProfileFixed(Apply(s, steps[0]), steps[1..]);
    }
  }

  /**
   No install, download or model process has started unless the host has reached both ports
   through the tunnel, seen the gateway work, and uploaded its approval; the CPU profile starts
   none at all.  Whatever was started is a beginning of the plan, each start having seen the
   deadline ahead and no stop request.
   */
  lemma NothingRunsBeforeApproval(profile: Profile, deadline: nat, clock: nat, steps: seq<Step>)
    ensures var s := After(profile, deadline, clock, steps);
            && (s.remote.started != [] ==> profile.Gpu() && s.files.approval && Verified(s.host))
            && Planned(s.remote.started, Plan(profile), s.deadline, s.clock)
  {
    AfterHolds(profile, deadline, clock, steps);
  }

  /** No model server runs beside an open transport listener. */
  lemma ModelsAndListenersExclude(profile: Profile, deadline: nat, clock: nat, steps: seq<Step>)
    ensures var s := After(profile, deadline, clock, steps);
            s.remote.models != [] ==> s.remote.listening == 0
  {
    AfterHolds(profile, deadline, clock, steps);
  }

  /** The workload starts only after every server of the profile was warmed up, in the profile's order. */
  lemma WorkloadFindsEveryServerWarm(profile: Profile, deadline: nat, clock: nat, steps: seq<Step>)
    ensures var s := After(profile, deadline, clock, steps);
            && s.remote.warmed <= profile.Servers()
            && (s.host.workloadStarted ==> s.remote.warmed == profile.Servers() && s.files.approval && Verified(s.host))
  {
    AfterHolds(profile, deadline, clock, steps);
  }

  /** The remote is told to stop only once the workload ended, or could not be ended. */
  lemma StopFollowsQuiescence(profile: Profile, deadline: nat, clock: nat, steps: seq<Step>)
    ensures var s := After(profile, deadline, clock, steps);
            s.files.stop ==> !s.host.workloadRunning || s.host.quiesceFailed
  {
    AfterHolds(profile, deadline, clock, steps);
  }

  /** A host still waiting for the transport has not missed its stage: a live remote cannot pass it alone. */
  lemma HandshakeIsNotMissed(profile: Profile, deadline: nat, clock: nat, steps: seq<Step>)
    ensures var s := After(profile, deadline, clock, steps);
            s.host.pc.AwaitTransport? && Alive(s)
            ==> s.files.diagnostics in {None, Some(Starting), Some(TransportReady)}
  {
    AfterHolds(profile, deadline, clock, steps);
  }

  /** From s to t the published stage did not go back. */
  predicate Advances(s: State, t: State) {
    Rank(s.profile, s.files.diagnostics) <= Rank(s.profile, t.files.diagnostics)
  }

  lemma GuardedAdvances(s: State)
    requires Inv(s) && Alive(s) && !HasNoCheck(s)
    ensures Advances(s, Guarded(s))
  {
  }

  lemma UnguardedAdvances(s: State)
    requires Inv(s) && HasNoCheck(s)
    ensures Advances(s, Unguarded(s))
  {
  }

  lemma RemoteAdvances(s: State, choice: Choice)
    requires Inv(s)
    ensures Advances(s, RemoteStep(s, choice))
  {
    if Alive(s) && HasNoCheck(s) {
      UnguardedAdvances(s);
    } else if Alive(s) {
      GuardedAdvances(s);
    }
  }

  lemma StepAdvances(s: State, step: Step)
    requires Inv(s)
    ensures Advances(s, Apply(s, step))
  {
    match step
    case RemoteMoves(choice) => RemoteAdvances(s, choice);
    case HostMoves(answer) => HostOnlySignals(s, answer);
    case _ =>
  }

  /** What the remote publishes only moves forward, until it shuts down, and then stays there. */
  lemma {:induction false} StagesOnlyAdvance(s: State, steps: seq<Step>)
    requires Inv(s)
    ensures Advances(s, Run(s, steps))
    decreases |steps|
  {
    if steps != [] {
      StepAdvances(s, steps[0]);
      StepHolds(s, steps[0]);
      ProfileFixed(s, [steps[0]]);
      assert Run(s, [steps[0]]) == Run(Apply(s, steps[0]), []);
      StagesOnlyAdvance(Apply(s, steps[0]), steps[1..]);
    }
  }

  /** Once asked to stop, or past its deadline, the remote starts nothing more, ever. */
  lemma {:induction false} NothingStartsAfterStop(s: State, steps: seq<Step>)
    requires !Checked(s)
    ensures Run(s, steps).remote.started == s.remote.started
    decreases |steps|
  {
    if steps != [] {
      var t := Apply(s, steps[0]);
      assert t.remote.started == s.remote.started && !Checked(t);
      NothingStartsAfterStop(t, steps[1..]);
    }
  }

  /** A remote that winds down because it was told to, or says it has stopped, was told to. */
  predicate StopIsAsked(s: State) {
    (s.remote.pc == Cleaning(StopRequested) || s.files.diagnostics == Some(Stopped)) ==> s.files.stop
  }

  lemma WorkKeepsStopAsked(s: State)
    requires StopIsAsked(s) && Alive(s)
    ensures StopIsAsked(Guarded(s)) && StopIsAsked(Unguarded(s))
  {
  }

  lemma RemoteKeepsStopAsked(s: State, choice: Choice)
    requires StopIsAsked(s)
    ensures StopIsAsked(RemoteStep(s, choice))
  {
    if Alive(s) {
      WorkKeepsStopAsked(s);
    }
  }

  lemma StepKeepsStopAsked(s: State, step: Step)
    requires StopIsAsked(s)
    ensures StopIsAsked(Apply(s, step))
  {
    match step
    case RemoteMoves(choice) => RemoteKeepsStopAsked(s, choice);
    case HostMoves(answer) => HostOnlySignals(s, answer);
    case _ =>
  }

  /** `stopped` is published only after the host asked for it: no failure and no interrupt ends in it. */
  lemma {:induction false} StoppedWasAsked(s: State, steps: seq<Step>)
    requires StopIsAsked(s)
    ensures StopIsAsked(Run(s, steps))
    decreases |steps|
  {
    if steps != [] {
      StepKeepsStopAsked(s, steps[0]);
      StoppedWasAsked(Apply(s, steps[0]), steps[1..]);
    }
  }
}
