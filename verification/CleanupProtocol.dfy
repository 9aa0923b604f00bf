/**
 One call of CleanupLocal (cmd/frkrup/cleanup.go) as a state machine.

 Four goroutines report into a channel of capacity four; the caller waits for
 the WaitGroup or for the 15 s context, closes the channel and drains it.  Each
 transition is one access to shared data; the scheduler and every answer of the
 operating system are part of the action, so a run is a sequence of actions and
 a statement about all runs covers all interleavings and all answers.
 */
module CleanupProtocol {
  import opened Wrappers
  import K = KillEscalation

  const OVERALL_CLEANUP_MS: nat := 15000
  const RESULTS_CAPACITY: nat := 4

  datatype Gateway = Ingest | Streaming

  /**
   What the goroutines share.  A gateway's command slot is either nil or holds
   the one command started for it, so the slots are a set of gateways.
   */
  datatype World = World(
    now: nat,                   // ms
    alive: set<Gateway>,        // gateway processes that still answer signal 0
    slots: set<Gateway>,        // config.IngestCmd, config.StreamingCmd that are not nil
    startedDocker: bool,        // config.StartedDocker
    // history
    started: set<Gateway>,      // gateways whose process was started
    stored: set<Gateway>,       // gateways whose command was put in its slot
    killed: set<Gateway>,       // gateways on which killProcessWithTimeout has returned
    confirmed: set<Gateway>,    // gateways on which it has returned true
    cutShort: set<Gateway>,     // gateways on which it has returned false, its context having expired
    survived: set<Gateway>,     // gateways on which it has returned false after three attempts at SIGKILL
    composed: bool,             // "docker compose up" succeeded
    downTried: bool,            // "docker compose down" was run
    downOk: bool,               // "docker compose down" succeeded
    lookupFailed: bool)         // some CleanupDocker did not find the compose directory

  predicate HasAnythingToCleanup(w: World) {
    w.startedDocker || w.slots != {}
  }

  // ----------------------------------------------------------- CleanupDocker

  datatype DockerPc = ReadFlag | FindPath | RunDown | ForceKill | ClearFlag | DockerDone(ok: bool)

  function DockerStep(d: DockerPc, w: World, answer: bool): Option<(DockerPc, World)> {
    match d
    case ReadFlag => Some((if w.startedDocker then FindPath else DockerDone(true), w))
    case FindPath =>
      Some(if answer then (RunDown, w) else (DockerDone(false), w.(lookupFailed := true)))
    case RunDown =>
      Some(if answer then (ClearFlag, w.(downTried := true, downOk := true))
           else (ForceKill, w.(downTried := true)))
    case ForceKill => Some((DockerDone(false), w))
    case ClearFlag => Some((DockerDone(true), w.(startedDocker := false)))
    case DockerDone(_) => None
  }

  // ------------------------------------------------------------- goroutines

  /** The four goroutines, named by what they report on. */
  datatype Source = FromGateway(g: Gateway) | FromPorts | FromDocker
  datatype Message = Message(from: Source, ok: bool)

  datatype Job =
    | GatewayReady(cmd: bool)     // cmd: the command passed to cleanupGateway is non-nil
    | Killing(k: K.Kill)
    | Scanning                    // killPortProcesses, twice
    | Stopping(pc: DockerPc)      // CleanupDocker

  datatype Worker =
    | Unspawned
    | Working(job: Job)
    | Report(ok: bool)
    | ClearSlot                   // onComplete
    | Release(sent: bool)         // deferred wg.Done()
    | Finished(sent: bool)

  datatype Crew = Crew(ingest: Worker, streaming: Worker, ports: Worker, docker: Worker) {
    function Get(s: Source): Worker {
      match s
      case FromGateway(g) => if g.Ingest? then ingest else streaming
      case FromPorts => ports
      case FromDocker => docker
    }

    function Set(s: Source, x: Worker): Crew {
      match s
      case FromGateway(g) => if g.Ingest? then this.(ingest := x) else this.(streaming := x)
      case FromPorts => this.(ports := x)
      case FromDocker => this.(docker := x)
    }
  }

  const NOBODY := Crew(Unspawned, Unspawned, Unspawned, Unspawned)

  datatype Answer = KillAnswer(ev: K.Event) | DockerAnswer(ok: bool)

  datatype Effect = Quiet | Sends(m: Message) | Releases

  function KillReturns(w: World, g: Gateway, k: K.Kill): World
    requires k.pc.Returned?
  {
    if k.pc.ok then w.(killed := w.killed + {g}, confirmed := w.confirmed + {g})
    else if k.expired then w.(killed := w.killed + {g}, cutShort := w.cutShort + {g})
    else if k.tries == K.MAX_KILL_RETRIES then w.(killed := w.killed + {g}, survived := w.survived + {g})
    else w.(killed := w.killed + {g})
  }

  function JobStep(s: Source, job: Job, w: World, deadline: nat, ans: Answer): Option<(Worker, World)> {
    match job
    case GatewayReady(cmd) => Some((if cmd then Working(Killing(K.Begin())) else Release(false), w))
    case Killing(k) =>
      if !s.FromGateway? then None
      else if k.pc.Returned? then Some((Report(k.pc.ok), KillReturns(w, s.g, k)))
      else if !ans.KillAnswer? then None
      else
        (match K.Step(k, ans.ev, s.g in w.alive, w.now, Some(deadline))
         case None => None
         case Some(k') => Some((Working(Killing(k')), w)))
    case Scanning => Some((Report(true), w))
    case Stopping(d) =>
      if d.DockerDone? then Some((Report(d.ok), w))
      else if !ans.DockerAnswer? then None
      else
        (match DockerStep(d, w, ans.ok)
         case None => None
         case Some((d', w')) => Some((Working(Stopping(d')), w')))
  }

  /** One step of goroutine `s`, up to its effect on the channel and the WaitGroup. */
  function WorkerStep(s: Source, x: Worker, w: World, deadline: nat, ans: Answer): Option<(Worker, World, Effect)> {
    match x
    case Unspawned => None
    case Working(job) =>
      (match JobStep(s, job, w, deadline, ans)
       case None => None
       case Some((x', w')) => Some((x', w', Quiet)))
    case Report(ok) => Some((if s.FromGateway? then ClearSlot else Release(true), w, Sends(Message(s, ok))))
    case ClearSlot =>
      Some((Release(true), if s.FromGateway? then w.(slots := w.slots - {s.g}) else w, Quiet))
    case Release(sent) => Some((Finished(sent), w, Releases))
    case Finished(_) => None
  }

  // ------------------------------------------------------------- CleanupLocal

  datatype Outcome = NothingToDo | AllDone | TimedOut

  datatype Caller =
    | Idle
    | CheckDocker | CheckIngest | CheckStreaming      // hasAnythingToCleanup
    | CreateContext
    | Spawn(s: Source)
    | Select
    | CloseResults(branch: Outcome)
    | Drain(branch: Outcome)
    | Returned(outcome: Outcome)

  /** The results channel and everything that ever went through it. */
  datatype Channel = Channel(buf: seq<Message>, closed: bool, sent: seq<Message>, printed: seq<Message>)

  datatype Cleanup = Cleanup(
    caller: Caller,
    deadline: nat,              // of the context
    crew: Crew,
    wg: int,                    // the WaitGroup's counter
    doneClosed: bool,           // wg.Wait() has returned and `done` is closed
    results: Channel,
    panickedBy: Option<Source>, // the goroutine that sent on the closed channel
    // history
    storedAtStart: set<Gateway>,
    composedAtStart: bool,
    passed: set<Gateway>)       // gateways whose goroutine was given a command

  function NewCleanup(): Cleanup {
    Cleanup(Idle, 0, NOBODY, 0, false, Channel([], false, [], []), None, {}, false, {})
  }

  /** Calling CleanupLocal. */
  function Call(c: Cleanup, w: World): Option<Cleanup> {
    if c.caller != Idle then None
    else Some(c.(caller := CheckDocker, storedAtStart := w.stored, composedAtStart := w.composed))
  }

  function Received(r: Channel): Channel
    requires r.buf != []
  {
    r.(buf := r.buf[1..], printed := r.printed + [r.buf[0]])
  }

  /** The job a goroutine starts with; the command is read when the goroutine is created. */
  function FirstJob(s: Source, w: World): Job {
    match s
    case FromGateway(g) => GatewayReady(g in w.slots)
    case FromPorts => Scanning
    case FromDocker => Stopping(ReadFlag)
  }

  function Passed(passed: set<Gateway>, s: Source, w: World): set<Gateway> {
    match s
    case FromGateway(g) => if g in w.slots then passed + {g} else passed - {g}
    case _ => passed
  }

  function AfterSpawn(s: Source): Caller {
    match s
    case FromGateway(g) => Spawn(if g.Ingest? then FromGateway(Streaming) else FromPorts)
    case FromPorts => Spawn(FromDocker)
    case FromDocker => Select
  }

  function CallerStep(c: Cleanup, w: World, takeDone: bool): Option<Cleanup> {
    match c.caller
    case Idle => None
    case CheckDocker => Some(c.(caller := if w.startedDocker then CreateContext else CheckIngest))
    case CheckIngest => Some(c.(caller := if Ingest in w.slots then CreateContext else CheckStreaming))
    case CheckStreaming => Some(c.(caller := if Streaming in w.slots then CreateContext else Returned(NothingToDo)))
    case CreateContext => Some(c.(caller := Spawn(FromGateway(Ingest)), deadline := w.now + OVERALL_CLEANUP_MS))
    case Spawn(s) =>
      Some(c.(caller := AfterSpawn(s), crew := c.crew.Set(s, Working(FirstJob(s, w))), wg := c.wg + 1,
              passed := Passed(c.passed, s, w)))
    case Select =>
      if takeDone then if c.doneClosed then Some(c.(caller := CloseResults(AllDone))) else None
      else if c.deadline <= w.now then Some(c.(caller := CloseResults(TimedOut))) else None
    case CloseResults(branch) => Some(c.(caller := Drain(branch), results := c.results.(closed := true)))
    case Drain(branch) =>
      if c.results.buf == [] then Some(c.(caller := Returned(branch)))
      else Some(c.(results := Received(c.results)))
    case Returned(_) => None
  }

  datatype Action = CallerRuns(takeDone: bool) | WorkerRuns(s: Source, ans: Answer) | WaiterRuns

  function Sent(r: Channel, m: Message): Channel {
    r.(buf := r.buf + [m], sent := r.sent + [m])
  }

  /** A send panics on a closed channel and blocks (None) on a full one. */
  function Apply(c: Cleanup, s: Source, x: Worker, eff: Effect): Option<Cleanup> {
    match eff
    case Quiet => Some(c.(crew := c.crew.Set(s, x)))
    case Releases => Some(c.(crew := c.crew.Set(s, x), wg := c.wg - 1))
    case Sends(m) =>
      if c.results.closed then Some(c.(panickedBy := Some(s)))
      else if |c.results.buf| >= RESULTS_CAPACITY then None
      else Some(c.(crew := c.crew.Set(s, x), results := Sent(c.results, m)))
  }

  function Step(c: Cleanup, w: World, a: Action): Option<(Cleanup, World)> {
    if c.panickedBy.Some? then None
    else match a
      case CallerRuns(takeDone) =>
        (match CallerStep(c, w, takeDone)
         case None => None
         case Some(c') => Some((c', w)))
      case WorkerRuns(s, ans) =>
        (match WorkerStep(s, c.crew.Get(s), w, c.deadline, ans)
         case None => None
         case Some((x, w', eff)) =>
           match Apply(c, s, x, eff)
           case None => None
           case Some(c') => Some((c', w')))
      case WaiterRuns =>
        // go func() { wg.Wait(); close(done) }()
        if c.caller == Select && c.wg == 0 && !c.doneClosed then Some((c.(doneClosed := true), w)) else None
  }

  // ---------------------------------------------------------- channel protocol

  function SpawnStage(s: Source): nat {
    match s
    case FromGateway(g) => if g.Ingest? then 5 else 6
    case FromPorts => 7
    case FromDocker => 8
  }

  /** How far CleanupLocal has got; a call with nothing to do stops before the first spawn. */
  function Stage(p: Caller): nat {
    match p
    case Idle => 0
    case CheckDocker => 1
    case CheckIngest => 2
    case CheckStreaming => 3
    case CreateContext => 4
    case Spawn(s) => SpawnStage(s)
    case Select => 9
    case CloseResults(_) => 10
    case Drain(_) => 11
    case Returned(o) => if o.NothingToDo? then 4 else 12
  }

  /** The branch the select took, once it has. */
  function Branch(p: Caller): Option<Outcome> {
    match p
    case CloseResults(b) => Some(b)
    case Drain(b) => Some(b)
    case Returned(b) => if b.NothingToDo? then None else Some(b)
    case _ => None
  }

  predicate Busy(x: Worker) { !x.Unspawned? && !x.Finished? }

  predicate HasSent(x: Worker) { x.ClearSlot? || (x.Release? && x.sent) || (x.Finished? && x.sent) }

  function One(b: bool): nat { if b then 1 else 0 }

  function BusyCount(crew: Crew): nat {
    One(Busy(crew.ingest)) + One(Busy(crew.streaming)) + One(Busy(crew.ports)) + One(Busy(crew.docker))
  }

  function SentCount(crew: Crew): nat {
    One(HasSent(crew.ingest)) + One(HasSent(crew.streaming)) + One(HasSent(crew.ports)) + One(HasSent(crew.docker))
  }

  lemma SetGet(crew: Crew, s: Source, x: Worker, t: Source)
    ensures crew.Set(s, x).Get(t) == if t == s then x else crew.Get(t)
  {
  }

  lemma SetCounts(crew: Crew, s: Source, x: Worker)
    ensures BusyCount(crew.Set(s, x)) + One(Busy(crew.Get(s))) == BusyCount(crew) + One(Busy(x))
    ensures SentCount(crew.Set(s, x)) + One(HasSent(crew.Get(s))) == SentCount(crew) + One(HasSent(x))
    ensures forall t: Source {:trigger crew.Set(s, x).Get(t)} ::
              crew.Set(s, x).Get(t) == if t == s then x else crew.Get(t)
  {
    match s {
      case FromGateway(Ingest) =>
      case FromGateway(Streaming) =>
      case FromPorts =>
      case FromDocker =>
    }
    forall t: Source
      ensures crew.Set(s, x).Get(t) == if t == s then x else crew.Get(t)
    {
      SetGet(crew, s, x, t);
    }
  }

  predicate ControlInv(c: Cleanup) {
    && c.wg == BusyCount(c.crew)
    && (c.doneClosed ==> c.wg == 0 && Stage(c.caller) >= 9)
    && (c.results.closed <==> Stage(c.caller) >= 11)
    && (Stage(c.caller) >= 10 ==> Branch(c.caller) == Some(AllDone) || Branch(c.caller) == Some(TimedOut))
    && (Branch(c.caller) == Some(AllDone) ==> c.doneClosed)
  }

  ghost predicate SpawnInv(c: Cleanup) {
    forall s: Source :: c.crew.Get(s).Unspawned? <==> Stage(c.caller) <= SpawnStage(s)
  }

  predicate PanicInv(c: Cleanup) {
    c.panickedBy.Some? ==> c.results.closed && Branch(c.caller) == Some(TimedOut) && c.crew.Get(c.panickedBy.value).Report?
  }

  ghost predicate InLog(log: seq<Message>, s: Source) {
    exists i :: 0 <= i < |log| && log[i].from == s
  }

  lemma InLogSnoc(log: seq<Message>, m: Message)
    ensures forall s: Source :: InLog(log + [m], s) <==> InLog(log, s) || s == m.from
  {
    var log' := log + [m];
    assert log'[|log|] == m;
    forall s: Source | InLog(log, s)
      ensures InLog(log', s)
    {
      var i :| 0 <= i < |log| && log[i].from == s;
      assert log'[i].from == s;
    }
  }

  ghost predicate ChannelInv(c: Cleanup) {
    && c.results.sent == c.results.printed + c.results.buf
    && |c.results.sent| == SentCount(c.crew)
    && (forall s: Source :: InLog(c.results.sent, s) <==> HasSent(c.crew.Get(s)))
    && (forall i, j :: 0 <= i < j < |c.results.sent| ==> c.results.sent[i].from != c.results.sent[j].from)
    && (Stage(c.caller) < 11 ==> c.results.printed == [])
    && (Stage(c.caller) == 12 ==> c.results.buf == [])
  }

  ghost predicate Inv(c: Cleanup) {
    ControlInv(c) && SpawnInv(c) && PanicInv(c) && ChannelInv(c)
  }

  /** What a worker step does to the bookkeeping, whatever job it is doing. */
  lemma WorkerStepShape(s: Source, x: Worker, w: World, deadline: nat, ans: Answer)
    requires WorkerStep(s, x, w, deadline, ans).Some?
    ensures
      var (x', w', eff) := WorkerStep(s, x, w, deadline, ans).value;
      && Busy(x) && !x'.Unspawned?
      && (Busy(x') <==> !eff.Releases?)
      && (HasSent(x') <==> HasSent(x) || eff.Sends?)
      && (eff.Sends? ==> eff.m.from == s && !HasSent(x) && x.Report?)
  {
  }

  /** A goroutine's step touches nothing of the call but its own place, the channel and the WaitGroup. */
  lemma ApplyKeepsRest(c: Cleanup, s: Source, x: Worker, eff: Effect)
    requires Apply(c, s, x, eff).Some?
    ensures
      var c' := Apply(c, s, x, eff).value;
      && c'.caller == c.caller && c'.deadline == c.deadline && c'.doneClosed == c.doneClosed
      && c'.passed == c.passed && c'.storedAtStart == c.storedAtStart && c'.composedAtStart == c.composedAtStart
      && (c'.crew == c.crew || c'.crew == c.crew.Set(s, x))
      && (!(eff.Sends? && c.results.closed) ==> c'.crew == c.crew.Set(s, x))
      && c'.results.closed == c.results.closed && c'.results.printed == c.results.printed
  {
  }

  predicate Fits(c: Cleanup, s: Source, x: Worker, eff: Effect) {
    && Busy(c.crew.Get(s)) && !x.Unspawned?
    && (Busy(x) <==> !eff.Releases?)
    && (HasSent(x) <==> HasSent(c.crew.Get(s)) || eff.Sends?)
    && (eff.Sends? ==> eff.m.from == s && !HasSent(c.crew.Get(s)) && c.crew.Get(s).Report?)
  }

  lemma WorkerKeepsControl(c: Cleanup, s: Source, x: Worker, eff: Effect, c': Cleanup)
    requires ControlInv(c) && SpawnInv(c) && c.panickedBy.None? && Apply(c, s, x, eff) == Some(c') && Fits(c, s, x, eff)
    ensures ControlInv(c') && SpawnInv(c') && PanicInv(c')
  {
    SetCounts(c.crew, s, x);
    assert c.wg > 0;
  }

  lemma SendKeepsChannel(c: Cleanup, s: Source, x: Worker, m: Message, c': Cleanup)
    requires ChannelInv(c) && !c.results.closed && Apply(c, s, x, Sends(m)) == Some(c') && Fits(c, s, x, Sends(m))
    requires Stage(c.caller) == 12 ==> c.results.closed
    ensures ChannelInv(c')
  {
    SetCounts(c.crew, s, x);
    InLogSnoc(c.results.sent, m);
    assert !InLog(c.results.sent, s);
  }

  lemma QuietKeepsChannel(c: Cleanup, s: Source, x: Worker, eff: Effect, c': Cleanup)
    requires ChannelInv(c) && !eff.Sends? && Apply(c, s, x, eff) == Some(c') && Fits(c, s, x, eff)
    ensures ChannelInv(c')
  {
    SetCounts(c.crew, s, x);
    assert c'.results == c.results;
  }

  lemma WorkerKeepsChannel(c: Cleanup, s: Source, x: Worker, eff: Effect, c': Cleanup)
    requires ChannelInv(c) && Apply(c, s, x, eff) == Some(c') && Fits(c, s, x, eff)
    requires Stage(c.caller) == 12 ==> c.results.closed
    ensures ChannelInv(c')
  {
    if !eff.Sends? {
      QuietKeepsChannel(c, s, x, eff, c');
    } else if !c.results.closed {
      SendKeepsChannel(c, s, x, eff.m, c');
    }
  }

  lemma WorkerKeepsInv(c: Cleanup, s: Source, x: Worker, eff: Effect, c': Cleanup)
    requires Inv(c) && c.panickedBy.None? && Apply(c, s, x, eff) == Some(c') && Fits(c, s, x, eff)
    ensures Inv(c')
  {
    WorkerKeepsControl(c, s, x, eff, c');
    WorkerKeepsChannel(c, s, x, eff, c');
  }

  lemma SpawnKeepsInv(c: Cleanup, w: World)
    requires Inv(c) && c.caller.Spawn?
    ensures Inv(CallerStep(c, w, false).value)
  {
    var s := c.caller.s;
    var x := Working(FirstJob(s, w));
    var c' := c.(caller := AfterSpawn(s), crew := c.crew.Set(s, x), wg := c.wg + 1,
                   passed := Passed(c.passed, s, w));
    assert c.crew.Get(s).Unspawned?;
    SetCounts(c.crew, s, x);
    forall t: Source
      ensures c'.crew.Get(t).Unspawned? <==> Stage(c'.caller) <= SpawnStage(t)
    {
      assert c'.crew.Get(t) == if t == s then x else c.crew.Get(t);
      assert Stage(c'.caller) == SpawnStage(s) + 1;
      assert SpawnStage(t) == SpawnStage(s) ==> t == s;
    }
  }

  /** A caller step that spawns nothing. */
  predicate QuietCaller(c: Cleanup, c': Cleanup) {
    && c'.crew == c.crew && c'.wg == c.wg && c'.doneClosed == c.doneClosed
    && c'.panickedBy == c.panickedBy == None
    && c'.results.sent == c.results.sent && c'.results.sent == c'.results.printed + c'.results.buf
    && Stage(c'.caller) >= Stage(c.caller)
    && (Stage(c'.caller) <= 5 || Stage(c.caller) >= 9)
    && (c'.results.closed <==> Stage(c'.caller) >= 11)
    && (Stage(c'.caller) >= 10 ==> Branch(c'.caller) == Some(AllDone) || Branch(c'.caller) == Some(TimedOut))
    && (Branch(c'.caller) == Some(AllDone) ==> c.doneClosed)
    && (Stage(c'.caller) < 11 ==> c'.results.printed == [])
    && (Stage(c'.caller) == 12 ==> c'.results.buf == [])
  }

  lemma QuietCallerKeepsInv(c: Cleanup, c': Cleanup)
    requires Inv(c) && QuietCaller(c, c')
    ensures Inv(c')
  {
  }

  lemma CallerStepIsQuiet(c: Cleanup, w: World, takeDone: bool)
    requires ControlInv(c) && c.panickedBy.None? && !c.caller.Spawn? && CallerStep(c, w, takeDone).Some?
    requires c.results.sent == c.results.printed + c.results.buf
    requires Stage(c.caller) < 11 ==> c.results.printed == []
    ensures QuietCaller(c, CallerStep(c, w, takeDone).value)
  {
    match c.caller
    case Drain(_) =>
      if c.results.buf != [] {
        assert c.results.buf == [c.results.buf[0]] + c.results.buf[1..];
      }
    case Select =>
    case CloseResults(_) =>
    case _ =>
  }

  lemma CallerKeepsInv(c: Cleanup, w: World, takeDone: bool)
    requires Inv(c) && c.panickedBy.None? && CallerStep(c, w, takeDone).Some?
    ensures Inv(CallerStep(c, w, takeDone).value)
  {
    if c.caller.Spawn? {
      SpawnKeepsInv(c, w);
    } else {
      CallerStepIsQuiet(c, w, takeDone);
      QuietCallerKeepsInv(c, CallerStep(c, w, takeDone).value);
    }
  }

  lemma StepKeepsInv(c: Cleanup, w: World, a: Action)
    requires Inv(c) && Step(c, w, a).Some?
    ensures Inv(Step(c, w, a).value.0)
  {
    match a
    case CallerRuns(takeDone) =>
      CallerKeepsInv(c, w, takeDone);
    case WorkerRuns(s, ans) =>
      WorkerStepShape(s, c.crew.Get(s), w, c.deadline, ans);
      var (x, w', eff) := WorkerStep(s, c.crew.Get(s), w, c.deadline, ans).value;
      WorkerKeepsInv(c, s, x, eff, Apply(c, s, x, eff).value);
    case WaiterRuns =>
  }

  // ------------------------------------------- shared state, rely and guarantee

  /** What every thread maintains about the shared configuration and the processes. */
  ghost predicate WorldInv(w: World) {
    && w.slots <= w.stored <= w.started
    && w.stored - w.slots <= w.killed       // a slot is emptied only after a kill returned
    && w.alive <= w.started
    && w.confirmed <= w.killed <= w.stored
    && w.killed <= w.confirmed + w.cutShort + w.survived
    && w.confirmed !! w.alive               // a kill that returned true left no process
    && (w.startedDocker ==> w.composed)
    && (w.composed && !w.startedDocker ==> w.downOk)
    && (w.downOk ==> w.downTried)
    && (w.downTried ==> w.composed)
  }

  /** What any step of any thread may do to the world: a reflexive and transitive relation. */
  ghost predicate Evolves(w: World, w': World) {
    && w.now <= w'.now
    && w.started <= w'.started && w.stored <= w'.stored
    && w.killed <= w'.killed && w.confirmed <= w'.confirmed
    && w.cutShort <= w'.cutShort && w.survived <= w'.survived
    && w'.alive * w.started <= w.alive      // the dead stay dead
    && (w.composed ==> w'.composed) && (w.downTried ==> w'.downTried)
    && (w.downOk ==> w'.downOk) && (w.lookupFailed ==> w'.lookupFailed)
  }

  /** A CleanupDocker in progress, `composed` being whether Docker was up when it was asked for. */
  predicate DockerInv(d: DockerPc, w: World, composed: bool) {
    match d
    case ReadFlag => true
    case FindPath => w.composed
    case RunDown => w.composed
    case ForceKill => w.downTried
    case ClearFlag => w.downTried && w.downOk
    case DockerDone(ok) => if ok then composed ==> w.downOk else w.downTried || w.lookupFailed
  }

  /** What a message says is so: a gateway reported stopped is dead and one reported otherwise has outlived a kill; Docker reported stopped is down if it was up. */
  predicate Truthful(m: Message, w: World, composed: bool) {
    match m.from
    case FromGateway(g) => if m.ok then g in w.confirmed else g in w.cutShort + w.survived
    case FromPorts => m.ok
    case FromDocker => if m.ok then composed ==> w.downOk else w.downTried || w.lookupFailed
  }

  predicate WorkerInv(s: Source, x: Worker, w: World, stored: set<Gateway>, composed: bool) {
    match s
    case FromGateway(g) =>
      (match x
       case Unspawned => true
       case Working(job) =>
         (match job
          case GatewayReady(cmd) => if cmd then g in w.stored else g in stored ==> g in w.killed
          case Killing(k) => g in w.stored && K.Inv(k, g in w.alive)
          case _ => false)
       case Report(ok) => g in w.killed && Truthful(Message(s, ok), w, composed)
       case ClearSlot => g in w.killed
       case Release(_) => g in stored ==> g in w.killed
       case Finished(_) => g in stored ==> g in w.killed)
    case FromPorts =>
      (match x
       case Working(job) => job.Scanning?
       case Report(ok) => ok
       case ClearSlot => false
       case Release(sent) => sent
       case Finished(sent) => sent
       case _ => true)
    case FromDocker =>
      (match x
       case Unspawned => true
       case Working(job) => job.Stopping? && DockerInv(job.pc, w, composed)
       case ClearSlot => false
       case Report(ok) => DockerInv(DockerDone(ok), w, composed)
       case Release(sent) => sent && (composed ==> w.downTried || w.lookupFailed)
       case Finished(sent) => sent && (composed ==> w.downTried || w.lookupFailed))
  }

  /** A gateway goroutine kills and reports exactly if it was given a command. */
  predicate SpeaksFor(x: Worker, cmd: bool) {
    match x
    case Unspawned => !cmd
    case Working(job) =>
      (match job
       case GatewayReady(given) => given == cmd
       case Killing(_) => cmd
       case _ => false)
    case Report(_) => cmd
    case ClearSlot => cmd
    case Release(sent) => sent == cmd
    case Finished(sent) => sent == cmd
  }

  ghost predicate PassedInv(c: Cleanup) {
    forall g: Gateway :: SpeaksFor(c.crew.Get(FromGateway(g)), g in c.passed)
  }

  lemma WorkerSpeaks(s: Source, x: Worker, w: World, deadline: nat, ans: Answer, cmd: bool)
    requires s.FromGateway? && SpeaksFor(x, cmd) && WorkerStep(s, x, w, deadline, ans).Some?
    ensures SpeaksFor(WorkerStep(s, x, w, deadline, ans).value.0, cmd)
  {
  }

  lemma CallerKeepsPassedInv(c: Cleanup, w: World, takeDone: bool)
    requires PassedInv(c) && CallerStep(c, w, takeDone).Some?
    ensures PassedInv(CallerStep(c, w, takeDone).value)
  {
    if c.caller.Spawn? {
      SetCounts(c.crew, c.caller.s, Working(FirstJob(c.caller.s, w)));
    } else {
      var c' := CallerStep(c, w, takeDone).value;
      assert c'.crew == c.crew && c'.passed == c.passed;
    }
  }

  lemma WorkerKeepsPassedInv(c: Cleanup, w: World, s: Source, ans: Answer)
    requires PassedInv(c) && Step(c, w, WorkerRuns(s, ans)).Some?
    ensures PassedInv(Step(c, w, WorkerRuns(s, ans)).value.0)
  {
    var x0 := c.crew.Get(s);
    var (x, w', eff) := WorkerStep(s, x0, w, c.deadline, ans).value;
    var c' := Apply(c, s, x, eff).value;
    ApplyKeepsRest(c, s, x, eff);
    if s.FromGateway? {
      WorkerSpeaks(s, x0, w, c.deadline, ans, s.g in c.passed);
    }
    forall g: Gateway
      ensures SpeaksFor(c'.crew.Get(FromGateway(g)), g in c'.passed)
    {
      SetGet(c.crew, s, x, FromGateway(g));
    }
  }

  lemma StepKeepsPassedInv(c: Cleanup, w: World, a: Action)
    requires PassedInv(c) && Step(c, w, a).Some?
    ensures PassedInv(Step(c, w, a).value.0)
  {
    match a
    case CallerRuns(takeDone) => CallerKeepsPassedInv(c, w, takeDone);
    case WaiterRuns =>
    case WorkerRuns(s, ans) => WorkerKeepsPassedInv(c, w, s, ans);
  }

  /** What the caller has learnt before it spawns anything. */
  predicate CallerInv(c: Cleanup, w: World) {
    && c.storedAtStart <= w.stored
    && (c.composedAtStart ==> w.composed)
    && (c.caller.CheckIngest? || c.caller.CheckStreaming? || c.caller == Returned(NothingToDo) ==>
          c.composedAtStart ==> w.downOk)
    && (c.caller.CheckStreaming? || c.caller == Returned(NothingToDo) ==>
          Ingest in c.storedAtStart ==> Ingest in w.killed)
    && (c.caller == Returned(NothingToDo) ==> c.storedAtStart <= w.killed)
  }

  ghost predicate MessagesInv(sent: seq<Message>, w: World, composed: bool) {
    forall i :: 0 <= i < |sent| ==> Truthful(sent[i], w, composed)
  }

  ghost predicate SharedInv(c: Cleanup, w: World) {
    && CallerInv(c, w) && PassedInv(c) && MessagesInv(c.results.sent, w, c.composedAtStart)
    && forall s: Source :: WorkerInv(s, c.crew.Get(s), w, c.storedAtStart, c.composedAtStart)
  }

  lemma WorkerInvStable(s: Source, x: Worker, w: World, w': World, stored: set<Gateway>, composed: bool)
    requires WorldInv(w) && Evolves(w, w') && WorkerInv(s, x, w, stored, composed)
    ensures WorkerInv(s, x, w', stored, composed)
  {
    if s.FromGateway? && x.Working? && x.job.Killing? {
      assert s.g in w'.alive ==> s.g in w.alive;
    }
  }

  lemma SharedInvStable(c: Cleanup, w: World, w': World)
    requires WorldInv(w) && Evolves(w, w') && SharedInv(c, w)
    ensures SharedInv(c, w')
  {
    forall s: Source
      ensures WorkerInv(s, c.crew.Get(s), w', c.storedAtStart, c.composedAtStart)
    {
      WorkerInvStable(s, c.crew.Get(s), w, w', c.storedAtStart, c.composedAtStart);
    }
  }

  lemma DockerStepGuarantee(d: DockerPc, w: World, answer: bool, composed: bool)
    requires WorldInv(w) && DockerInv(d, w, composed) && DockerStep(d, w, answer).Some?
    requires composed ==> w.composed
    ensures
      var (d', w') := DockerStep(d, w, answer).value;
      WorldInv(w') && Evolves(w, w') && DockerInv(d', w', composed) && w'.slots == w.slots
  {
  }

  lemma KillReturnsGuarantee(w: World, g: Gateway, k: K.Kill)
    requires WorldInv(w) && g in w.stored && K.Inv(k, g in w.alive) && k.pc.Returned?
    ensures
      var w' := KillReturns(w, g, k);
      && WorldInv(w') && Evolves(w, w') && w'.slots == w.slots
      && if k.pc.ok then g in w'.confirmed else g in w'.cutShort + w'.survived
  {
  }

  lemma WorkerGuarantee(s: Source, x: Worker, w: World, deadline: nat, ans: Answer, stored: set<Gateway>, composed: bool)
    requires WorldInv(w) && WorkerInv(s, x, w, stored, composed) && (composed ==> w.composed)
    requires WorkerStep(s, x, w, deadline, ans).Some?
    ensures
      var (x', w', eff) := WorkerStep(s, x, w, deadline, ans).value;
      && WorldInv(w') && Evolves(w, w') && w.slots - w.killed <= w'.slots <= w.slots
      && WorkerInv(s, x', w', stored, composed)
      && (eff.Sends? ==> Truthful(eff.m, w', composed))
  {
    if x.Working? && x.job.Killing? {
      var k := x.job.k;
      if k.pc.Returned? {
        KillReturnsGuarantee(w, s.g, k);
      } else {
        K.StepKeepsInv(k, ans.ev, s.g in w.alive, w.now, Some(deadline));
      }
    } else if x.Working? && x.job.Stopping? && !x.job.pc.DockerDone? {
      DockerStepGuarantee(x.job.pc, w, ans.ok, composed);
    }
  }

  lemma CallerGuarantee(c: Cleanup, w: World, takeDone: bool)
    requires ControlInv(c) && WorldInv(w) && SharedInv(c, w) && CallerStep(c, w, takeDone).Some?
    ensures SharedInv(CallerStep(c, w, takeDone).value, w)
  {
    var c' := CallerStep(c, w, takeDone).value;
    CallerKeepsPassedInv(c, w, takeDone);
    if c.caller.Spawn? {
      var s := c.caller.s;
      SetCounts(c.crew, s, Working(FirstJob(s, w)));
      assert WorkerInv(s, Working(FirstJob(s, w)), w, c.storedAtStart, c.composedAtStart);
    } else {
      assert c'.crew == c.crew;
      if c'.caller == Returned(NothingToDo) {
        forall g | g in c.storedAtStart
          ensures g in w.killed
        {
          assert g == Ingest || g == Streaming;
        }
      }
    }
  }

  lemma ApplyKeepsTruth(c: Cleanup, s: Source, x: Worker, eff: Effect, w: World)
    requires MessagesInv(c.results.sent, w, c.composedAtStart) && Apply(c, s, x, eff).Some?
    requires eff.Sends? ==> Truthful(eff.m, w, c.composedAtStart)
    ensures MessagesInv(Apply(c, s, x, eff).value.results.sent, w, c.composedAtStart)
  {
  }

  /** A step of one CleanupLocal keeps the shared invariants, its own and, being within Evolves, everybody else's. */
  lemma StepGuarantee(c: Cleanup, w: World, a: Action)
    requires ControlInv(c) && WorldInv(w) && SharedInv(c, w) && Step(c, w, a).Some?
    ensures
      var (c', w') := Step(c, w, a).value;
      WorldInv(w') && Evolves(w, w') && SharedInv(c', w') && w.slots - w.killed <= w'.slots <= w.slots
  {
    match a
    case CallerRuns(takeDone) => CallerGuarantee(c, w, takeDone);
    case WaiterRuns =>
    case WorkerRuns(s, ans) =>
      var x0 := c.crew.Get(s);
      WorkerGuarantee(s, x0, w, c.deadline, ans, c.storedAtStart, c.composedAtStart);
      var (x, w', eff) := WorkerStep(s, x0, w, c.deadline, ans).value;
      StepKeepsPassedInv(c, w, a);
      SharedInvStable(c, w, w');
      SetCounts(c.crew, s, x);
      ApplyKeepsTruth(c, s, x, eff, w');
  }

  /** What a finished CleanupLocal has achieved, whatever ran beside it. */
  ghost predicate Achieved(c: Cleanup, w: World) {
    c.storedAtStart <= w.killed && (c.composedAtStart ==> w.downTried || w.lookupFailed)
  }

  lemma DoneMeansAchieved(c: Cleanup, w: World)
    requires Inv(c) && WorldInv(w) && SharedInv(c, w)
    requires c.caller == Returned(NothingToDo) || c.caller == Returned(AllDone)
    ensures Achieved(c, w)
  {
    if c.caller == Returned(AllDone) {
      forall s: Source
        ensures c.crew.Get(s).Finished?
      {
        assert !c.crew.Get(s).Unspawned?;
      }
      forall g | g in c.storedAtStart
        ensures g in w.killed
      {
        assert c.crew.Get(FromGateway(g)).Finished?;
        assert WorkerInv(FromGateway(g), c.crew.Get(FromGateway(g)), w, c.storedAtStart, c.composedAtStart);
      }
      assert WorkerInv(FromDocker, c.crew.Get(FromDocker), w, c.storedAtStart, c.composedAtStart);
      assert c.crew.Get(FromDocker).Finished?;
    }
  }

  // -------------------------------------------------- consequences for one call

  /** The channel is never full when somebody sends, so no goroutine ever blocks on it. */
  lemma SendNeverBlocks(c: Cleanup, w: World, s: Source, ans: Answer)
    requires Inv(c) && c.panickedBy.None? && c.crew.Get(s).Report?
    ensures |c.results.buf| < 4
    ensures Step(c, w, WorkerRuns(s, ans)).Some?
    ensures Step(c, w, WorkerRuns(s, ans)).value.0.panickedBy.Some? <==> c.results.closed
  {
    assert !HasSent(c.crew.Get(s));
  }

  /**
   On the done branch every message sent is printed, in order and once for each
   goroutine: the ports', Docker's, and a gateway's exactly if its goroutine was
   given a command.  Every message says what is so.
   */
  lemma {:induction false} AllDonePrintsEverything(c: Cleanup, w: World)
    requires Inv(c) && SharedInv(c, w) && c.caller == Returned(AllDone)
    ensures c.panickedBy.None? && c.results.printed == c.results.sent
    ensures c.crew.ingest == Finished(Ingest in c.passed) && c.crew.streaming == Finished(Streaming in c.passed)
    ensures |c.results.printed| == 2 + One(Ingest in c.passed) + One(Streaming in c.passed)
    ensures forall i, j :: 0 <= i < j < |c.results.printed| ==> c.results.printed[i].from != c.results.printed[j].from
    ensures InLog(c.results.printed, FromPorts) && InLog(c.results.printed, FromDocker)
    ensures forall g: Gateway :: InLog(c.results.printed, FromGateway(g)) <==> g in c.passed
    ensures MessagesInv(c.results.printed, w, c.composedAtStart)
  {
    var r := c.results;
    assert r.printed == r.sent;
    assert c.crew.ingest == c.crew.Get(FromGateway(Ingest)) && c.crew.streaming == c.crew.Get(FromGateway(Streaming));
    assert c.crew.ports == c.crew.Get(FromPorts) && c.crew.docker == c.crew.Get(FromDocker);
    assert WorkerInv(FromPorts, c.crew.ports, w, c.storedAtStart, c.composedAtStart);
    assert WorkerInv(FromDocker, c.crew.docker, w, c.storedAtStart, c.composedAtStart);
    assert SpeaksFor(c.crew.Get(FromGateway(Ingest)), Ingest in c.passed);
    assert SpeaksFor(c.crew.Get(FromGateway(Streaming)), Streaming in c.passed);
    forall g: Gateway
      ensures InLog(r.printed, FromGateway(g)) <==> g in c.passed
    {
      assert c.crew.Get(FromGateway(g)) == Finished(g in c.passed);
    }
  }

  // ------------------------------------------ the configuration after one call

  /** `w'` differs from `w` by nothing that puts a resource back into the configuration. */
  ghost predicate OnlyReleases(w: World, w': World) {
    w'.slots <= w.slots && (w'.startedDocker ==> w.startedDocker)
  }

  /** A gateway goroutine that is past its kill, or never had one, has left its slot nil. */
  predicate SlotCleared(x: Worker) {
    x.Release? || x.Finished? || (x.Working? && x.job == GatewayReady(false))
  }

  /** What a call knows about the configuration while nobody adds to it. */
  predicate ConfigInv(c: Cleanup, w: World) {
    && (SlotCleared(c.crew.ingest) ==> Ingest !in w.slots)
    && (SlotCleared(c.crew.streaming) ==> Streaming !in w.slots)
    && (c.caller.CheckIngest? || c.caller.CheckStreaming? || c.caller == Returned(NothingToDo) ==> !w.startedDocker)
    && (c.caller.CheckStreaming? || c.caller == Returned(NothingToDo) ==> Ingest !in w.slots)
    && (c.caller == Returned(NothingToDo) ==> Streaming !in w.slots)
  }

  lemma CallerKeepsConfigInv(c: Cleanup, w: World, takeDone: bool)
    requires ControlInv(c) && ConfigInv(c, w) && CallerStep(c, w, takeDone).Some?
    ensures ConfigInv(CallerStep(c, w, takeDone).value, w)
  {
    if c.caller.Spawn? {
      SetCounts(c.crew, c.caller.s, Working(FirstJob(c.caller.s, w)));
    } else {
      assert CallerStep(c, w, takeDone).value.crew == c.crew;
    }
  }

  lemma WorkerStepReleases(s: Source, x: Worker, w: World, deadline: nat, ans: Answer)
    requires WorkerStep(s, x, w, deadline, ans).Some?
    requires s.FromGateway? && SlotCleared(x) ==> s.g !in w.slots
    ensures
      var (x', w', eff) := WorkerStep(s, x, w, deadline, ans).value;
      OnlyReleases(w, w') && (s.FromGateway? && SlotCleared(x') ==> s.g !in w'.slots)
  {
  }

  lemma WorkerKeepsConfigInv(c: Cleanup, w: World, s: Source, ans: Answer)
    requires ConfigInv(c, w) && Step(c, w, WorkerRuns(s, ans)).Some?
    ensures
      var (c', w') := Step(c, w, WorkerRuns(s, ans)).value;
      ConfigInv(c', w') && OnlyReleases(w, w')
  {
    assert s.FromGateway? ==> c.crew.Get(s) == if s.g.Ingest? then c.crew.ingest else c.crew.streaming;
    WorkerStepReleases(s, c.crew.Get(s), w, c.deadline, ans);
    var (x, w', eff) := WorkerStep(s, c.crew.Get(s), w, c.deadline, ans).value;
    var c' := Apply(c, s, x, eff).value;
    assert c'.caller == c.caller;
    match s
    case FromGateway(Ingest) => assert c'.crew.streaming == c.crew.streaming;
    case FromGateway(Streaming) => assert c'.crew.ingest == c.crew.ingest;
    case _ => assert c'.crew.ingest == c.crew.ingest && c'.crew.streaming == c.crew.streaming;
  }

  lemma StepKeepsConfigInv(c: Cleanup, w: World, a: Action)
    requires ControlInv(c) && ConfigInv(c, w) && Step(c, w, a).Some?
    ensures
      var (c', w') := Step(c, w, a).value;
      ConfigInv(c', w') && OnlyReleases(w, w')
  {
    match a
    case CallerRuns(takeDone) => CallerKeepsConfigInv(c, w, takeDone);
    case WaiterRuns =>
    case WorkerRuns(s, ans) => WorkerKeepsConfigInv(c, w, s, ans);
  }

  lemma StepOnlyReleases(c: Cleanup, w: World, a: Action)
    requires Step(c, w, a).Some?
    ensures OnlyReleases(w, Step(c, w, a).value.1)
  {
  }

  // ------------------------------------------------------- what no call changes

  /** The clock, the processes and the record of what was started. */
  predicate SameHistory(w: World, w': World) {
    w'.now == w.now && w'.alive == w.alive && w'.started == w.started && w'.stored == w.stored && w'.composed == w.composed
  }

  lemma DockerKeepsHistory(d: DockerPc, w: World, answer: bool)
    requires DockerStep(d, w, answer).Some?
    ensures SameHistory(w, DockerStep(d, w, answer).value.1)
  {
  }

  lemma JobKeepsHistory(s: Source, job: Job, w: World, deadline: nat, ans: Answer)
    requires JobStep(s, job, w, deadline, ans).Some?
    ensures SameHistory(w, JobStep(s, job, w, deadline, ans).value.1)
  {
    if job.Stopping? && !job.pc.DockerDone? {
      DockerKeepsHistory(job.pc, w, ans.ok);
    } else if job.Killing? && !job.k.pc.Returned? {
      assert JobStep(s, job, w, deadline, ans).value.1 == w;
    }
  }

  lemma WorkerKeepsHistory(s: Source, x: Worker, w: World, deadline: nat, ans: Answer)
    requires WorkerStep(s, x, w, deadline, ans).Some?
    ensures SameHistory(w, WorkerStep(s, x, w, deadline, ans).value.1)
  {
    if x.Working? {
      JobKeepsHistory(s, x.job, w, deadline, ans);
    }
  }

  lemma CallerKeepsHistory(c: Cleanup, w: World, takeDone: bool)
    requires CallerStep(c, w, takeDone).Some?
    ensures
      var c' := CallerStep(c, w, takeDone).value;
      && c'.storedAtStart == c.storedAtStart && c'.composedAtStart == c.composedAtStart
      && c.caller != Idle && c'.caller != Idle
  {
  }

  /** A CleanupLocal in progress starts no process, stores no command and forgets nothing of its call. */
  lemma StepKeepsHistory(c: Cleanup, w: World, a: Action)
    requires SpawnInv(c) && Step(c, w, a).Some?
    ensures
      var (c', w') := Step(c, w, a).value;
      && SameHistory(w, w')
      && c'.storedAtStart == c.storedAtStart && c'.composedAtStart == c.composedAtStart
      && c.caller != Idle && c'.caller != Idle
  {
    match a
    case CallerRuns(takeDone) => CallerKeepsHistory(c, w, takeDone);
    case WaiterRuns =>
    case WorkerRuns(s, ans) =>
      WorkerKeepsHistory(s, c.crew.Get(s), w, c.deadline, ans);
      assert !c.crew.Get(s).Unspawned?;
  }
}
