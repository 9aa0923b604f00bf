/**
 The local lifecycle of cmd/frkrup/main.go: setupLocal on the main goroutine,
 the signal handler's CleanupLocal beside it, and the two CleanupLocal calls
 that can run at the same time over one configuration.

 A signal may arrive at any moment.  The process ends when the main goroutine
 has run its own CleanupLocal or when the handler has run its own, whichever
 comes first; a send on a closed channel ends it too.
 */
module ShutdownSystem {
  import opened Wrappers
  import opened CleanupProtocol
  import K = KillEscalation

  /** What is left to do once setupLocal is on its way out. */
  datatype Op =
    | StopDockerIfStarted         // if config.StartedDocker { CleanupDocker() }
    | KillSlot(g: Gateway)        // killProcess(config.XCmd)
    | NilSlot(g: Gateway)         // config.XCmd = nil
    | DeferStreaming              // the deferred closure over config.StreamingCmd

  datatype Main =
    | EnsureRunning
    | PollServices                // after "docker compose up"
    | CheckServices(left: nat)    // database, broker, migrations
    | MockOidc
    | RegisterSignals             // the second signal.Notify, with a goroutine that cancels the context
    | StartGateway(g: Gateway)
    | StoreGateway(g: Gateway)
    | VerifyGateways
    | AwaitCancel                 // <-ctx.Done()
    | Unwind(ops: seq<Op>)
    | InKill(g: Gateway, k: K.Kill, ops: seq<Op>)
    | InDocker(d: DockerPc, ops: seq<Op>)
    | InCleanup                   // main's own CleanupLocal

  datatype Side = MainSide | HandlerSide

  datatype System = System(
    w: World,
    main: Main,
    signalled: bool,              // the handler goroutine of main has its signal
    notified: bool,               // the cancelling goroutine of setupLocal has its signal
    cancelled: bool,              // the context of setupLocal is cancelled
    mainCall: Cleanup,
    handlerCall: Cleanup,
    exit: Option<Side>,           // who ended the process
    failed: Option<Main>)         // history: the step of setupLocal that failed

  datatype MainAnswer = Succeeds | Fails | ComposeUp | Host(ans: Answer)

  datatype SysAction =
    | Tick(ms: nat)
    | Dies(g: Gateway)
    | Signal
    | Cancels
    | MainRuns(ans: MainAnswer)
    | HandlerRuns
    | CleanupRuns(side: Side, a: Action)

  function InitialWorld(): World {
    World(0, {}, {}, false, {}, {}, {}, {}, {}, {}, false, false, false, false)
  }

  function Initial(): System {
    System(InitialWorld(), EnsureRunning, false, false, false, NewCleanup(), NewCleanup(), None, None)
  }

  function CallOf(s: System, side: Side): Cleanup {
    if side.MainSide? then s.mainCall else s.handlerCall
  }

  /** The process has neither exited nor panicked. */
  predicate Running(s: System) {
    s.exit.None? && s.mainCall.panickedBy.None? && s.handlerCall.panickedBy.None?
  }

  /** setupLocal has called signal.Notify. */
  predicate Registered(m: Main) {
    m.StartGateway? || m.StoreGateway? || m.VerifyGateways? || m.AwaitCancel?
  }

  function UnwindStep(ops: seq<Op>, w: World): (Main, World)
    requires ops != []
  {
    match ops[0]
    case StopDockerIfStarted => (if w.startedDocker then InDocker(ReadFlag, ops[1..]) else Unwind(ops[1..]), w)
    case KillSlot(g) => (if g in w.slots then InKill(g, K.Begin(), ops[1..]) else Unwind(ops[1..]), w)
    case NilSlot(g) => (Unwind(ops[1..]), w.(slots := w.slots - {g}))
    case DeferStreaming =>
      (Unwind(if Streaming in w.slots then [KillSlot(Streaming), NilSlot(Streaming)] + ops[1..] else ops[1..]), w)
  }

  /** The steps of EnsureRunning and setupLocal that do not return. */
  function ProgramStep(m: Main, w: World, ans: MainAnswer): Option<(Main, World)> {
    match m
    case EnsureRunning =>
      (match ans
       case Succeeds => Some((CheckServices(3), w))
       case Fails => Some((Unwind([StopDockerIfStarted]), w))
       case ComposeUp => Some((PollServices, w.(composed := true, startedDocker := true)))
       case Host(_) => None)
    case PollServices =>
      if ans.Succeeds? then Some((CheckServices(3), w))
      else if ans.Fails? then Some((InDocker(ReadFlag, [StopDockerIfStarted]), w))
      else None
    case CheckServices(left) =>
      if ans.Succeeds? then Some((if left <= 1 then MockOidc else CheckServices(left - 1), w))
      else if ans.Fails? then Some((Unwind([StopDockerIfStarted]), w))
      else None
    case MockOidc =>
      if ans.Succeeds? then Some((RegisterSignals, w))
      else if ans.Fails? then Some((Unwind([]), w))
      else None
    case RegisterSignals => Some((StartGateway(Ingest), w))
    case StartGateway(g) =>
      if ans.Succeeds? then
        Some((StoreGateway(g), w.(started := w.started + {g}, alive := w.alive + {g})))
      else if ans.Fails? then
        Some((Unwind(if g.Ingest? then [] else [KillSlot(Ingest), NilSlot(Ingest)]), w))
      else None
    case StoreGateway(g) =>
      Some((if g.Ingest? then StartGateway(Streaming) else VerifyGateways,
            w.(slots := w.slots + {g}, stored := w.stored + {g})))
    case VerifyGateways =>
      if ans.Succeeds? then Some((AwaitCancel, w))
      else if ans.Fails? then
        Some((Unwind([KillSlot(Ingest), KillSlot(Streaming), NilSlot(Ingest), NilSlot(Streaming), DeferStreaming]), w))
      else None
    case InKill(g, k, ops) =>
      if k.pc.Returned? then Some((Unwind(ops), KillReturns(w, g, k)))
      else if !ans.Host? || !ans.ans.KillAnswer? then None
      else
        (match K.Step(k, ans.ans.ev, g in w.alive, w.now, None)
         case None => None
         case Some(k') => Some((InKill(g, k', ops), w)))
    case InDocker(d, ops) =>
      if d.DockerDone? then Some((Unwind(ops), w))
      else if !ans.Host? || !ans.ans.DockerAnswer? then None
      else
        (match DockerStep(d, w, ans.ans.ok)
         case None => None
         case Some((d', w')) => Some((InDocker(d', ops), w')))
    case _ => None
  }

  /** go func() { <-sigChan; CleanupLocal(); os.Exit(1) }() */
  function HandlerStep(s: System): Option<System> {
    if s.handlerCall.caller.Returned? then Some(s.(exit := Some(HandlerSide)))
    else if !s.signalled then None
    else
      match Call(s.handlerCall, s.w)
      case None => None
      case Some(c) => Some(s.(handlerCall := c))
  }

  /** A step of setupLocal with an error return. */
  predicate CanFail(m: Main) {
    m.EnsureRunning? || m.PollServices? || m.CheckServices? || m.MockOidc? || m.StartGateway? || m.VerifyGateways?
  }

  function MainStep(s: System, ans: MainAnswer): Option<System> {
    match s.main
    case InCleanup => if s.mainCall.caller.Returned? then Some(s.(exit := Some(MainSide))) else None
    case AwaitCancel => if s.cancelled then Some(s.(main := Unwind([DeferStreaming]))) else None
    case Unwind(ops) =>
      if ops != [] then
        var (m, w) := UnwindStep(ops, s.w);
        Some(s.(main := m, w := w))
      else
        (match Call(s.mainCall, s.w)
         case None => None
         case Some(c) => Some(s.(mainCall := c, main := InCleanup)))
    case _ =>
      // exec.Cmd.Start refuses a context that is done
      if s.main.StartGateway? && s.cancelled && ans.Succeeds? then None
      else match ProgramStep(s.main, s.w, ans)
      case None => None
      case Some((m, w)) => Some(s.(main := m, w := w, failed := if CanFail(s.main) && ans.Fails? then Some(s.main) else s.failed))
  }

  function Step(s: System, a: SysAction): Option<System> {
    if !Running(s) then None
    else match a
      case Tick(ms) => Some(s.(w := s.w.(now := s.w.now + ms)))
      case Dies(g) => Some(s.(w := s.w.(alive := s.w.alive - {g})))
      case Signal => Some(s.(signalled := true, notified := s.notified || Registered(s.main)))
      case Cancels => if s.notified then Some(s.(cancelled := true)) else None
      case MainRuns(ans) => MainStep(s, ans)
      case HandlerRuns => HandlerStep(s)
      case CleanupRuns(side, a) =>
        match CleanupProtocol.Step(CallOf(s, side), s.w, a)
        case None => None
        case Some((c', w')) =>
          Some(if side.MainSide? then s.(mainCall := c', w := w') else s.(handlerCall := c', w := w'))
  }

  /** What kind of step the main goroutine makes, and what it leaves alone. */
  lemma MainStepKind(s: System, ans: MainAnswer)
    requires MainStep(s, ans).Some?
    ensures
      var s' := MainStep(s, ans).value;
      && s'.handlerCall == s.handlerCall
      && s'.failed == (if CanFail(s.main) && ans.Fails? then Some(s.main) else s.failed)
      && (s'.mainCall == s.mainCall || (s.mainCall.caller == Idle && s'.mainCall == Call(s.mainCall, s.w).value))
      && if s.main.InCleanup? || s.main.AwaitCancel? || s.main == Unwind([]) then s'.w == s.w
         else if s.main.Unwind? then (s'.main, s'.w) == UnwindStep(s.main.ops, s.w) && s'.mainCall == s.mainCall
         else ProgramStep(s.main, s.w, ans) == Some((s'.main, s'.w)) && s'.mainCall == s.mainCall
  {
  }

  /** All runs: every scheduling and every answer of the environment is some sequence of actions. */
  function Exec(s: System, acts: seq<SysAction>): Option<System>
    decreases |acts|
  {
    if acts == [] then Some(s)
    else
      match Step(s, acts[0])
      case None => None
      case Some(s') => Exec(s', acts[1..])
  }

  // -------------------------------------------------------------- invariant

  const GATEWAYS: set<Gateway> := {Ingest, Streaming}

  /** The gateways whose slot may be set to nil: never stored, or killed. */
  function Safe(w: World): set<Gateway> {
    GATEWAYS - (w.stored - w.killed)
  }

  lemma SafeMeans(w: World, g: Gateway)
    ensures g in Safe(w) <==> g !in w.stored || g in w.killed
  {
    assert g == Ingest || g == Streaming;
  }

  /** Every slot that will be set to nil is safe by then. */
  predicate OpsOk(ops: seq<Op>, safe: set<Gateway>) {
    ops == [] ||
    match ops[0]
    case KillSlot(g) => OpsOk(ops[1..], safe + {g})
    case NilSlot(g) => g in safe && OpsOk(ops[1..], safe)
    case _ => OpsOk(ops[1..], safe)
  }

  lemma OpsOkMonotone(ops: seq<Op>, safe: set<Gateway>, more: set<Gateway>)
    requires OpsOk(ops, safe) && safe <= more
    ensures OpsOk(ops, more)
  {
    if ops != [] {
      if ops[0].KillSlot? {
        OpsOkMonotone(ops[1..], safe + {ops[0].g}, more + {ops[0].g});
      } else {
        OpsOkMonotone(ops[1..], safe, more);
      }
    }
  }

  predicate MainInv(m: Main, w: World) {
    match m
    case EnsureRunning => !w.composed && w.started == {}
    case PollServices => w.started == {}
    case CheckServices(_) => w.started == {}
    case MockOidc => w.started == {}
    case RegisterSignals => w.started == {}
    case StartGateway(g) => w.started == w.stored == if g.Ingest? then {} else {Ingest}
    case StoreGateway(g) => (w.stored == if g.Ingest? then {} else {Ingest}) && w.started == w.stored + {g}
    case VerifyGateways => w.started == w.stored == GATEWAYS
    case AwaitCancel => w.started == w.stored == GATEWAYS
    case Unwind(ops) => w.started == w.stored && OpsOk(ops, Safe(w))
    case InKill(g, k, ops) =>
      w.started == w.stored && g in w.stored && K.Inv(k, g in w.alive) && !k.expired && OpsOk(ops, Safe(w) + {g})
    case InDocker(d, ops) => w.started == w.stored && DockerInv(d, w, w.composed) && OpsOk(ops, Safe(w))
    case InCleanup => w.started == w.stored
  }

  ghost predicate CallInv(c: Cleanup, w: World) {
    CleanupProtocol.Inv(c) && SharedInv(c, w)
  }

  ghost predicate SysInv(s: System) {
    && WorldInv(s.w) && MainInv(s.main, s.w)
    && CallInv(s.mainCall, s.w) && CallInv(s.handlerCall, s.w)
    && (s.main.InCleanup? <==> s.mainCall.caller != Idle)
    && (s.main.InCleanup? ==>
          && s.mainCall.storedAtStart == s.w.stored
          && s.mainCall.composedAtStart == s.w.composed
          && ConfigInv(s.mainCall, s.w))
    && (!s.signalled ==> s.handlerCall.caller == Idle)
    && (s.exit.Some? ==> CallOf(s, s.exit.value).caller.Returned?)
  }

  lemma InitialInv()
    ensures SysInv(Initial())
  {
    assert forall s: Source :: NewCleanup().crew.Get(s) == Unspawned;
  }

  /** Steps of other threads leave the main goroutine's facts standing. */
  lemma MainInvStable(m: Main, w: World, w': World)
    requires WorldInv(w) && MainInv(m, w) && Evolves(w, w')
    requires w'.started == w.started && w'.stored == w.stored && w'.composed == w.composed
    ensures MainInv(m, w')
  {
    assert Safe(w) <= Safe(w');
    match m
    case Unwind(ops) => OpsOkMonotone(ops, Safe(w), Safe(w'));
    case InKill(g, k, ops) =>
      assert g in w'.alive ==> g in w.alive;
      OpsOkMonotone(ops, Safe(w) + {g}, Safe(w') + {g});
    case InDocker(d, ops) => OpsOkMonotone(ops, Safe(w), Safe(w'));
    case _ =>
  }

  lemma UnwindGuarantee(ops: seq<Op>, w: World)
    requires WorldInv(w) && ops != [] && MainInv(Unwind(ops), w)
    ensures
      var (m, w') := UnwindStep(ops, w);
      && WorldInv(w') && Evolves(w, w') && MainInv(m, w')
      && w.slots - w.killed <= w'.slots <= w.slots
  {
    var (m, w') := UnwindStep(ops, w);
    match ops[0]
    case KillSlot(g) =>
      if g !in w.slots {
        SafeMeans(w, g);
        assert Safe(w) + {g} == Safe(w);
      }
    case NilSlot(g) =>
      assert Safe(w') == Safe(w);
    case DeferStreaming =>
      if Streaming in w.slots {
        var rest := ops[1..];
        var more := [KillSlot(Streaming), NilSlot(Streaming)] + rest;
        assert more[1..] == [NilSlot(Streaming)] + rest && more[1..][1..] == rest;
        OpsOkMonotone(rest, Safe(w), Safe(w) + {Streaming});
      }
    case StopDockerIfStarted =>
  }

  lemma VerifyFailureOpsOk(safe: set<Gateway>)
    ensures OpsOk([KillSlot(Ingest), KillSlot(Streaming), NilSlot(Ingest), NilSlot(Streaming), DeferStreaming], safe)
    ensures OpsOk([KillSlot(Ingest), NilSlot(Ingest)], safe)
  {
    var ops3 := [NilSlot(Ingest), NilSlot(Streaming), DeferStreaming];
    var ops2 := [KillSlot(Streaming)] + ops3;
    assert ops3[1..] == [NilSlot(Streaming), DeferStreaming];
    assert OpsOk(ops3[1..], safe + {Ingest} + {Streaming});
    assert ops2[1..] == ops3;
    assert OpsOk(ops2, safe + {Ingest});
    assert [KillSlot(Ingest), KillSlot(Streaming), NilSlot(Ingest), NilSlot(Streaming), DeferStreaming][1..] == ops2;
  }

  lemma KillReturnGuarantee(g: Gateway, k: K.Kill, ops: seq<Op>, w: World)
    requires WorldInv(w) && MainInv(InKill(g, k, ops), w) && k.pc.Returned?
    ensures
      var w' := KillReturns(w, g, k);
      WorldInv(w') && Evolves(w, w') && MainInv(Unwind(ops), w') && w'.slots == w.slots
  {
    KillReturnsGuarantee(w, g, k);
    var w' := KillReturns(w, g, k);
    SafeMeans(w', g);
    assert Safe(w) + {g} <= Safe(w');
    OpsOkMonotone(ops, Safe(w) + {g}, Safe(w'));
  }

  lemma KillStepGuarantee(g: Gateway, k: K.Kill, ops: seq<Op>, w: World, ev: K.Event)
    requires WorldInv(w) && MainInv(InKill(g, k, ops), w) && K.Step(k, ev, g in w.alive, w.now, None).Some?
    ensures MainInv(InKill(g, K.Step(k, ev, g in w.alive, w.now, None).value, ops), w)
  {
    K.StepKeepsInv(k, ev, g in w.alive, w.now, None);
    K.StepHistory(k, ev, g in w.alive, w.now, None);
  }

  lemma DockerGuarantee(d: DockerPc, ops: seq<Op>, w: World, ok: bool)
    requires WorldInv(w) && MainInv(InDocker(d, ops), w) && DockerStep(d, w, ok).Some?
    ensures
      var (d', w') := DockerStep(d, w, ok).value;
      WorldInv(w') && Evolves(w, w') && MainInv(InDocker(d', ops), w') && w'.slots == w.slots
  {
    DockerStepGuarantee(d, w, ok, w.composed);
    DockerKeepsHistory(d, w, ok);
    assert Safe(w) <= Safe(DockerStep(d, w, ok).value.1);
    OpsOkMonotone(ops, Safe(w), Safe(DockerStep(d, w, ok).value.1));
  }

  /** Starting a gateway, storing its command and verifying. */
  lemma GatewayGuarantee(m: Main, w: World, ans: MainAnswer)
    requires m.StartGateway? || m.StoreGateway? || m.VerifyGateways?
    requires WorldInv(w) && MainInv(m, w) && ProgramStep(m, w, ans).Some?
    ensures
      var (m', w') := ProgramStep(m, w, ans).value;
      WorldInv(w') && Evolves(w, w') && MainInv(m', w') && w.slots <= w'.slots
  {
    VerifyFailureOpsOk(Safe(w));
  }

  /** Everything before the gateways. */
  lemma ServicesGuarantee(m: Main, w: World, ans: MainAnswer)
    requires m.EnsureRunning? || m.PollServices? || m.CheckServices? || m.MockOidc? || m.RegisterSignals?
    requires WorldInv(w) && MainInv(m, w) && ProgramStep(m, w, ans).Some?
    ensures
      var (m', w') := ProgramStep(m, w, ans).value;
      WorldInv(w') && Evolves(w, w') && MainInv(m', w') && w.slots <= w'.slots
  {
  }

  lemma ProgramGuarantee(m: Main, w: World, ans: MainAnswer)
    requires WorldInv(w) && MainInv(m, w) && ProgramStep(m, w, ans).Some?
    ensures
      var (m', w') := ProgramStep(m, w, ans).value;
      WorldInv(w') && Evolves(w, w') && MainInv(m', w') && w.slots - w.killed <= w'.slots
  {
    if m.InKill? {
      if m.k.pc.Returned? {
        KillReturnGuarantee(m.g, m.k, m.ops, w);
      } else {
        KillStepGuarantee(m.g, m.k, m.ops, w, ans.ans.ev);
      }
    } else if m.InDocker? {
      if !m.d.DockerDone? {
        DockerGuarantee(m.d, m.ops, w, ans.ans.ok);
      }
    } else if m.StartGateway? || m.StoreGateway? || m.VerifyGateways? {
      GatewayGuarantee(m, w, ans);
    } else {
      ServicesGuarantee(m, w, ans);
    }
  }

  // ------------------------------------------------------------- preservation

  lemma CallInvStable(c: Cleanup, w: World, w': World)
    requires WorldInv(w) && Evolves(w, w') && CallInv(c, w)
    ensures CallInv(c, w')
  {
    SharedInvStable(c, w, w');
  }

  lemma MainMoves(s: System, m: Main, w: World, failed: Option<Main>)
    requires SysInv(s) && s.exit.None? && !s.main.InCleanup? && !m.InCleanup?
    requires WorldInv(w) && Evolves(s.w, w) && MainInv(m, w)
    ensures SysInv(s.(main := m, w := w, failed := failed))
  {
    CallInvStable(s.mainCall, s.w, w);
    CallInvStable(s.handlerCall, s.w, w);
  }

  lemma ProgramKeepsInv(s: System, ans: MainAnswer, failed: Option<Main>)
    requires SysInv(s) && s.exit.None? && !s.main.InCleanup? && ProgramStep(s.main, s.w, ans).Some?
    ensures
      var (m, w) := ProgramStep(s.main, s.w, ans).value;
      SysInv(s.(main := m, w := w, failed := failed))
  {
    ProgramGuarantee(s.main, s.w, ans);
    var (m, w) := ProgramStep(s.main, s.w, ans).value;
    MainMoves(s, m, w, failed);
  }

  lemma CallKeepsInv(c: Cleanup, w: World)
    requires CleanupProtocol.Inv(c) && c.caller == Idle
    ensures CleanupProtocol.Inv(Call(c, w).value)
  {
  }

  lemma CallBegins(c: Cleanup, w: World)
    requires WorldInv(w) && CallInv(c, w) && c.caller == Idle
    ensures CallInv(Call(c, w).value, w) && ConfigInv(Call(c, w).value, w)
  {
    var c' := Call(c, w).value;
    assert c'.crew == c.crew;
    assert forall s: Source :: c.crew.Get(s) == Unspawned;
    assert c.crew.ingest == c.crew.Get(FromGateway(Ingest)) && c.crew.streaming == c.crew.Get(FromGateway(Streaming));
    assert c.crew.ports == c.crew.Get(FromPorts) && c.crew.docker == c.crew.Get(FromDocker);
    assert |c.results.sent| == 0;
    CallKeepsInv(c, w);
  }

  lemma UnwindKeepsInv(s: System)
    requires SysInv(s) && s.exit.None? && s.main.Unwind? && MainStep(s, Succeeds).Some?
    ensures SysInv(MainStep(s, Succeeds).value)
  {
    var ops := s.main.ops;
    if ops != [] {
      UnwindGuarantee(ops, s.w);
      var (m, w) := UnwindStep(ops, s.w);
      MainMoves(s, m, w, s.failed);
    } else {
      CallBegins(s.mainCall, s.w);
    }
  }

  lemma MainKeepsInv(s: System, ans: MainAnswer)
    requires SysInv(s) && s.exit.None? && MainStep(s, ans).Some?
    ensures SysInv(MainStep(s, ans).value)
  {
    if s.main.AwaitCancel? {
      assert OpsOk([DeferStreaming], Safe(s.w));
      MainMoves(s, Unwind([DeferStreaming]), s.w, s.failed);
    } else if s.main.Unwind? {
      UnwindKeepsInv(s);
    } else if !s.main.InCleanup? {
      ProgramKeepsInv(s, ans, MainStep(s, ans).value.failed);
    }
  }

  /** What a step of either call leaves to the rest of the system. */
  lemma CallStep(s: System, c: Cleanup, a: Action)
    requires WorldInv(s.w) && MainInv(s.main, s.w) && CallInv(c, s.w) && CleanupProtocol.Step(c, s.w, a).Some?
    ensures
      var (c', w') := CleanupProtocol.Step(c, s.w, a).value;
      && WorldInv(w') && Evolves(s.w, w') && CallInv(c', w') && MainInv(s.main, w')
  {
    StepKeepsInv(c, s.w, a);
    StepGuarantee(c, s.w, a);
    StepKeepsHistory(c, s.w, a);
    MainInvStable(s.main, s.w, CleanupProtocol.Step(c, s.w, a).value.1);
  }

  lemma ConfigInvUnderReleases(c: Cleanup, w: World, w': World)
    requires ConfigInv(c, w) && OnlyReleases(w, w')
    ensures ConfigInv(c, w')
  {
  }

  lemma MainCallKeepsInv(s: System, a: Action)
    requires SysInv(s) && s.exit.None? && Step(s, CleanupRuns(MainSide, a)).Some?
    ensures SysInv(Step(s, CleanupRuns(MainSide, a)).value)
  {
    var (c', w') := CleanupProtocol.Step(s.mainCall, s.w, a).value;
    CallStep(s, s.mainCall, a);
    StepKeepsHistory(s.mainCall, s.w, a);
    CallInvStable(s.handlerCall, s.w, w');
    StepKeepsConfigInv(s.mainCall, s.w, a);
  }

  lemma HandlerCallKeepsInv(s: System, a: Action)
    requires SysInv(s) && s.exit.None? && Step(s, CleanupRuns(HandlerSide, a)).Some?
    ensures SysInv(Step(s, CleanupRuns(HandlerSide, a)).value)
  {
    var (c', w') := CleanupProtocol.Step(s.handlerCall, s.w, a).value;
    CallStep(s, s.handlerCall, a);
    StepKeepsHistory(s.handlerCall, s.w, a);
    CallInvStable(s.mainCall, s.w, w');
    StepOnlyReleases(s.handlerCall, s.w, a);
    if s.main.InCleanup? {
      ConfigInvUnderReleases(s.mainCall, s.w, w');
    }
  }

  lemma StepKeepsSysInv(s: System, a: SysAction)
    requires SysInv(s) && Step(s, a).Some?
    ensures SysInv(Step(s, a).value)
  {
    var s' := Step(s, a).value;
    match a
    case Tick(_) =>
      MainInvStable(s.main, s.w, s'.w);
      CallInvStable(s.mainCall, s.w, s'.w);
      CallInvStable(s.handlerCall, s.w, s'.w);
    case Dies(_) =>
      MainInvStable(s.main, s.w, s'.w);
      CallInvStable(s.mainCall, s.w, s'.w);
      CallInvStable(s.handlerCall, s.w, s'.w);
    case Signal =>
    case Cancels =>
    case MainRuns(ans) => MainKeepsInv(s, ans);
    case HandlerRuns =>
      if !s.handlerCall.caller.Returned? {
        CallBegins(s.handlerCall, s.w);
      }
    case CleanupRuns(side, a) =>
      if side.MainSide? {
        MainCallKeepsInv(s, a);
      } else {
        HandlerCallKeepsInv(s, a);
      }
  }

  lemma {:induction false} RunKeepsSysInv(s: System, acts: seq<SysAction>)
    requires SysInv(s) && Exec(s, acts).Some?
    ensures SysInv(Exec(s, acts).value)
    decreases |acts|
  {
    if acts != [] {
      StepKeepsSysInv(s, acts[0]);
      RunKeepsSysInv(Step(s, acts[0]).value, acts[1..]);
    }
  }

  // ---------------------------------------------------------- signals and context

  /** setupLocal has not registered for signals yet. */
  predicate Unregistered(m: Main) {
    m.EnsureRunning? || m.PollServices? || m.CheckServices? || m.MockOidc? || m.RegisterSignals?
  }

  predicate SignalInv(s: System) {
    && (s.cancelled ==> s.notified)
    && (s.notified ==> s.signalled)
    && (Unregistered(s.main) ==> !s.notified)
  }

  lemma RegistrationLasts(m: Main, w: World, ans: MainAnswer)
    requires ProgramStep(m, w, ans).Some? && !Unregistered(m)
    ensures !Unregistered(ProgramStep(m, w, ans).value.0)
  {
  }

  lemma StepKeepsSignalInv(s: System, a: SysAction)
    requires SignalInv(s) && Step(s, a).Some?
    ensures SignalInv(Step(s, a).value)
  {
    if a.MainRuns? && !Unregistered(s.main) && ProgramStep(s.main, s.w, a.ans).Some? {
      RegistrationLasts(s.main, s.w, a.ans);
    }
  }

  lemma {:induction false} RunKeepsSignalInv(s: System, acts: seq<SysAction>)
    requires SignalInv(s) && Exec(s, acts).Some?
    ensures SignalInv(Exec(s, acts).value)
    decreases |acts|
  {
    if acts != [] {
      StepKeepsSignalInv(s, acts[0]);
      RunKeepsSignalInv(Step(s, acts[0]).value, acts[1..]);
    }
  }

  // --------------------------------------------------------------- reachability

  /** Some run leads from s to t. */
  ghost predicate Reaches(s: System, t: System) {
    exists acts :: Exec(s, acts) == Some(t)
  }

  lemma ReachesItself(s: System)
    ensures Reaches(s, s)
  {
    assert Exec(s, []) == Some(s);
  }

  lemma {:induction false} ExecConcat(s: System, acts: seq<SysAction>, more: seq<SysAction>)
    requires Exec(s, acts).Some?
    ensures Exec(s, acts + more) == Exec(Exec(s, acts).value, more)
    decreases |acts|
  {
    if acts == [] {
      assert acts + more == more;
    } else {
      var all := acts + more;
      assert all != [] && all[0] == acts[0] && all[1..] == acts[1..] + more;
      ExecConcat(Step(s, acts[0]).value, acts[1..], more);
    }
  }

  lemma ReachesStep(s: System, t: System, a: SysAction)
    requires Reaches(s, t) && Step(t, a).Some?
    ensures Reaches(s, Step(t, a).value)
  {
    var acts :| Exec(s, acts) == Some(t);
    ExecConcat(s, acts, [a]);
    assert Exec(t, [a]) == Exec(Step(t, a).value, [a][1..]);
  }

  lemma TimePasses(s: System, t: System, ms: nat) returns (t': System)
    requires Reaches(s, t) && Running(t) && SysInv(t)
    ensures Reaches(s, t') && SysInv(t') && t' == t.(w := t.w.(now := t.w.now + ms))
  {
    ReachesStep(s, t, Tick(ms));
    StepKeepsSysInv(t, Tick(ms));
    t' := Step(t, Tick(ms)).value;
  }

  lemma CallGoesOn(s: System, t: System, side: Side, a: Action) returns (t': System)
    requires Reaches(s, t) && Running(t) && SysInv(t) && CleanupProtocol.Step(CallOf(t, side), t.w, a).Some?
    ensures Reaches(s, t') && SysInv(t')
    ensures CleanupProtocol.Step(CallOf(t, side), t.w, a) == Some((CallOf(t', side), t'.w))
    ensures
      if side.MainSide? then t' == t.(mainCall := t'.mainCall, w := t'.w)
      else t' == t.(handlerCall := t'.handlerCall, w := t'.w)
  {
    ReachesStep(s, t, CleanupRuns(side, a));
    StepKeepsSysInv(t, CleanupRuns(side, a));
    t' := Step(t, CleanupRuns(side, a)).value;
  }

  /** A step of the main goroutine before or after its CleanupLocal. */
  lemma MainGoesOn(s: System, t: System, ans: MainAnswer) returns (t': System)
    requires Reaches(s, t) && Running(t) && SysInv(t) && MainStep(t, ans).Some?
    ensures Reaches(s, t') && SysInv(t') && MainStep(t, ans) == Some(t')
    ensures t.exit == t'.exit ==> Running(t')
  {
    ReachesStep(s, t, MainRuns(ans));
    StepKeepsSysInv(t, MainRuns(ans));
    MainStepKind(t, ans);
    t' := MainStep(t, ans).value;
  }

  lemma ReachesFurther(s: System, t: System, u: System)
    requires Reaches(s, t) && Reaches(t, u)
    ensures Reaches(s, u)
  {
    var acts :| Exec(s, acts) == Some(t);
    var more :| Exec(t, more) == Some(u);
    ExecConcat(s, acts, more);
  }

  ghost predicate Reachable(s: System) {
    Reaches(Initial(), s)
  }

  lemma ReachableInv(s: System)
    requires Reachable(s)
    ensures SysInv(s) && SignalInv(s)
  {
    var acts :| Exec(Initial(), acts) == Some(s);
    InitialInv();
    RunKeepsSysInv(Initial(), acts);
    RunKeepsSignalInv(Initial(), acts);
  }
}
