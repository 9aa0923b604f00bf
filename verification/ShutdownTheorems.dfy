/**
 What holds on every run of the local lifecycle, whoever ends the process and
 whenever the signal arrives.
 */
module ShutdownTheorems {
  import opened Wrappers
  import opened CleanupProtocol
  import opened CleanupConfluence
  import opened CleanupTiming
  import S = ShutdownSystem
  import K = KillEscalation

  /** The call left by the done branch, or had nothing to do. */
  predicate Completed(c: Cleanup) {
    c.caller == Returned(NothingToDo) || c.caller == Returned(AllDone)
  }

  // ------------------------------------------------------------ slots and kills

  lemma MainEmptiesSafely(s: S.System, ans: S.MainAnswer)
    requires S.SysInv(s) && S.Step(s, S.MainRuns(ans)).Some?
    ensures s.w.slots - S.Step(s, S.MainRuns(ans)).value.w.slots <= s.w.killed
  {
    if s.main.Unwind? {
      if s.main.ops != [] {
        S.UnwindGuarantee(s.main.ops, s.w);
      }
    } else if !s.main.InCleanup? && !s.main.AwaitCancel? {
      S.ProgramGuarantee(s.main, s.w, ans);
    }
  }

  /** A command slot goes from a command to nil only after killProcessWithTimeout on that command has returned. */
  lemma SlotEmptiedOnlyAfterKill(s: S.System, a: S.SysAction)
    requires S.Reachable(s) && S.Step(s, a).Some?
    ensures s.w.slots - S.Step(s, a).value.w.slots <= s.w.killed
  {
    S.ReachableInv(s);
    match a
    case CleanupRuns(side, a) => StepGuarantee(S.CallOf(s, side), s.w, a);
    case MainRuns(ans) => MainEmptiesSafely(s, ans);
    case _ =>
  }

  /** In every reachable state a nil slot whose command was stored belongs to a killed gateway, and a confirmed kill left no process. */
  lemma NilSlotMeansKilled(s: S.System, g: Gateway)
    requires S.Reachable(s)
    ensures g in s.w.stored && g !in s.w.slots ==> g in s.w.killed
    ensures g in s.w.confirmed ==> g in s.w.killed && g !in s.w.alive
  {
    S.ReachableInv(s);
  }

  // ------------------------------------------------------------------- the exit

  /**
   Whoever ends the process: if its CleanupLocal completed, every gateway whose
   command was stored before that call began has been killed, and Docker, if it
   was up by then, was asked to go down or its directory could not be found.
   */
  lemma ExitIsClean(s: S.System, side: S.Side)
    requires S.Reachable(s) && s.exit == Some(side) && Completed(S.CallOf(s, side))
    ensures S.CallOf(s, side).storedAtStart <= s.w.killed
    ensures S.CallOf(s, side).composedAtStart ==> s.w.downTried || s.w.lookupFailed
  {
    S.ReachableInv(s);
    DoneMeansAchieved(S.CallOf(s, side), s.w);
  }

  /** And such a gateway is still alive only if a kill on it returned false: cut short by its context, or having survived three attempts at SIGKILL. */
  lemma LiveMeansKillFailed(s: S.System, side: S.Side)
    requires S.Reachable(s) && s.exit == Some(side) && Completed(S.CallOf(s, side))
    ensures S.CallOf(s, side).storedAtStart * s.w.alive <= s.w.cutShort + s.w.survived
  {
    S.ReachableInv(s);
    ExitIsClean(s, side);
  }

  /** When main itself ends the process that is every gateway started, and no command is left in the configuration. */
  lemma MainExitDropsNothing(s: S.System)
    requires S.Reachable(s) && s.exit == Some(S.MainSide) && Completed(s.mainCall)
    ensures s.w.started <= s.w.killed && s.w.slots == {}
    ensures s.w.composed ==> s.w.downTried || s.w.lookupFailed
  {
    S.ReachableInv(s);
    ExitIsClean(s, S.MainSide);
    var crew := s.mainCall.crew;
    if s.mainCall.caller == Returned(AllDone) {
      AllDonePrintsEverything(s.mainCall, s.w);
    }
    assert forall g: Gateway :: g in s.w.slots ==> g == Ingest || g == Streaming;
  }

  predicate Ending(m: S.Main) {
    m.AwaitCancel? || m.Unwind? || m.InKill? || m.InDocker? || m.InCleanup?
  }

  /** From the final wait on, with the handler not yet begun, its call will see both gateways. */
  ghost predicate FinalPhase(s: S.System) {
    && s.w.stored == S.GATEWAYS
    && Ending(s.main)
    && (s.handlerCall.caller != Idle ==>
          s.handlerCall.storedAtStart == S.GATEWAYS && s.handlerCall.composedAtStart == s.w.composed)
  }

  lemma EndingProgramStep(m: S.Main, w: World, ans: S.MainAnswer)
    requires (m.InKill? || m.InDocker?) && S.ProgramStep(m, w, ans).Some?
    ensures
      var (m', w') := S.ProgramStep(m, w, ans).value;
      Ending(m') && w'.started == w.started && w'.stored == w.stored && w'.composed == w.composed
  {
  }

  lemma EndingMainStep(s: S.System, ans: S.MainAnswer)
    requires Ending(s.main) && S.MainStep(s, ans).Some?
    ensures
      var s' := S.MainStep(s, ans).value;
      && Ending(s'.main) && s'.handlerCall == s.handlerCall
      && s'.w.started == s.w.started && s'.w.stored == s.w.stored && s'.w.composed == s.w.composed
  {
    if s.main.InKill? || s.main.InDocker? {
      EndingProgramStep(s.main, s.w, ans);
    }
  }

  lemma FinalPhaseStep(s: S.System, a: S.SysAction)
    requires S.SysInv(s) && FinalPhase(s) && S.Step(s, a).Some?
    ensures FinalPhase(S.Step(s, a).value)
  {
    match a
    case CleanupRuns(side, a) => StepKeepsHistory(S.CallOf(s, side), s.w, a);
    case MainRuns(ans) => EndingMainStep(s, ans);
    case _ =>
  }

  lemma {:induction false} FinalPhaseLasts(s: S.System, acts: seq<S.SysAction>)
    requires S.SysInv(s) && FinalPhase(s) && S.Exec(s, acts).Some?
    ensures FinalPhase(S.Exec(s, acts).value)
    decreases |acts|
  {
    if acts != [] {
      FinalPhaseStep(s, acts[0]);
      S.StepKeepsSysInv(s, acts[0]);
      FinalPhaseLasts(S.Step(s, acts[0]).value, acts[1..]);
    }
  }

  /**
   A signal at the final wait: in every interleaving of main's deferred cleanups
   with the handler's CleanupLocal, whichever side ends the process after a
   completed cleanup, both gateways have been killed and Docker, if started, was
   asked to go down or its directory could not be found.
   */
  lemma SignalAtFinalWait(s0: S.System, acts: seq<S.SysAction>, side: S.Side)
    requires S.Reachable(s0) && s0.main.AwaitCancel? && s0.handlerCall.caller == Idle
    requires S.Exec(s0, acts).Some?
    requires S.Exec(s0, acts).value.exit == Some(side) && Completed(S.CallOf(S.Exec(s0, acts).value, side))
    ensures
      var s := S.Exec(s0, acts).value;
      && s.w.started <= S.GATEWAYS <= s.w.killed
      && (s.w.composed ==> s.w.downTried || s.w.lookupFailed)
      && (s.w.composed && !s.w.startedDocker ==> s.w.downOk)
  {
    S.ReachableInv(s0);
    FinalPhaseLasts(s0, acts);
    S.RunKeepsSysInv(s0, acts);
    var s := S.Exec(s0, acts).value;
    DoneMeansAchieved(S.CallOf(s, side), s.w);
    assert forall g: Gateway :: g in s.w.started ==> g == Ingest || g == Streaming;
  }

  // ------------------------------------------------------- runs without signal

  predicate NoSignal(acts: seq<S.SysAction>) {
    forall i :: 0 <= i < |acts| ==> acts[i] != S.Signal
  }

  /** The CleanupDocker in progress, on the main goroutine or in its CleanupLocal. */
  function DockerOf(s: S.System): Worker {
    if s.main.InDocker? then Working(Stopping(s.main.d)) else s.mainCall.crew.docker
  }

  ghost predicate QuietInv(s: S.System) {
    && S.SysInv(s) && !s.signalled
    && FlagInv(DockerOf(s), s.w, s.w.composed)
    && (!s.main.InCleanup? ==> s.mainCall.crew.docker == Unspawned)
  }

  /** The CleanupDocker the main goroutine is in, if any. */
  function DockerIn(m: S.Main): Worker {
    if m.InDocker? then Working(Stopping(m.d)) else Unspawned
  }

  lemma ProgramKeepsFlag(m: S.Main, w: World, ans: S.MainAnswer)
    requires WorldInv(w) && S.MainInv(m, w) && S.ProgramStep(m, w, ans).Some?
    requires FlagInv(DockerIn(m), w, w.composed)
    ensures
      var (m', w') := S.ProgramStep(m, w, ans).value;
      FlagInv(DockerIn(m'), w', w'.composed)
  {
  }

  lemma UnwindKeepsFlag(ops: seq<S.Op>, w: World)
    requires ops != [] && FlagInv(Unspawned, w, w.composed)
    ensures
      var (m', w') := S.UnwindStep(ops, w);
      FlagInv(DockerIn(m'), w', w'.composed)
  {
  }

  lemma MainKeepsFlag(s: S.System, ans: S.MainAnswer)
    requires QuietInv(s) && S.Step(s, S.MainRuns(ans)).Some?
    ensures
      var s' := S.Step(s, S.MainRuns(ans)).value;
      FlagInv(DockerOf(s'), s'.w, s'.w.composed) && s'.mainCall.crew == s.mainCall.crew
  {
    S.MainStepKind(s, ans);
    if s.main.Unwind? {
      if s.main.ops != [] {
        UnwindKeepsFlag(s.main.ops, s.w);
      }
    } else if !s.main.InCleanup? && !s.main.AwaitCancel? {
      ProgramKeepsFlag(s.main, s.w, ans);
    }
  }

  lemma StepKeepsQuietInv(s: S.System, a: S.SysAction)
    requires QuietInv(s) && a != S.Signal && S.Step(s, a).Some?
    ensures QuietInv(S.Step(s, a).value)
  {
    S.StepKeepsSysInv(s, a);
    match a
    case MainRuns(ans) => MainKeepsFlag(s, ans);
    case CleanupRuns(side, a) =>
      StepKeepsHistory(S.CallOf(s, side), s.w, a);
      assert side.MainSide?;
      StepKeepsFlag(s.mainCall, s.w, a, s.w.composed);
    case _ =>
  }

  lemma {:induction false} RunKeepsQuietInv(s: S.System, acts: seq<S.SysAction>)
    requires QuietInv(s) && NoSignal(acts) && S.Exec(s, acts).Some?
    ensures QuietInv(S.Exec(s, acts).value)
    decreases |acts|
  {
    if acts != [] {
      assert acts[0] != S.Signal;
      StepKeepsQuietInv(s, acts[0]);
      RunKeepsQuietInv(S.Step(s, acts[0]).value, acts[1..]);
    }
  }

  /** Once main's call has completed no CleanupDocker is in progress. */
  lemma FlagAtExit(s: S.System)
    requires QuietInv(s) && s.exit.Some? && Completed(s.mainCall)
    ensures s.exit == Some(S.MainSide) && (s.w.startedDocker <==> s.w.composed && !s.w.downOk)
  {
    var docker := s.mainCall.crew.docker;
    assert docker == s.mainCall.crew.Get(FromDocker);
    assert s.main.InCleanup?;
    if s.mainCall.caller == Returned(AllDone) {
      assert docker.Finished?;
    } else {
      assert docker.Unspawned?;
    }
  }

  /**
   Without a signal, whatever step of setupLocal fails: when main ends the
   process after a completed cleanup every gateway started has been killed, both
   slots are nil, and StartedDocker is still true exactly if Docker was brought
   up and no CleanupDocker succeeded, at least one having been attempted.
   */
  lemma FailingRunDropsNothing(acts: seq<S.SysAction>)
    requires NoSignal(acts) && S.Exec(S.Initial(), acts).Some?
    requires S.Exec(S.Initial(), acts).value.exit.Some? && Completed(S.Exec(S.Initial(), acts).value.mainCall)
    ensures
      var s := S.Exec(S.Initial(), acts).value;
      && s.exit == Some(S.MainSide)
      && s.w.started <= s.w.killed && s.w.slots == {}
      && (s.w.startedDocker <==> s.w.composed && !s.w.downOk)
      && (s.w.startedDocker ==> s.w.downTried || s.w.lookupFailed)
  {
    S.InitialInv();
    RunKeepsQuietInv(S.Initial(), acts);
    var s := S.Exec(S.Initial(), acts).value;
    assert S.Reachable(s);
    MainExitDropsNothing(s);
    FlagAtExit(s);
  }

  // ----------------------------------------------------------- channel protocol

  /** On every run, for either call: nobody ever blocks on the channel, and nothing is lost on the done branch: two messages, and one more for each goroutine that was given a command. */
  lemma ChannelProtocol(s: S.System, side: S.Side)
    requires S.Reachable(s)
    ensures
      var c := S.CallOf(s, side);
      && |c.results.sent| <= 4
      && (forall x: Source, ans: Answer :: c.panickedBy.None? && c.crew.Get(x).Report? ==>
            CleanupProtocol.Step(c, s.w, WorkerRuns(x, ans)).Some?)
      && (c.caller == Returned(AllDone) ==>
            && c.results.printed == c.results.sent
            && |c.results.printed| == 2 + One(Ingest in c.passed) + One(Streaming in c.passed)
            && forall g: Gateway :: InLog(c.results.printed, FromGateway(g)) <==> g in c.passed)
  {
    S.ReachableInv(s);
    var c := S.CallOf(s, side);
    forall x: Source, ans: Answer | c.panickedBy.None? && c.crew.Get(x).Report?
      ensures CleanupProtocol.Step(c, s.w, WorkerRuns(x, ans)).Some?
    {
      SendNeverBlocks(c, s.w, x, ans);
    }
    if c.caller == Returned(AllDone) {
      AllDonePrintsEverything(c, s.w);
    }
  }

  /** On every run, for either call, what is sent and what is printed is true. */
  lemma MessagesAreTrue(s: S.System, side: S.Side, m: Message)
    requires S.Reachable(s) && (m in S.CallOf(s, side).results.sent || m in S.CallOf(s, side).results.printed)
    ensures
      match m.from
      case FromGateway(g) => (if m.ok then g in s.w.confirmed && g !in s.w.alive else g in s.w.cutShort + s.w.survived)
      case FromPorts => m.ok
      case FromDocker => (if m.ok then S.CallOf(s, side).composedAtStart ==> s.w.downOk else s.w.downTried || s.w.lookupFailed)
  {
    S.ReachableInv(s);
    var c := S.CallOf(s, side);
    assert m in c.results.printed + c.results.buf;
    var i :| 0 <= i < |c.results.sent| && c.results.sent[i] == m;
    assert Truthful(c.results.sent[i], s.w, c.composedAtStart);
  }

  /** A send on the closed channel happens only after the timeout branch, by a goroutine that had not finished. */
  lemma PanicMeansTimeout(s: S.System, side: S.Side, x: Source)
    requires S.Reachable(s) && S.CallOf(s, side).panickedBy == Some(x)
    ensures
      var c := S.CallOf(s, side);
      c.results.closed && Branch(c.caller) == Some(TimedOut) && !c.crew.Get(x).Finished? && c.wg > 0
  {
    S.ReachableInv(s);
  }

  // --------------------------------------------------------------------- time

  /** Every advance of the clock respects both calls' instantaneous steps. */
  predicate PromptRun(s: S.System, acts: seq<S.SysAction>)
    decreases |acts|
  {
    acts == [] ||
    (&& (acts[0].Tick? ==>
           PromptTick(s.mainCall, s.w.now + acts[0].ms) && PromptTick(s.handlerCall, s.w.now + acts[0].ms))
     && S.Step(s, acts[0]).Some?
     && PromptRun(S.Step(s, acts[0]).value, acts[1..]))
  }

  ghost predicate BothTimed(s: S.System) {
    TimedInv(s.mainCall, s.w.now) && TimedInv(s.handlerCall, s.w.now)
  }

  /** c' is c, or c has just been called. */
  predicate SameOrCalled(c: Cleanup, c': Cleanup) {
    c' == c || (c.caller == Idle && c'.caller == CheckDocker)
  }

  lemma ProgramKeepsClock(m: S.Main, w: World, ans: S.MainAnswer)
    requires S.ProgramStep(m, w, ans).Some?
    ensures S.ProgramStep(m, w, ans).value.1.now == w.now
  {
  }

  lemma MainKeepsClock(s: S.System, ans: S.MainAnswer)
    requires S.MainStep(s, ans).Some?
    ensures
      var s' := S.MainStep(s, ans).value;
      s'.w.now == s.w.now && s'.handlerCall == s.handlerCall && SameOrCalled(s.mainCall, s'.mainCall)
  {
    S.MainStepKind(s, ans);
    if s.main.Unwind? {
      assert s.main.ops != [] ==> S.UnwindStep(s.main.ops, s.w).1.now == s.w.now;
    } else if !s.main.InCleanup? && !s.main.AwaitCancel? {
      ProgramKeepsClock(s.main, s.w, ans);
    }
  }

  lemma OtherStepsKeepTimed(s: S.System, a: S.SysAction)
    requires S.Step(s, a).Some? && !a.Tick? && !a.CleanupRuns?
    requires BothTimed(s)
    ensures BothTimed(S.Step(s, a).value)
  {
    match a
    case MainRuns(ans) => MainKeepsClock(s, ans);
    case Cancels =>
    case HandlerRuns => assert SameOrCalled(s.handlerCall, S.Step(s, a).value.handlerCall);
    case _ =>
  }

  lemma TickKeepsTimed(s: S.System, ms: nat)
    requires BothTimed(s) && S.Step(s, S.Tick(ms)).Some?
    requires PromptTick(s.mainCall, s.w.now + ms) && PromptTick(s.handlerCall, s.w.now + ms)
    ensures BothTimed(S.Step(s, S.Tick(ms)).value)
  {
    TickKeepsTimedInv(s.mainCall, s.w.now, s.w.now + ms);
    TickKeepsTimedInv(s.handlerCall, s.w.now, s.w.now + ms);
  }

  lemma CallKeepsTimed(c: Cleanup, w: World, a: Action)
    requires S.CallInv(c, w) && TimedInv(c, w.now) && CleanupProtocol.Step(c, w, a).Some?
    ensures
      var (c', w') := CleanupProtocol.Step(c, w, a).value;
      TimedInv(c', w'.now) && w'.now == w.now
  {
    StepKeepsTimedInv(c, w, a);
    StepKeepsHistory(c, w, a);
  }

  lemma CleanupKeepsTimed(s: S.System, side: S.Side, a: Action)
    requires S.SysInv(s) && BothTimed(s) && S.Step(s, S.CleanupRuns(side, a)).Some?
    ensures BothTimed(S.Step(s, S.CleanupRuns(side, a)).value)
  {
    CallKeepsTimed(S.CallOf(s, side), s.w, a);
  }

  lemma StepKeepsTimed(s: S.System, a: S.SysAction)
    requires S.SysInv(s) && BothTimed(s) && S.Step(s, a).Some?
    requires a.Tick? ==> PromptTick(s.mainCall, s.w.now + a.ms) && PromptTick(s.handlerCall, s.w.now + a.ms)
    ensures BothTimed(S.Step(s, a).value)
  {
    match a
    case Tick(ms) => TickKeepsTimed(s, ms);
    case CleanupRuns(side, a) => CleanupKeepsTimed(s, side, a);
    case _ => OtherStepsKeepTimed(s, a);
  }

  /** No kill has been cut short by its context. */
  ghost predicate PromptInv(s: S.System) {
    S.SysInv(s) && BothTimed(s) && s.w.cutShort == {}
  }

  lemma DockerCutsNoneShort(d: DockerPc, w: World, answer: bool)
    requires DockerStep(d, w, answer).Some?
    ensures DockerStep(d, w, answer).value.1.cutShort == w.cutShort
  {
  }

  lemma WorkerCutsNoneShort(s: Source, x: Worker, w: World, deadline: nat, ans: Answer)
    requires WorkerStep(s, x, w, deadline, ans).Some?
    requires x.Working? && x.job.Killing? ==> !x.job.k.expired
    ensures WorkerStep(s, x, w, deadline, ans).value.1.cutShort == w.cutShort
  {
    if x.Working? && x.job.Stopping? && !x.job.pc.DockerDone? {
      DockerCutsNoneShort(x.job.pc, w, ans.ok);
    }
  }

  lemma CallCutsNoneShort(c: Cleanup, w: World, a: Action)
    requires S.CallInv(c, w) && TimedInv(c, w.now) && CleanupProtocol.Step(c, w, a).Some?
    ensures CleanupProtocol.Step(c, w, a).value.1.cutShort == w.cutShort
  {
    if a.WorkerRuns? {
      var x := c.crew.Get(a.s);
      assert WorkerInv(a.s, x, w, c.storedAtStart, c.composedAtStart);
      assert !x.Unspawned?;
      assert a.s.FromGateway? ==> x == if a.s.g.Ingest? then c.crew.ingest else c.crew.streaming;
      WorkerCutsNoneShort(a.s, x, w, c.deadline, a.ans);
    }
  }

  lemma ProgramCutsNoneShort(m: S.Main, w: World, ans: S.MainAnswer)
    requires S.MainInv(m, w) && S.ProgramStep(m, w, ans).Some?
    ensures S.ProgramStep(m, w, ans).value.1.cutShort == w.cutShort
  {
    if m.InKill? {
      assert m.k.pc.Returned? ==> KillReturns(w, m.g, m.k).cutShort == w.cutShort;
    } else if m.InDocker? {
      if !m.d.DockerDone? {
        DockerCutsNoneShort(m.d, w, ans.ans.ok);
      }
    }
  }

  /** main kills under no deadline. */
  lemma MainCutsNoneShort(s: S.System, ans: S.MainAnswer)
    requires S.SysInv(s) && S.MainStep(s, ans).Some?
    ensures S.MainStep(s, ans).value.w.cutShort == s.w.cutShort
  {
    S.MainStepKind(s, ans);
    if s.main.Unwind? {
      assert s.main.ops != [] ==> S.UnwindStep(s.main.ops, s.w).1.cutShort == s.w.cutShort;
    } else if !s.main.InCleanup? && !s.main.AwaitCancel? {
      ProgramCutsNoneShort(s.main, s.w, ans);
    }
  }

  lemma StepKeepsPromptInv(s: S.System, a: S.SysAction)
    requires PromptInv(s) && S.Step(s, a).Some?
    requires a.Tick? ==> PromptTick(s.mainCall, s.w.now + a.ms) && PromptTick(s.handlerCall, s.w.now + a.ms)
    ensures PromptInv(S.Step(s, a).value)
  {
    StepKeepsTimed(s, a);
    S.StepKeepsSysInv(s, a);
    match a
    case CleanupRuns(side, a) => CallCutsNoneShort(S.CallOf(s, side), s.w, a);
    case MainRuns(ans) => MainCutsNoneShort(s, ans);
    case _ =>
  }

  lemma {:induction false} RunKeepsPromptInv(s: S.System, acts: seq<S.SysAction>)
    requires PromptInv(s) && PromptRun(s, acts)
    ensures S.Exec(s, acts).Some? && PromptInv(S.Exec(s, acts).value)
    decreases |acts|
  {
    if acts != [] {
      StepKeepsPromptInv(s, acts[0]);
      RunKeepsPromptInv(S.Step(s, acts[0]).value, acts[1..]);
    }
  }

  /**
   With instantaneous signals, on every run and for either call: a gateway
   goroutine is finished six seconds after the context was created, its kill never
   sees the context expire, it is finished when the channel is closed, and it is
   never the one that sends on the closed channel.
   */
  lemma GatewayWorkersWithinSixSeconds(acts: seq<S.SysAction>, side: S.Side, g: Gateway)
    requires PromptRun(S.Initial(), acts)
    ensures S.Exec(S.Initial(), acts).Some?
    ensures
      var s := S.Exec(S.Initial(), acts).value;
      var c := S.CallOf(s, side);
      var x := c.crew.Get(FromGateway(g));
      && (!x.Unspawned? && s.w.now + OVERALL_CLEANUP_MS > c.deadline + K.WORST_CASE_KILL_MS ==> x.Finished?)
      && (x.Working? && x.job.Killing? ==> !x.job.k.expired)
      && (c.results.closed ==> x.Finished?)
      && c.panickedBy != Some(FromGateway(g))
  {
    S.InitialInv();
    RunKeepsPromptInv(S.Initial(), acts);
    var s := S.Exec(S.Initial(), acts).value;
    var c := S.CallOf(s, side);
    GatewaysDoNotOutliveTheWait(c, s.w, g);
    assert c.crew.Get(FromGateway(g)).Unspawned? <==> Stage(c.caller) <= SpawnStage(FromGateway(g));
  }

  lemma TimedOutCallHasKilled(c: Cleanup, w: World)
    requires WorldInv(w) && S.CallInv(c, w) && TimedInv(c, w.now) && c.caller.Returned?
    ensures c.storedAtStart <= w.killed
  {
    if c.caller == Returned(TimedOut) {
      forall g | g in c.storedAtStart
        ensures g in w.killed
      {
        GatewaysDoNotOutliveTheWait(c, w, g);
        assert WorkerInv(FromGateway(g), c.crew.Get(FromGateway(g)), w, c.storedAtStart, c.composedAtStart);
      }
    } else {
      DoneMeansAchieved(c, w);
    }
  }

  /**
   With instantaneous signals an exit is clean for the gateways whichever branch
   the exiting side's cleanup took, the timeout included: every gateway stored when
   it began has been killed, and one that is still alive has survived three
   attempts at SIGKILL.
   */
  lemma PromptExitIsClean(acts: seq<S.SysAction>, side: S.Side)
    requires PromptRun(S.Initial(), acts)
    requires S.Exec(S.Initial(), acts).Some? && S.Exec(S.Initial(), acts).value.exit == Some(side)
    ensures
      var s := S.Exec(S.Initial(), acts).value;
      && S.CallOf(s, side).storedAtStart <= s.w.killed
      && S.CallOf(s, side).storedAtStart * s.w.alive <= s.w.survived
  {
    S.InitialInv();
    RunKeepsPromptInv(S.Initial(), acts);
    var s := S.Exec(S.Initial(), acts).value;
    TimedOutCallHasKilled(S.CallOf(s, side), s.w);
  }
}
