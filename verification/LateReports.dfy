/**
 The send on the closed results channel: which runs of the local lifecycle can
 still crash after a cleanup has given up waiting, and one that does although
 nothing but "docker compose down" is slow.
 */
module LateReports {
  import opened Wrappers
  import opened CleanupProtocol
  import opened CleanupTermination
  import opened CleanupTiming
  import S = ShutdownSystem
  import T = ShutdownTheorems

  /** A goroutine that will report before it finishes: it is about to, or at work on something that ends in a report. */
  predicate Owes(x: Worker) {
    x.Report? || (x.Working? && x.job != GatewayReady(false))
  }

  ghost predicate SomebodyOwes(c: Cleanup) {
    exists x: Source :: Owes(c.crew.Get(x))
  }

  /** From s the process can go on to a send on the closed channel of the side's cleanup. */
  ghost predicate CanCrash(s: S.System, side: S.Side) {
    exists t: S.System :: S.Reaches(s, t) && S.CallOf(t, side).panickedBy.Some?
  }

  // ------------------------------------------------- a report owed can be the crash

  /** A step of a goroutine that owes a report: the report, or something that leaves it owing. */
  lemma OwingStep(s: Source, x: Worker, w: World, deadline: nat, ans: Answer)
    requires Owes(x) && WorkerStep(s, x, w, deadline, ans).Some?
    ensures
      var (x', w', eff) := WorkerStep(s, x, w, deadline, ans).value;
      if x.Report? then eff.Sends? else eff == Quiet && Owes(x')
  {
  }

  /** The same step within the call, its channel being closed: a panic, or the goroutine still owes. */
  lemma OwingCallStep(c: Cleanup, w: World, x: Source, ans: Answer)
    requires c.results.closed && Owes(c.crew.Get(x)) && Step(c, w, WorkerRuns(x, ans)).Some?
    ensures
      var c' := Step(c, w, WorkerRuns(x, ans)).value.0;
      c'.panickedBy == Some(x) || (c'.panickedBy.None? && c'.results.closed && Owes(c'.crew.Get(x)))
  {
    OwingStep(x, c.crew.Get(x), w, c.deadline, ans);
    var (x', w', eff) := WorkerStep(x, c.crew.Get(x), w, c.deadline, ans).value;
    ApplyKeepsRest(c, x, x', eff);
    SetGet(c.crew, x, x', x);
  }

  lemma OwingEnabled(s: S.System, side: S.Side, x: Source) returns (ms: nat, ans: Answer)
    requires S.SysInv(s) && S.Running(s) && Owes(S.CallOf(s, side).crew.Get(x))
    ensures Enabled(S.CallOf(s, side), s.w, ms, WorkerRuns(x, ans))
  {
    ms, ans := WorkerCanStep(S.CallOf(s, side), s.w, x);
  }

  lemma CallRankDecreases(s: S.System, side: S.Side, a: Action)
    requires S.SysInv(s) && Step(S.CallOf(s, side), s.w, a).Some?
    ensures Rank(Step(S.CallOf(s, side), s.w, a).value.0) < Rank(S.CallOf(s, side))
  {
    StepDecreasesRank(S.CallOf(s, side), s.w, a);
  }

  /** One step of the owing goroutine, after some waiting. */
  lemma OwingProgress(s: S.System, t: S.System, side: S.Side, x: Source) returns (t': S.System)
    requires S.Reaches(s, t) && S.SysInv(t) && S.Running(t)
    requires S.CallOf(t, side).results.closed && Owes(S.CallOf(t, side).crew.Get(x))
    ensures S.Reaches(s, t') && S.SysInv(t')
    ensures S.CallOf(t', side).panickedBy == Some(x) ||
      (&& S.Running(t') && S.CallOf(t', side).results.closed && Owes(S.CallOf(t', side).crew.Get(x))
       && Rank(S.CallOf(t', side)) < Rank(S.CallOf(t, side)))
  {
    var ms, ans := OwingEnabled(t, side, x);
    var u := S.TimePasses(s, t, ms);
    var c := S.CallOf(t, side);
    assert S.CallOf(u, side) == c;
    EnabledLater(c, t.w, ms, WorkerRuns(x, ans), u.w);
    t' := S.CallGoesOn(s, u, side, WorkerRuns(x, ans));
    OwingCallStep(c, u.w, x, ans);
    CallRankDecreases(u, side, WorkerRuns(x, ans));
  }

  lemma OwingCrashes(s: S.System, t: S.System, side: S.Side, x: Source) returns (t': S.System)
    requires S.Reaches(s, t) && S.SysInv(t) && S.Running(t)
    requires S.CallOf(t, side).results.closed && Owes(S.CallOf(t, side).crew.Get(x))
    ensures S.Reaches(s, t') && S.CallOf(t', side).panickedBy == Some(x)
    decreases Rank(S.CallOf(t, side))
  {
    t' := OwingProgress(s, t, side, x);
    if S.CallOf(t', side).panickedBy.None? {
      t' := OwingCrashes(s, t', side, x);
    }
  }

  // ---------------------------------------------- without one there is no crash

  /** The channel is closed and nobody owes a report. */
  ghost predicate Quiescent(c: Cleanup) {
    (c.caller.Drain? || c.caller.Returned?) && c.panickedBy.None? && forall x: Source :: !Owes(c.crew.Get(x))
  }

  lemma QuietWorkerStep(s: Source, x: Worker, w: World, deadline: nat, ans: Answer)
    requires !Owes(x) && WorkerStep(s, x, w, deadline, ans).Some?
    ensures
      var (x', w', eff) := WorkerStep(s, x, w, deadline, ans).value;
      !Owes(x') && !eff.Sends?
  {
  }

  lemma QuiescentCallerStep(c: Cleanup, w: World, takeDone: bool)
    requires Quiescent(c) && CallerStep(c, w, takeDone).Some?
    ensures Quiescent(CallerStep(c, w, takeDone).value)
  {
    assert CallerStep(c, w, takeDone).value.crew == c.crew;
  }

  lemma QuiescentCallStep(c: Cleanup, w: World, a: Action)
    requires Quiescent(c) && Step(c, w, a).Some?
    ensures Quiescent(Step(c, w, a).value.0)
  {
    match a
    case CallerRuns(takeDone) => QuiescentCallerStep(c, w, takeDone);
    case WaiterRuns =>
    case WorkerRuns(s, ans) =>
      QuietWorkerStep(s, c.crew.Get(s), w, c.deadline, ans);
      var (x, w', eff) := WorkerStep(s, c.crew.Get(s), w, c.deadline, ans).value;
      ApplyKeepsRest(c, s, x, eff);
      forall t: Source
        ensures !Owes(c.crew.Set(s, x).Get(t))
      {
        SetGet(c.crew, s, x, t);
      }
  }

  lemma QuiescentStep(s: S.System, a: S.SysAction, side: S.Side)
    requires Quiescent(S.CallOf(s, side)) && S.Step(s, a).Some?
    ensures Quiescent(S.CallOf(S.Step(s, a).value, side))
  {
    match a
    case CleanupRuns(other, b) =>
      if other == side {
        QuiescentCallStep(S.CallOf(s, side), s.w, b);
      }
    case MainRuns(ans) => S.MainStepKind(s, ans);
    case _ =>
  }

  lemma {:induction false} QuiescentRun(s: S.System, acts: seq<S.SysAction>, side: S.Side)
    requires Quiescent(S.CallOf(s, side)) && S.Exec(s, acts).Some?
    ensures Quiescent(S.CallOf(S.Exec(s, acts).value, side))
    decreases |acts|
  {
    if acts != [] {
      QuiescentStep(s, acts[0], side);
      QuiescentRun(S.Step(s, acts[0]).value, acts[1..], side);
    }
  }

  /** Once a cleanup has closed its channel, the process can still crash on it if and only if one of its goroutines owes a report at that moment. */
  lemma CrashPossibleExactly(s: S.System, side: S.Side)
    requires S.Reachable(s) && S.Running(s) && S.CallOf(s, side).results.closed
    ensures CanCrash(s, side) <==> SomebodyOwes(S.CallOf(s, side))
  {
    S.ReachableInv(s);
    S.ReachesItself(s);
    if SomebodyOwes(S.CallOf(s, side)) {
      var x: Source :| Owes(S.CallOf(s, side).crew.Get(x));
      var t := OwingCrashes(s, s, side, x);
    } else if CanCrash(s, side) {
      var t: S.System :| S.Reaches(s, t) && S.CallOf(t, side).panickedBy.Some?;
      var acts :| S.Exec(s, acts) == Some(t);
      assert Stage(S.CallOf(s, side).caller) >= 11;
      QuiescentRun(s, acts, side);
    }
  }

  /** A cleanup that has left by the done branch is safe: nobody owes, so nothing can crash any more. */
  lemma DoneBranchCannotCrash(s: S.System, side: S.Side)
    requires S.Reachable(s) && S.Running(s) && S.CallOf(s, side).results.closed
    requires Branch(S.CallOf(s, side).caller) == Some(AllDone)
    ensures !CanCrash(s, side)
  {
    S.ReachableInv(s);
    var c := S.CallOf(s, side);
    forall x: Source
      ensures !Owes(c.crew.Get(x))
    {
      assert !Busy(c.crew.Get(x));
    }
    CrashPossibleExactly(s, side);
  }

  // ------------------------------------------------------------ the crash is real

  /** Some prompt run leads to s. */
  ghost predicate PromptlyReachable(s: S.System) {
    exists acts :: T.PromptRun(S.Initial(), acts) && S.Exec(S.Initial(), acts) == Some(s)
  }

  lemma {:induction false} PromptAppend(s: S.System, acts: seq<S.SysAction>, a: S.SysAction)
    requires T.PromptRun(s, acts) && S.Exec(s, acts).Some? && S.Step(S.Exec(s, acts).value, a).Some?
    requires a.Tick? ==>
      var t := S.Exec(s, acts).value;
      PromptTick(t.mainCall, t.w.now + a.ms) && PromptTick(t.handlerCall, t.w.now + a.ms)
    ensures T.PromptRun(s, acts + [a])
    decreases |acts|
  {
    var all := acts + [a];
    if acts == [] {
      assert all[0] == a && all[1..] == [];
    } else {
      assert all[0] == acts[0] && all[1..] == acts[1..] + [a];
      PromptAppend(S.Step(s, acts[0]).value, acts[1..], a);
    }
  }

  lemma PromptStep(s: S.System, a: S.SysAction) returns (s': S.System)
    requires PromptlyReachable(s) && S.Step(s, a).Some?
    requires a.Tick? ==> PromptTick(s.mainCall, s.w.now + a.ms) && PromptTick(s.handlerCall, s.w.now + a.ms)
    ensures PromptlyReachable(s') && Some(s') == S.Step(s, a)
  {
    var acts :| T.PromptRun(S.Initial(), acts) && S.Exec(S.Initial(), acts) == Some(s);
    PromptAppend(S.Initial(), acts, a);
    S.ExecConcat(S.Initial(), acts, [a]);
    assert S.Exec(s, [a]) == S.Exec(S.Step(s, a).value, [a][1..]);
    s' := S.Step(s, a).value;
  }

  /** A step of setupLocal before the gateways. */
  lemma Forward(s: S.System, ans: S.MainAnswer, m: S.Main, w: World) returns (s': S.System)
    requires PromptlyReachable(s) && s.exit.None? && s.mainCall == s.handlerCall == NewCleanup()
    requires S.Unregistered(s.main) && S.ProgramStep(s.main, s.w, ans) == Some((m, w))
    ensures PromptlyReachable(s') && s' == s.(main := m, w := w, failed := s'.failed)
  {
    s' := PromptStep(s, S.MainRuns(ans));
  }

  function DockerUp(): World {
    S.InitialWorld().(composed := true, startedDocker := true)
  }

  /** Compose is brought up, all goes well until the mock OIDC provider, and main enters its CleanupLocal. */
  lemma ReachCleanup() returns (s: S.System)
    ensures PromptlyReachable(s)
    ensures s.main.InCleanup? && s.exit.None? && s.handlerCall == NewCleanup() && s.w == DockerUp()
    ensures s.mainCall == NewCleanup().(caller := CheckDocker, composedAtStart := true)
  {
    s := S.Initial();
    assert T.PromptRun(s, []) && S.Exec(s, []) == Some(s);
    s := Forward(s, S.ComposeUp, S.PollServices, DockerUp());
    s := Forward(s, S.Succeeds, S.CheckServices(3), DockerUp());
    s := Forward(s, S.Succeeds, S.CheckServices(2), DockerUp());
    s := Forward(s, S.Succeeds, S.CheckServices(1), DockerUp());
    s := Forward(s, S.Succeeds, S.MockOidc, DockerUp());
    s := Forward(s, S.Fails, S.Unwind([]), DockerUp());
    s := PromptStep(s, S.MainRuns(S.Succeeds));
  }

  /** main's call, the handler having none. */
  ghost predicate MainCleans(s: S.System) {
    PromptlyReachable(s) && s.exit.None? && s.handlerCall == NewCleanup()
  }

  /** One more step of main's call. */
  lemma MainCallStep(s: S.System, a: Action) returns (s': S.System)
    requires MainCleans(s) && Step(s.mainCall, s.w, a).Some?
    ensures MainCleans(s') && Some((s'.mainCall, s'.w)) == Step(s.mainCall, s.w, a)
  {
    s' := PromptStep(s, S.CleanupRuns(S.MainSide, a));
  }

  /** Everything is spawned. */
  lemma ReachSelect() returns (s: S.System)
    ensures MainCleans(s) && s.w == DockerUp()
    ensures s.mainCall.caller == Select && s.mainCall.deadline == OVERALL_CLEANUP_MS
    ensures s.mainCall.panickedBy.None? && !s.mainCall.results.closed
    ensures s.mainCall.crew ==
      Crew(Working(GatewayReady(false)), Working(GatewayReady(false)), Working(Scanning), Working(Stopping(ReadFlag)))
  {
    s := ReachCleanup();
    s := MainCallStep(s, CallerRuns(false));
    assert s.mainCall.caller == CreateContext;
    s := MainCallStep(s, CallerRuns(false));
    assert s.mainCall.caller == Spawn(FromGateway(Ingest)) && s.mainCall.crew == NOBODY;
    s := MainCallStep(s, CallerRuns(false));
    assert s.mainCall.caller == Spawn(FromGateway(Streaming));
    s := MainCallStep(s, CallerRuns(false));
    assert s.mainCall.caller == Spawn(FromPorts);
    s := MainCallStep(s, CallerRuns(false));
    assert s.mainCall.caller == Spawn(FromDocker);
    s := MainCallStep(s, CallerRuns(false));
  }

  const NO_ANSWER := DockerAnswer(true)

  /** A gateway's goroutine without a command finishes in two steps. */
  lemma FinishGateway(s: S.System, g: Gateway) returns (s': S.System)
    requires MainCleans(s) && s.mainCall.panickedBy.None? && s.mainCall.crew.Get(FromGateway(g)) == Working(GatewayReady(false))
    ensures MainCleans(s') && s'.w == s.w
    ensures s'.mainCall.crew == s.mainCall.crew.Set(FromGateway(g), Finished(false))
    ensures s'.mainCall.(crew := s.mainCall.crew, wg := s.mainCall.wg) == s.mainCall
  {
    s' := MainCallStep(s, WorkerRuns(FromGateway(g), NO_ANSWER));
    assert s'.mainCall.crew.Get(FromGateway(g)) == Release(false);
    s' := MainCallStep(s', WorkerRuns(FromGateway(g), NO_ANSWER));
  }

  /** Docker's goroutine is running "docker compose down", the gateways' have finished. */
  lemma ReachDown() returns (s: S.System)
    ensures MainCleans(s) && s.w == DockerUp()
    ensures s.mainCall.caller == Select && s.mainCall.deadline == OVERALL_CLEANUP_MS
    ensures s.mainCall.panickedBy.None? && !s.mainCall.results.closed
    ensures s.mainCall.crew.ingest == s.mainCall.crew.streaming == Finished(false)
    ensures s.mainCall.crew.docker == Working(Stopping(RunDown))
  {
    s := ReachSelect();
    s := FinishGateway(s, Ingest);
    s := FinishGateway(s, Streaming);
    s := MainCallStep(s, WorkerRuns(FromDocker, NO_ANSWER));
    assert s.mainCall.crew.docker == Working(Stopping(FindPath));
    s := MainCallStep(s, WorkerRuns(FromDocker, NO_ANSWER));
  }

  /** Fifteen seconds later "down" is still running, and the channel is closed. */
  lemma ReachLateDown() returns (s: S.System)
    ensures MainCleans(s) && s.mainCall.results.closed && s.mainCall.panickedBy.None?
    ensures s.mainCall.crew.docker == Working(Stopping(RunDown)) && s.w.now == 15000
    ensures !s.w.downTried && !s.w.lookupFailed
  {
    s := ReachDown();
    s := PromptStep(s, S.Tick(OVERALL_CLEANUP_MS));
    assert s.mainCall.caller == Select;
    s := MainCallStep(s, CallerRuns(false));
    assert s.mainCall.caller == CloseResults(TimedOut);
    s := MainCallStep(s, CallerRuns(false));
  }

  /**
   A prompt run that crashes: the gateways' goroutines are done, "docker compose
   down" takes longer than the fifteen seconds of the wait and then succeeds, and
   the report on it is sent on the closed channel before the process has exited.
   */
  lemma DockerReportCanCrash()
    ensures exists s: S.System ::
      && PromptlyReachable(s) && s.mainCall.panickedBy == Some(FromDocker)
      && s.w.downOk && !s.w.lookupFailed && s.w.now == 15000
  {
    var s := ReachLateDown();
    s := MainCallStep(s, WorkerRuns(FromDocker, DockerAnswer(true)));
    assert s.mainCall.crew.docker == Working(Stopping(ClearFlag));
    s := MainCallStep(s, WorkerRuns(FromDocker, NO_ANSWER));
    assert s.mainCall.crew.docker == Working(Stopping(DockerDone(true)));
    s := MainCallStep(s, WorkerRuns(FromDocker, NO_ANSWER));
    assert s.mainCall.crew.docker == Report(true);
    s := MainCallStep(s, WorkerRuns(FromDocker, NO_ANSWER));
  }
}
