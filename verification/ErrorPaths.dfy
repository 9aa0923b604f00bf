/**
 What each way out of setupLocal has released by the time main begins its own
 CleanupLocal, whatever the handler does meanwhile.
 */
module ErrorPaths {
  import opened Wrappers
  import opened CleanupProtocol
  import opened MainExit
  import S = ShutdownSystem

  /** What main still has to do before its CleanupLocal. */
  function Pending(m: S.Main): seq<S.Op> {
    match m
    case Unwind(ops) => ops
    case InKill(_, _, ops) => ops
    case InDocker(_, ops) => ops
    case _ => []
  }

  /** The slot is nil or will be. */
  predicate Empties(g: Gateway, ops: seq<S.Op>, w: World) {
    g !in w.slots || S.NilSlot(g) in ops || (g == Streaming && S.DeferStreaming in ops)
  }

  /** "docker compose down" has been tried, its directory not found, Docker is not marked as started, or one of these will be so. */
  predicate StopsDocker(m: S.Main, w: World) {
    w.downTried || w.lookupFailed || !w.startedDocker || S.StopDockerIfStarted in Pending(m) || m.InDocker?
  }

  predicate ServiceStep(m: S.Main) {
    m.EnsureRunning? || m.PollServices? || m.CheckServices?
  }

  /** What the way out promises, by the step that failed; None is the normal end, after the final wait. */
  predicate Promise(failed: Option<S.Main>, m: S.Main, w: World) {
    match failed
    case None => w.started == {Ingest, Streaming} && Empties(Streaming, Pending(m), w)
    case Some(f) =>
      match f
      case VerifyGateways =>
        w.started == {Ingest, Streaming} && Empties(Ingest, Pending(m), w) && Empties(Streaming, Pending(m), w)
      case StartGateway(g) => if g.Ingest? then w.started == {} else Empties(Ingest, Pending(m), w) && w.started == {Ingest}
      case MockOidc => w.started == {}
      case _ => ServiceStep(f) && w.started == {} && StopsDocker(m, w)
  }

  /** main is past the final wait or an error. */
  predicate Leaving(m: S.Main) {
    Unwinding(m) || m.InCleanup?
  }

  predicate PathInv(s: S.System) {
    if Leaving(s.main) then Promise(s.failed, s.main, s.w) else s.failed.None?
  }

  // ------------------------------------------------------------- steps of others

  /** What other threads may do to the shared configuration. */
  predicate Releases(w: World, w': World) {
    && w'.slots <= w.slots && w'.started == w.started
    && (w'.startedDocker ==> w.startedDocker) && (w.downTried ==> w'.downTried) && (w.lookupFailed ==> w'.lookupFailed)
  }

  lemma PromiseStands(failed: Option<S.Main>, m: S.Main, w: World, w': World)
    requires Promise(failed, m, w) && Releases(w, w')
    ensures Promise(failed, m, w')
  {
  }

  lemma CallReleases(c: Cleanup, w: World, a: Action)
    requires WorldInv(w) && S.CallInv(c, w) && Step(c, w, a).Some?
    ensures Releases(w, Step(c, w, a).value.1)
  {
    StepGuarantee(c, w, a);
    StepOnlyReleases(c, w, a);
    StepKeepsHistory(c, w, a);
  }

  // -------------------------------------------------------------- steps of main

  /** Nothing that was going to be released is forgotten. */
  predicate Keeps(m: S.Main, w: World, m': S.Main, w': World) {
    && Leaving(m') && w'.started == w.started
    && (Empties(Ingest, Pending(m), w) ==> Empties(Ingest, Pending(m'), w'))
    && (Empties(Streaming, Pending(m), w) ==> Empties(Streaming, Pending(m'), w'))
    && (StopsDocker(m, w) ==> StopsDocker(m', w'))
  }

  lemma PromiseMoves(failed: Option<S.Main>, m: S.Main, w: World, m': S.Main, w': World)
    requires Promise(failed, m, w) && Keeps(m, w, m', w')
    ensures Promise(failed, m', w')
  {
  }

  lemma UnwindEmpties(ops: seq<S.Op>, w: World, g: Gateway)
    requires ops != [] && Empties(g, ops, w)
    ensures
      var (m, w') := S.UnwindStep(ops, w);
      Empties(g, Pending(m), w')
  {
    assert ops == [ops[0]] + ops[1..];
    if ops[0].DeferStreaming? && Streaming in w.slots {
      assert ([S.KillSlot(Streaming), S.NilSlot(Streaming)] + ops[1..])[1] == S.NilSlot(Streaming);
    }
  }

  lemma UnwindStops(ops: seq<S.Op>, w: World)
    requires ops != [] && StopsDocker(S.Unwind(ops), w)
    ensures
      var (m, w') := S.UnwindStep(ops, w);
      StopsDocker(m, w')
  {
    assert ops == [ops[0]] + ops[1..];
  }

  lemma UnwindKeeps(ops: seq<S.Op>, w: World)
    requires ops != []
    ensures
      var (m, w') := S.UnwindStep(ops, w);
      Keeps(S.Unwind(ops), w, m, w')
  {
    if Empties(Ingest, ops, w) {
      UnwindEmpties(ops, w, Ingest);
    }
    if Empties(Streaming, ops, w) {
      UnwindEmpties(ops, w, Streaming);
    }
    if StopsDocker(S.Unwind(ops), w) {
      UnwindStops(ops, w);
    }
  }

  lemma KillKeeps(m: S.Main, w: World, ans: S.MainAnswer)
    requires m.InKill? && S.ProgramStep(m, w, ans).Some?
    ensures
      var (m', w') := S.ProgramStep(m, w, ans).value;
      Keeps(m, w, m', w')
  {
    if m.k.pc.Returned? {
      assert KillReturns(w, m.g, m.k).slots == w.slots;
    }
  }

  lemma DockerKeeps(m: S.Main, w: World, ans: S.MainAnswer)
    requires m.InDocker? && WorldInv(w) && DockerInv(m.d, w, w.composed) && S.ProgramStep(m, w, ans).Some?
    ensures
      var (m', w') := S.ProgramStep(m, w, ans).value;
      Keeps(m, w, m', w')
  {
  }

  /** An error makes its promise. */
  lemma ErrorPromises(m: S.Main, w: World, ans: S.MainAnswer)
    requires !Leaving(m) && S.MainInv(m, w) && S.ProgramStep(m, w, ans).Some?
    ensures
      var (m', w') := S.ProgramStep(m, w, ans).value;
      if S.CanFail(m) && ans.Fails? then Leaving(m') && Promise(Some(m), m', w') else !Leaving(m')
  {
    var ops := [S.KillSlot(Ingest), S.KillSlot(Streaming), S.NilSlot(Ingest), S.NilSlot(Streaming), S.DeferStreaming];
    assert ops[2] == S.NilSlot(Ingest) && ops[3] == S.NilSlot(Streaming);
    assert [S.KillSlot(Ingest), S.NilSlot(Ingest)][1] == S.NilSlot(Ingest);
    assert [S.StopDockerIfStarted][0] == S.StopDockerIfStarted;
  }

  lemma LeavingKeeps(s: S.System, ans: S.MainAnswer)
    requires S.SysInv(s) && Leaving(s.main) && S.MainStep(s, ans).Some?
    ensures
      var s' := S.MainStep(s, ans).value;
      Keeps(s.main, s.w, s'.main, s'.w)
  {
    S.MainStepKind(s, ans);
    match s.main
    case Unwind(ops) =>
      if ops != [] {
        UnwindKeeps(ops, s.w);
      } else {
        assert S.MainStep(s, ans).value.main.InCleanup?;
      }
    case InKill(_, _, _) => KillKeeps(s.main, s.w, ans);
    case InDocker(_, _) => DockerKeeps(s.main, s.w, ans);
    case _ =>
  }

  lemma LeavingKeepsPath(s: S.System, ans: S.MainAnswer)
    requires S.SysInv(s) && PathInv(s) && Leaving(s.main) && S.MainStep(s, ans).Some?
    ensures PathInv(S.MainStep(s, ans).value)
  {
    var s' := S.MainStep(s, ans).value;
    LeavingKeeps(s, ans);
    S.MainStepKind(s, ans);
    PromiseMoves(s.failed, s.main, s.w, s'.main, s'.w);
  }

  lemma ProgramKeepsPath(s: S.System, ans: S.MainAnswer)
    requires S.SysInv(s) && PathInv(s) && !Leaving(s.main) && S.MainStep(s, ans).Some?
    ensures PathInv(S.MainStep(s, ans).value)
  {
    S.MainStepKind(s, ans);
    if s.main.AwaitCancel? {
      assert [S.DeferStreaming][0] == S.DeferStreaming;
    } else {
      ErrorPromises(s.main, s.w, ans);
    }
  }

  /** A step of any other thread. */
  lemma StepOfOthers(s: S.System, a: S.SysAction)
    requires S.SysInv(s) && !a.MainRuns? && S.Step(s, a).Some?
    ensures
      var s' := S.Step(s, a).value;
      s'.main == s.main && s'.failed == s.failed && Releases(s.w, s'.w)
  {
    if a.CleanupRuns? {
      CallReleases(S.CallOf(s, a.side), s.w, a.a);
    }
  }

  lemma OthersKeepPath(s: S.System, s': S.System)
    requires PathInv(s) && s'.main == s.main && s'.failed == s.failed && Releases(s.w, s'.w)
    ensures PathInv(s')
  {
    if Leaving(s.main) {
      PromiseStands(s.failed, s.main, s.w, s'.w);
    }
  }

  lemma StepKeepsPath(s: S.System, a: S.SysAction)
    requires S.SysInv(s) && PathInv(s) && S.Step(s, a).Some?
    ensures PathInv(S.Step(s, a).value)
  {
    if !a.MainRuns? {
      StepOfOthers(s, a);
      OthersKeepPath(s, S.Step(s, a).value);
    } else if Leaving(s.main) {
      LeavingKeepsPath(s, a.ans);
    } else {
      ProgramKeepsPath(s, a.ans);
    }
  }

  lemma {:induction false} RunKeepsPath(s: S.System, acts: seq<S.SysAction>)
    requires S.SysInv(s) && PathInv(s) && S.Exec(s, acts).Some?
    ensures PathInv(S.Exec(s, acts).value)
    decreases |acts|
  {
    if acts != [] {
      StepKeepsPath(s, acts[0]);
      S.StepKeepsSysInv(s, acts[0]);
      RunKeepsPath(S.Step(s, acts[0]).value, acts[1..]);
    }
  }

  lemma PathOfReachable(s: S.System)
    requires S.Reachable(s)
    ensures PathInv(s)
  {
    var acts :| S.Exec(S.Initial(), acts) == Some(s);
    S.InitialInv();
    RunKeepsPath(S.Initial(), acts);
  }

  lemma AllGateways(gs: set<Gateway>)
    ensures gs <= {Ingest, Streaming}
  {
    assert forall g: Gateway :: g in gs ==> g == Ingest || g == Streaming;
  }

  /**
   When main begins its own CleanupLocal, each way out of setupLocal has released
   what it owes: after the final wait the streaming gateway is killed and its slot
   nil; after a failed verification both are; after a failed start of the streaming
   gateway the ingest gateway is; after an earlier error none was started; and after
   an error of the services Docker is not marked as started, or was asked to go
   down or not found.
   */
  lemma EachWayOutReleases(s: S.System)
    requires S.Reachable(s) && (s.main == S.Unwind([]) || s.main.InCleanup?)
    ensures
      match s.failed
      case None => Streaming !in s.w.slots && Streaming in s.w.killed
      case Some(f) =>
        match f
        case VerifyGateways => s.w.slots == {} && s.w.killed == {Ingest, Streaming}
        case StartGateway(g) =>
          if g.Ingest? then s.w.started == {} else s.w.started == s.w.killed == {Ingest} && s.w.slots == {}
        case MockOidc => s.w.started == {}
        case _ => s.w.started == {} && (s.w.startedDocker ==> s.w.downTried || s.w.lookupFailed)
  {
    S.ReachableInv(s);
    PathOfReachable(s);
    AllGateways(s.w.slots);
    AllGateways(s.w.killed);
  }

  // -------------------------------------------------- the wait that timed out

  /** One step of the CleanupDocker that main is in. */
  lemma DockerOne(s: S.System, t: S.System, ok: bool) returns (t': S.System)
    requires S.Reaches(s, t) && BeforeCleanup(t) && t.main.InDocker? && !t.main.d.DockerDone?
    ensures S.Reaches(s, t') && BeforeCleanup(t') && HandlerStill(t, t')
    ensures
      var (d, w) := DockerStep(t.main.d, t.w, ok).value;
      t'.main == S.InDocker(d, t.main.ops) && t'.w == w
  {
    t' := MainGoes(s, t, S.Host(DockerAnswer(ok)));
  }

  lemma DockerReturns(s: S.System, t: S.System) returns (t': S.System)
    requires S.Reaches(s, t) && BeforeCleanup(t) && t.main.InDocker? && t.main.d.DockerDone?
    ensures S.Reaches(s, t') && BeforeCleanup(t') && HandlerStill(t, t')
    ensures t'.main == S.Unwind(t.main.ops) && t'.w == t.w
  {
    t' := MainGoes(s, t, S.Succeeds);
  }

  /** A CleanupDocker on the main goroutine that does not find the directory. */
  lemma DockerNotFound(s: S.System, t: S.System) returns (t': S.System)
    requires S.Reaches(s, t) && BeforeCleanup(t) && t.main.InDocker? && t.main.d == ReadFlag && t.w.startedDocker
    ensures S.Reaches(s, t') && BeforeCleanup(t') && t'.main == S.Unwind(t.main.ops) && HandlerStill(t, t')
    ensures t'.w == t.w.(lookupFailed := true)
  {
    t' := DockerOne(s, t, true);
    t' := DockerOne(s, t', false);
    t' := DockerReturns(s, t');
  }

  /** ... and one that brings Docker down. */
  lemma DockerBroughtDown(s: S.System, t: S.System) returns (t': S.System)
    requires S.Reaches(s, t) && BeforeCleanup(t) && t.main.InDocker? && t.main.d == ReadFlag && t.w.startedDocker
    ensures S.Reaches(s, t') && BeforeCleanup(t') && t'.main == S.Unwind(t.main.ops) && HandlerStill(t, t')
    ensures t'.w == t.w.(downTried := true, downOk := true, startedDocker := false)
  {
    t' := DockerOne(s, t, true);
    t' := DockerOne(s, t', true);
    t' := DockerOne(s, t', true);
    t' := DockerOne(s, t', true);
    t' := DockerReturns(s, t');
  }

  /** After a wait for the services that timed out Docker is stopped twice if need be: where the first attempt does not find the directory the second can still bring it down. */
  lemma TimedOutWaitStopsTwice(s: S.System)
    requires S.Reachable(s) && S.Running(s) && s.main.PollServices? && s.w.startedDocker
    ensures exists t: S.System ::
      && S.Reaches(s, t) && t.main == S.Unwind([]) && t.handlerCall == s.handlerCall
      && t.w == s.w.(lookupFailed := true, downTried := true, downOk := true, startedDocker := false)
  {
    S.ReachableInv(s);
    S.ReachesItself(s);
    var t := MainGoes(s, s, S.Fails);
    t := DockerNotFound(s, t);
    assert t.main == S.Unwind([S.StopDockerIfStarted]);
    t := MainGoes(s, t, S.Succeeds);
    assert t.main == S.InDocker(ReadFlag, []);
    t := DockerBroughtDown(s, t);
  }
}
