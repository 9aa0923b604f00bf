/**
 The main goroutine is never stuck for good: from every moment of every run it can
 still end the process by its own completed CleanupLocal, and at the final wait one
 signal is enough for that.
 */
module MainExit {
  import opened Wrappers
  import opened CleanupProtocol
  import opened CleanupTermination
  import opened Completion
  import S = ShutdownSystem
  import T = ShutdownTheorems
  import K = KillEscalation

  /** On the way to its CleanupLocal. */
  predicate Unwinding(m: S.Main) {
    m.Unwind? || m.InKill? || m.InDocker?
  }

  function OpRank(op: S.Op): nat {
    match op
    case StopDockerIfStarted => 10
    case KillSlot(_) => 25
    case NilSlot(_) => 1
    case DeferStreaming => 30
  }

  function OpsRank(ops: seq<S.Op>): nat {
    if ops == [] then 0 else OpRank(ops[0]) + OpsRank(ops[1..])
  }

  function UnwindRank(m: S.Main): nat {
    match m
    case Unwind(ops) => OpsRank(ops)
    case InKill(_, k, ops) => OpsRank(ops) + KillRank(k) + 1
    case InDocker(d, ops) => OpsRank(ops) + DockerRank(d) + 1
    case _ => 0
  }

  /** The process runs and main has not begun its CleanupLocal. */
  ghost predicate BeforeCleanup(s: S.System) {
    S.SysInv(s) && S.Running(s) && !s.main.InCleanup?
  }

  /** The handler has not moved. */
  predicate HandlerStill(s: S.System, t: S.System) {
    t.handlerCall == s.handlerCall && t.signalled == s.signalled
  }

  // ------------------------------------------------------------------ unwinding

  lemma UnwindOps(ops: seq<S.Op>, w: World)
    requires ops != []
    ensures
      var (m, w') := S.UnwindStep(ops, w);
      Unwinding(m) && UnwindRank(m) < OpsRank(ops)
  {
    if ops[0].KillSlot? {
      assert KillRank(K.Begin()) == 20;
    } else if ops[0].DeferStreaming? && Streaming in w.slots {
      var rest := ops[1..];
      var more := [S.KillSlot(Streaming), S.NilSlot(Streaming)] + rest;
      var nil := [S.NilSlot(Streaming)] + rest;
      assert more[1..] == nil && nil[1..] == rest;
      assert OpsRank(nil) == 1 + OpsRank(rest);
    }
  }

  lemma MainGoes(s: S.System, t: S.System, ans: S.MainAnswer) returns (t': S.System)
    requires S.Reaches(s, t) && BeforeCleanup(t) && S.MainStep(t, ans).Some? && t.main != S.Unwind([])
    ensures S.Reaches(s, t') && BeforeCleanup(t') && HandlerStill(t, t') && S.MainStep(t, ans) == Some(t')
  {
    t' := S.MainGoesOn(s, t, ans);
    S.MainStepKind(t, ans);
  }

  lemma UnwindOne(s: S.System, t: S.System) returns (t': S.System)
    requires S.Reaches(s, t) && BeforeCleanup(t) && t.main.Unwind? && t.main.ops != []
    ensures S.Reaches(s, t') && BeforeCleanup(t') && HandlerStill(t, t')
    ensures Unwinding(t'.main) && UnwindRank(t'.main) < UnwindRank(t.main)
  {
    UnwindOps(t.main.ops, t.w);
    t' := MainGoes(s, t, S.Succeeds);
  }

  lemma Wait(s: S.System, t: S.System, ms: nat) returns (u: S.System)
    requires S.Reaches(s, t) && BeforeCleanup(t)
    ensures S.Reaches(s, u) && BeforeCleanup(u) && u == t.(w := t.w.(now := t.w.now + ms))
  {
    u := S.TimePasses(s, t, ms);
  }

  /** Some step of the kill that main is in becomes possible. */
  lemma WaitForKill(s: S.System, t: S.System) returns (u: S.System, ev: K.Event)
    requires S.Reaches(s, t) && BeforeCleanup(t) && t.main.InKill? && !t.main.k.pc.Returned?
    ensures S.Reaches(s, u) && BeforeCleanup(u) && HandlerStill(t, u) && u.main == t.main
    ensures K.Step(t.main.k, ev, t.main.g in u.w.alive, u.w.now, None).Some?
  {
    var ms;
    ms, ev := KillCanStep(t.main.k, t.main.g in t.w.alive, t.w.now, None);
    u := Wait(s, t, ms);
  }

  /** A step of the kill that main is in, at a time when it is possible. */
  lemma KillOnce(s: S.System, t: S.System, ev: K.Event) returns (t': S.System)
    requires S.Reaches(s, t) && BeforeCleanup(t) && t.main.InKill? && !t.main.k.pc.Returned?
    requires K.Step(t.main.k, ev, t.main.g in t.w.alive, t.w.now, None).Some?
    ensures S.Reaches(s, t') && BeforeCleanup(t') && HandlerStill(t, t')
    ensures Unwinding(t'.main) && UnwindRank(t'.main) < UnwindRank(t.main)
  {
    t' := MainGoes(s, t, S.Host(KillAnswer(ev)));
    KillRankDecreases(t.main.k, ev, t.main.g in t.w.alive, t.w.now, None);
  }

  lemma KillProgress(s: S.System, t: S.System) returns (t': S.System)
    requires S.Reaches(s, t) && BeforeCleanup(t) && t.main.InKill?
    ensures S.Reaches(s, t') && BeforeCleanup(t') && HandlerStill(t, t')
    ensures Unwinding(t'.main) && UnwindRank(t'.main) < UnwindRank(t.main)
  {
    if t.main.k.pc.Returned? {
      t' := MainGoes(s, t, S.Succeeds);
    } else {
      var u, ev := WaitForKill(s, t);
      t' := KillOnce(s, u, ev);
    }
  }

  lemma DockerCanStep(d: S.Main, w: World, ans: S.MainAnswer)
    requires d.InDocker? && ans == S.Host(DockerAnswer(true))
    ensures S.ProgramStep(d, w, ans).Some?
    ensures
      var m := S.ProgramStep(d, w, ans).value.0;
      Unwinding(m) && UnwindRank(m) < UnwindRank(d)
  {
  }

  lemma DockerProgress(s: S.System, t: S.System) returns (t': S.System)
    requires S.Reaches(s, t) && BeforeCleanup(t) && t.main.InDocker?
    ensures S.Reaches(s, t') && BeforeCleanup(t') && HandlerStill(t, t')
    ensures Unwinding(t'.main) && UnwindRank(t'.main) < UnwindRank(t.main)
  {
    DockerCanStep(t.main, t.w, S.Host(DockerAnswer(true)));
    t' := MainGoes(s, t, S.Host(DockerAnswer(true)));
    S.MainStepKind(t, S.Host(DockerAnswer(true)));
  }

  /** All that is left to release is released. */
  lemma FinishUnwinding(s: S.System, t: S.System) returns (t': S.System)
    requires S.Reaches(s, t) && BeforeCleanup(t) && Unwinding(t.main)
    ensures S.Reaches(s, t') && BeforeCleanup(t') && HandlerStill(t, t') && t'.main == S.Unwind([])
    decreases UnwindRank(t.main)
  {
    t' := t;
    if t.main != S.Unwind([]) {
      match t.main {
        case InKill(_, _, _) => t' := KillProgress(s, t);
        case InDocker(_, _) => t' := DockerProgress(s, t);
        case _ => t' := UnwindOne(s, t);
      }
      t' := FinishUnwinding(s, t');
    }
  }

  // --------------------------------------------------------------- main's cleanup

  /** main has ended the process after a completed cleanup. */
  predicate MainExited(s: S.System) {
    s.exit == Some(S.MainSide) && T.Completed(s.mainCall)
  }

  lemma FinishCleanup(s: S.System, t: S.System) returns (t': S.System)
    requires S.Reaches(s, t) && InProgress(t, S.MainSide)
    ensures S.Reaches(s, t') && MainExited(t')
  {
    var u := CompleteCall(s, t, S.MainSide);
    assert u.main.InCleanup?;
    t' := S.MainGoesOn(s, u, S.Succeeds);
  }

  lemma BeginCleanup(s: S.System, t: S.System) returns (t': S.System)
    requires S.Reaches(s, t) && BeforeCleanup(t) && t.main == S.Unwind([])
    ensures S.Reaches(s, t') && InProgress(t', S.MainSide)
  {
    t' := S.MainGoesOn(s, t, S.Succeeds);
  }

  lemma UnwindingExits(s: S.System, t: S.System) returns (t': S.System)
    requires S.Reaches(s, t) && BeforeCleanup(t) && Unwinding(t.main)
    ensures S.Reaches(s, t') && MainExited(t')
  {
    var u := FinishUnwinding(s, t);
    u := BeginCleanup(s, u);
    t' := FinishCleanup(s, u);
  }

  // ------------------------------------------------------- a signal at the final wait

  /** One signal, and the cancelling goroutine that it wakes, get main out of the final wait. */
  lemma SignalWakesMain(s: S.System) returns (t: S.System)
    requires S.SysInv(s) && S.Running(s) && s.main.AwaitCancel?
    ensures S.Step(s, S.Signal).Some? && S.Reaches(S.Step(s, S.Signal).value, t)
    ensures BeforeCleanup(t) && t.main == S.Unwind([S.DeferStreaming]) && t.signalled
    ensures t.handlerCall == s.handlerCall && t.w == s.w
  {
    var s1 := S.Step(s, S.Signal).value;
    S.StepKeepsSysInv(s, S.Signal);
    S.ReachesItself(s1);
    S.ReachesStep(s1, s1, S.Cancels);
    S.StepKeepsSysInv(s1, S.Cancels);
    var s2 := S.Step(s1, S.Cancels).value;
    t := MainGoes(s1, s2, S.Succeeds);
  }

  /** A signal at the final wait: main itself can end the process, its deferred cleanups and its CleanupLocal completed. */
  lemma FinalSignalEndsMain(s: S.System)
    requires S.Reachable(s) && S.Running(s) && s.main.AwaitCancel?
    ensures S.Step(s, S.Signal).Some?
    ensures exists t: S.System :: S.Reaches(S.Step(s, S.Signal).value, t) && MainExited(t)
  {
    S.ReachableInv(s);
    var t := SignalWakesMain(s);
    t := UnwindingExits(S.Step(s, S.Signal).value, t);
  }

  // ------------------------------------------------ defers beside the handler's cleanup

  /** Until something is released, every stored command is in its slot. */
  predicate Intact(s: S.System) {
    !T.Ending(s.main) || s.main.AwaitCancel? ==>
      s.handlerCall.caller == Idle ==> s.w.slots == s.w.stored
  }

  lemma ProgramStaysIntact(m: S.Main, w: World, ans: S.MainAnswer)
    requires !T.Ending(m) && w.slots == w.stored && S.ProgramStep(m, w, ans).Some?
    ensures
      var (m', w') := S.ProgramStep(m, w, ans).value;
      (!T.Ending(m') || m'.AwaitCancel?) ==> w'.slots == w'.stored
  {
  }

  lemma EndingDoesNotReturn(m: S.Main, w: World, ans: S.MainAnswer)
    requires T.Ending(m) && S.ProgramStep(m, w, ans).Some?
    ensures T.Ending(S.ProgramStep(m, w, ans).value.0) && !S.ProgramStep(m, w, ans).value.0.AwaitCancel?
  {
  }

  lemma MainStaysIntact(s: S.System, ans: S.MainAnswer)
    requires Intact(s) && S.MainStep(s, ans).Some?
    ensures Intact(S.MainStep(s, ans).value)
  {
    S.MainStepKind(s, ans);
    if !T.Ending(s.main) {
      if s.handlerCall.caller == Idle {
        ProgramStaysIntact(s.main, s.w, ans);
      }
    } else if s.main.InKill? || s.main.InDocker? {
      EndingDoesNotReturn(s.main, s.w, ans);
    }
  }

  lemma CallKeepsIntact(s: S.System, side: S.Side, a: Action)
    requires S.SysInv(s) && Intact(s) && S.Step(s, S.CleanupRuns(side, a)).Some?
    ensures Intact(S.Step(s, S.CleanupRuns(side, a)).value)
  {
    StepKeepsHistory(S.CallOf(s, side), s.w, a);
  }

  lemma StepStaysIntact(s: S.System, a: S.SysAction)
    requires S.SysInv(s) && Intact(s) && S.Step(s, a).Some?
    ensures Intact(S.Step(s, a).value)
  {
    match a
    case MainRuns(ans) => MainStaysIntact(s, ans);
    case CleanupRuns(side, b) => CallKeepsIntact(s, side, b);
    case _ =>
  }

  lemma {:induction false} RunStaysIntact(s: S.System, acts: seq<S.SysAction>)
    requires S.SysInv(s) && Intact(s) && S.Exec(s, acts).Some?
    ensures Intact(S.Exec(s, acts).value)
    decreases |acts|
  {
    if acts != [] {
      StepStaysIntact(s, acts[0]);
      S.StepKeepsSysInv(s, acts[0]);
      RunStaysIntact(S.Step(s, acts[0]).value, acts[1..]);
    }
  }

  lemma HandlerBegins(s: S.System, t: S.System) returns (t': S.System)
    requires S.Reaches(s, t) && BeforeCleanup(t) && t.signalled && t.handlerCall.caller == Idle
    ensures S.Reaches(s, t') && BeforeCleanup(t') && t'.handlerCall.caller == CheckDocker
    ensures t'.main == t.main && t'.w == t.w
  {
    S.ReachesStep(s, t, S.HandlerRuns);
    S.StepKeepsSysInv(t, S.HandlerRuns);
    t' := S.Step(t, S.HandlerRuns).value;
  }

  /** The deferred closure finds a command and begins to kill it. */
  lemma DeferBegins(s: S.System, t: S.System) returns (t': S.System)
    requires S.Reaches(s, t) && BeforeCleanup(t) && t.main == S.Unwind([S.DeferStreaming]) && Streaming in t.w.slots
    ensures S.Reaches(s, t') && BeforeCleanup(t') && t'.main.InKill? && t'.main.g == Streaming && HandlerStill(t, t')
  {
    var u := MainGoes(s, t, S.Succeeds);
    assert u.main == S.Unwind([S.KillSlot(Streaming), S.NilSlot(Streaming)]) && u.w == t.w;
    t' := MainGoes(s, u, S.Succeeds);
  }

  lemma ReachableIntact(s: S.System)
    requires S.Reachable(s)
    ensures Intact(s)
  {
    var acts :| S.Exec(S.Initial(), acts) == Some(s);
    S.InitialInv();
    assert Intact(S.Initial());
    RunStaysIntact(S.Initial(), acts);
  }

  lemma StoredAtTheEnd(s: S.System)
    requires S.MainInv(s.main, s.w) && s.main.AwaitCancel?
    ensures Streaming in s.w.stored
  {
  }

  lemma IntactAtTheEnd(s: S.System)
    requires S.Reachable(s) && s.main.AwaitCancel? && s.handlerCall.caller == Idle
    ensures Streaming in s.w.slots
  {
    S.ReachableInv(s);
    ReachableIntact(s);
    StoredAtTheEnd(s);
  }

  /** Both sides of the race are possible at once: the deferred kill of the streaming gateway is in progress while the handler's CleanupLocal is. */
  lemma DefersRunBesideTheHandler(s: S.System)
    requires S.Reachable(s) && S.Running(s) && s.main.AwaitCancel? && s.handlerCall.caller == Idle
    ensures S.Step(s, S.Signal).Some?
    ensures exists t: S.System ::
      && S.Reaches(S.Step(s, S.Signal).value, t) && S.Running(t)
      && t.main.InKill? && t.main.g == Streaming
      && t.handlerCall.caller != Idle && !t.handlerCall.caller.Returned?
  {
    S.ReachableInv(s);
    IntactAtTheEnd(s);
    var s1 := S.Step(s, S.Signal).value;
    var t := SignalWakesMain(s);
    t := HandlerBegins(s1, t);
    t := DeferBegins(s1, t);
  }

  // ------------------------------------------------------------ from any moment

  /** Errors all the way lead out of setupLocal. */
  function ProgramRank(m: S.Main): nat {
    match m
    case EnsureRunning => 1
    case PollServices => 1
    case CheckServices(_) => 1
    case MockOidc => 1
    case RegisterSignals => 6
    case StartGateway(_) => 1
    case StoreGateway(_) => 5
    case VerifyGateways => 1
    case AwaitCancel => 1
    case _ => 0
  }

  lemma NextError(s: S.System, t: S.System) returns (t': S.System)
    requires S.Reaches(s, t) && BeforeCleanup(t) && !Unwinding(t.main) && !t.main.AwaitCancel?
    ensures S.Reaches(s, t') && BeforeCleanup(t') && (Unwinding(t'.main) || ProgramRank(t'.main) < ProgramRank(t.main))
  {
    t' := MainGoes(s, t, S.Fails);
  }

  lemma LeaveProgram(s: S.System, t: S.System) returns (t': S.System)
    requires S.Reaches(s, t) && BeforeCleanup(t)
    ensures S.Reaches(s, t') && BeforeCleanup(t') && Unwinding(t'.main)
    decreases !Unwinding(t.main), ProgramRank(t.main)
  {
    if Unwinding(t.main) {
      t' := t;
    } else if t.main.AwaitCancel? {
      var u := SignalWakesMain(t);
      S.ReachesStep(s, t, S.Signal);
      S.ReachesFurther(s, S.Step(t, S.Signal).value, u);
      t' := u;
    } else {
      t' := NextError(s, t);
      t' := LeaveProgram(s, t');
    }
  }

  /** From every reachable state of a running process in which main's cleanup has not timed out, some run ends with main's exit after a completed cleanup. */
  lemma MainCanAlwaysExit(s: S.System)
    requires S.Reachable(s) && S.Running(s) && Branch(s.mainCall.caller) != Some(TimedOut)
    ensures exists t: S.System :: S.Reaches(s, t) && MainExited(t)
  {
    S.ReachableInv(s);
    S.ReachesItself(s);
    if s.main.InCleanup? {
      var t := FinishCleanup(s, s);
    } else {
      var t := LeaveProgram(s, s);
      t := UnwindingExits(s, t);
    }
  }
}
