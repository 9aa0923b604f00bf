/**
 A signal before the final wait: exactly when does the exit through the signal
 handler leave no gateway behind?  It does if, when the handler's CleanupLocal
 begins, no further gateway can be started; otherwise some run ends the process
 beside a gateway nobody has killed.
 */
module EarlySignal {
  import opened Wrappers
  import opened CleanupProtocol
  import opened Completion
  import S = ShutdownSystem
  import T = ShutdownTheorems

  /** No further gateway will be started or stored: setupLocal is verifying the gateways or beyond, or cannot start one on its cancelled context. */
  predicate Settled(s: S.System) {
    s.main.VerifyGateways? || T.Ending(s.main) || (s.main.StartGateway? && s.cancelled)
  }

  /** The handler's CleanupLocal begins now. */
  predicate HandlerBegins(s: S.System) {
    s.handlerCall.caller == Idle && S.Step(s, S.HandlerRuns).Some?
  }

  /** The handler has ended the process after a completed cleanup. */
  predicate HandlerExit(s: S.System) {
    s.exit == Some(S.HandlerSide) && T.Completed(s.handlerCall)
  }

  function Begun(s: S.System): S.System
    requires HandlerBegins(s)
  {
    S.Step(s, S.HandlerRuns).value
  }

  /** Every exit through the handler leaves no gateway behind. */
  ghost predicate AlwaysClean(s: S.System)
    requires HandlerBegins(s)
  {
    forall t: S.System :: S.Reaches(Begun(s), t) && HandlerExit(t) ==> t.w.started <= t.w.killed
  }

  // ---------------------------------------------------------- settled is enough

  /** The handler's call began settled. */
  predicate SettledInv(s: S.System) {
    && Settled(s) && s.handlerCall.caller != Idle
    && s.handlerCall.storedAtStart == s.w.stored == s.w.started
    && s.handlerCall.composedAtStart == s.w.composed
  }

  lemma VerifyingStep(s: S.System, ans: S.MainAnswer)
    requires (s.main.VerifyGateways? || (s.main.StartGateway? && s.cancelled)) && S.MainStep(s, ans).Some?
    ensures
      var s' := S.MainStep(s, ans).value;
      T.Ending(s'.main) && s'.handlerCall == s.handlerCall && s'.w == s.w
  {
  }

  lemma MainStaysSettled(s: S.System, ans: S.MainAnswer)
    requires Settled(s) && S.MainStep(s, ans).Some?
    ensures
      var s' := S.MainStep(s, ans).value;
      && Settled(s') && s'.handlerCall == s.handlerCall
      && s'.w.started == s.w.started && s'.w.stored == s.w.stored && s'.w.composed == s.w.composed
  {
    if T.Ending(s.main) {
      T.EndingMainStep(s, ans);
    } else {
      VerifyingStep(s, ans);
    }
  }

  lemma StepStaysSettled(s: S.System, a: S.SysAction)
    requires S.SysInv(s) && SettledInv(s) && S.Step(s, a).Some?
    ensures SettledInv(S.Step(s, a).value)
  {
    match a
    case MainRuns(ans) => MainStaysSettled(s, ans);
    case CleanupRuns(side, a) => StepKeepsHistory(S.CallOf(s, side), s.w, a);
    case _ =>
  }

  lemma {:induction false} RunStaysSettled(s: S.System, acts: seq<S.SysAction>)
    requires S.SysInv(s) && SettledInv(s) && S.Exec(s, acts).Some?
    ensures S.SysInv(S.Exec(s, acts).value) && SettledInv(S.Exec(s, acts).value)
    decreases |acts|
  {
    if acts != [] {
      StepStaysSettled(s, acts[0]);
      S.StepKeepsSysInv(s, acts[0]);
      RunStaysSettled(S.Step(s, acts[0]).value, acts[1..]);
    }
  }

  lemma BegunIsSettled(s: S.System)
    requires S.Reachable(s) && HandlerBegins(s) && Settled(s)
    ensures S.SysInv(Begun(s)) && SettledInv(Begun(s))
  {
    S.ReachableInv(s);
    S.StepKeepsSysInv(s, S.HandlerRuns);
  }

  lemma SettledIsClean(s: S.System, t: S.System)
    requires S.Reachable(s) && HandlerBegins(s) && Settled(s)
    requires S.Reaches(Begun(s), t) && HandlerExit(t)
    ensures t.w.started <= t.w.killed && (t.w.composed ==> t.w.downTried || t.w.lookupFailed)
  {
    BegunIsSettled(s);
    var acts :| S.Exec(Begun(s), acts) == Some(t);
    RunStaysSettled(Begun(s), acts);
    DoneMeansAchieved(t.handlerCall, t.w);
  }

  // ---------------------------------------------------------- and it is needed

  /** A state on the way to the exit: the handler's call is running and nothing has gone wrong. */
  ghost predicate Underway(s: S.System) {
    && S.SysInv(s) && s.exit.None?
    && s.mainCall.caller == Idle && s.handlerCall.caller != Idle
    && Branch(s.handlerCall.caller) != Some(TimedOut)
  }

  lemma UnderwayNoPanic(s: S.System)
    requires Underway(s)
    ensures S.Running(s) && !s.main.InCleanup?
  {
  }

  lemma OneMainStep(s: S.System, t: S.System) returns (t': S.System)
    requires S.Reaches(s, t) && Underway(t) && S.MainStep(t, S.Succeeds).Some? && t.main != S.Unwind([])
    ensures S.Reaches(s, t') && Underway(t') && Some(t') == S.MainStep(t, S.Succeeds)
    ensures t'.handlerCall == t.handlerCall
  {
    UnderwayNoPanic(t);
    S.MainStepKind(t, S.Succeeds);
    S.ReachesStep(s, t, S.MainRuns(S.Succeeds));
    S.StepKeepsSysInv(t, S.MainRuns(S.Succeeds));
    t' := S.MainStep(t, S.Succeeds).value;
  }

  /** How many steps setupLocal is away from starting a gateway. */
  function Ahead(m: S.Main): nat {
    match m
    case EnsureRunning => 7
    case PollServices => 7
    case CheckServices(left) => 3 + left
    case MockOidc => 2
    case RegisterSignals => 1
    case _ => 0
  }

  /** A step before the gateways brings setupLocal closer to them. */
  lemma CloserToGateways(s: S.System, t: S.System) returns (t': S.System)
    requires S.Reaches(s, t) && Underway(t) && S.Unregistered(t.main) && !t.cancelled
    ensures S.Reaches(s, t') && Underway(t') && t'.handlerCall == t.handlerCall && !t'.cancelled
    ensures (S.Unregistered(t'.main) && Ahead(t'.main) < Ahead(t.main)) || t'.main == S.StartGateway(Ingest)
  {
    t' := OneMainStep(s, t);
  }

  lemma ReachStart(s: S.System, t: S.System) returns (t': S.System)
    requires S.Reaches(s, t) && Underway(t) && S.Unregistered(t.main) && !t.cancelled
    ensures S.Reaches(s, t') && Underway(t') && t'.handlerCall == t.handlerCall
    ensures t'.main == S.StartGateway(Ingest) && !t'.cancelled
    decreases Ahead(t.main)
  {
    t' := CloserToGateways(s, t);
    if S.Unregistered(t'.main) {
      t' := ReachStart(s, t');
    }
  }

  lemma Start(s: S.System, t: S.System) returns (t': S.System)
    requires S.Reaches(s, t) && Underway(t) && t.main.StartGateway? && !t.cancelled
    ensures S.Reaches(s, t') && Underway(t') && t'.main == S.StoreGateway(t.main.g)
    ensures t.main.g in t'.w.alive && t'.handlerCall == t.handlerCall
  {
    t' := OneMainStep(s, t);
  }

  /** Everything succeeds until a gateway is started and not yet stored. */
  lemma AdvanceToStore(s: S.System, t: S.System) returns (t': S.System)
    requires S.Reaches(s, t) && Underway(t) && !Settled(t)
    requires S.Unregistered(t.main) ==> !t.cancelled
    ensures S.Reaches(s, t') && Underway(t') && t'.main.StoreGateway? && t'.handlerCall == t.handlerCall
    ensures !t.main.StoreGateway? ==> t'.main.g in t'.w.alive
    ensures S.Unregistered(t.main) ==> t'.main.g == Ingest
  {
    t' := t;
    if S.Unregistered(t.main) {
      t' := ReachStart(s, t);
    }
    if !t.main.StoreGateway? {
      t' := Start(s, t');
    }
  }

  /** The handler's call can be run to its end, the main goroutine and the gateways standing still. */
  lemma CompleteHandler(s: S.System, t: S.System) returns (t': S.System)
    requires S.Reaches(s, t) && Underway(t)
    ensures S.Reaches(s, t') && Underway(t') && T.Completed(t'.handlerCall) && t'.handlerCall.caller.Returned?
    ensures t'.main == t.main && t'.w.alive == t.w.alive
  {
    UnderwayNoPanic(t);
    t' := CompleteCall(s, t, S.HandlerSide);
  }

  lemma StoredOnlyAfter(s: S.System, g: Gateway)
    requires S.SysInv(s) && s.main == S.StoreGateway(g)
    ensures g !in s.w.stored && g in s.w.started && g !in s.w.killed
  {
  }

  /** The gateway is stored once nobody will look at it any more, and the handler ends the process. */
  lemma StoreAndExit(s: S.System, t: S.System) returns (t': S.System)
    requires S.Reaches(s, t) && Underway(t) && t.main.StoreGateway? && T.Completed(t.handlerCall)
    ensures S.Reaches(s, t') && HandlerExit(t')
    ensures t.main.g in t'.w.started && t.main.g in t'.w.stored && t.main.g !in t'.w.killed && t'.w.alive == t.w.alive
  {
    StoredOnlyAfter(t, t.main.g);
    var u := OneMainStep(s, t);
    UnderwayNoPanic(u);
    S.ReachesStep(s, u, S.HandlerRuns);
    t' := S.Step(u, S.HandlerRuns).value;
  }

  lemma BegunIsUnderway(s: S.System)
    requires S.Reachable(s) && HandlerBegins(s) && !Settled(s)
    ensures Underway(Begun(s)) && !Settled(Begun(s)) && Begun(s).main == s.main && Begun(s).cancelled == s.cancelled
    ensures S.Unregistered(s.main) ==> !s.cancelled
  {
    S.ReachableInv(s);
    S.StepKeepsSysInv(s, S.HandlerRuns);
  }

  /** Where a gateway may still be started, a run exists that ends the process beside one: stored, never killed, and alive if it was not yet started. */
  lemma UnsettledLeaks(s: S.System) returns (t: S.System, g: Gateway)
    requires S.Reachable(s) && HandlerBegins(s) && !Settled(s)
    ensures S.Reaches(Begun(s), t) && HandlerExit(t)
    ensures g in t.w.started && g in t.w.stored && g !in t.w.killed
    ensures !s.main.StoreGateway? ==> g in t.w.alive
    ensures S.Unregistered(s.main) ==> g == Ingest
  {
    var s1 := Begun(s);
    BegunIsUnderway(s);
    S.ReachesItself(s1);
    var u := AdvanceToStore(s1, s1);
    g := u.main.g;
    u := CompleteHandler(s1, u);
    t := StoreAndExit(s1, u);
  }

  /** The exit through the handler is clean on every run if and only if setupLocal was settled when the handler's cleanup began. */
  lemma HandlerExitCleanExactly(s: S.System)
    requires S.Reachable(s) && HandlerBegins(s)
    ensures AlwaysClean(s) <==> Settled(s)
  {
    if Settled(s) {
      forall t: S.System | S.Reaches(Begun(s), t) && HandlerExit(t)
        ensures t.w.started <= t.w.killed
      {
        SettledIsClean(s, t);
      }
    } else {
      var t, g := UnsettledLeaks(s);
    }
  }

  // --------------------------------------------------------------- an instance

  /** One step of setupLocal that succeeds. */
  lemma Forward(s: S.System, m: S.Main) returns (s': S.System)
    requires S.Reachable(s) && s.exit.None? && s.mainCall == s.handlerCall == NewCleanup()
    requires !s.main.StartGateway? && S.ProgramStep(s.main, s.w, S.Succeeds) == Some((m, s.w))
    ensures S.Reachable(s') && s' == s.(main := m)
  {
    S.ReachesStep(S.Initial(), s, S.MainRuns(S.Succeeds));
    s' := S.Step(s, S.MainRuns(S.Succeeds)).value;
  }

  /** A signal while the mock OIDC provider is being started ends some run beside a live gateway. */
  lemma EarlySignalLeaksGateway()
    ensures exists s: S.System ::
      && S.Reachable(s) && HandlerExit(s)
      && Ingest in s.w.stored && Ingest in s.w.alive && Ingest !in s.w.killed
  {
    var s := S.Initial();
    S.ReachesItself(s);
    s := Forward(s, S.CheckServices(3));
    s := Forward(s, S.CheckServices(2));
    s := Forward(s, S.CheckServices(1));
    s := Forward(s, S.MockOidc);
    S.ReachesStep(S.Initial(), s, S.Signal);
    s := S.Step(s, S.Signal).value;
    var t, g := UnsettledLeaks(s);
    S.ReachesStep(S.Initial(), s, S.HandlerRuns);
    S.ReachesFurther(S.Initial(), Begun(s), t);
  }
}
