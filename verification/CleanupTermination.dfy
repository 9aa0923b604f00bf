/**
 One CleanupLocal neither runs forever nor gets stuck: its goroutines take a
 bounded number of steps together, and until it has returned (or panicked) some
 step is possible, at the latest once a timer has run out.
 */
module CleanupTermination {
  import opened Wrappers
  import opened CleanupProtocol
  import opened CleanupConfluence
  import K = KillEscalation

  function KillRank(k: K.Kill): nat {
    match k.pc
    case SendTerm => 20
    case AwaitExit(_) => 19
    case VerifyExit => 18
    case LoopCheck(a) => 5 * K.RoundsLeft(a) + 2
    case SendKill(a) => 5 * K.RoundsLeft(a) + 1
    case VerifyFailedSend(a) => 5 * K.RoundsLeft(a)
    case Pause(a, _) => 5 * K.RoundsLeft(a + 1) + 4
    case PauseCheck(a) => 5 * K.RoundsLeft(a + 1) + 3
    case FinalCheck => 1
    case Returned(_) => 0
  }

  function DockerRank(d: DockerPc): nat {
    match d
    case ReadFlag => 4
    case FindPath => 3
    case RunDown => 2
    case ForceKill => 1
    case ClearFlag => 1
    case DockerDone(_) => 0
  }

  /** A report weighs two: it puts a message into the channel that the caller has to drain. */
  function WorkerRank(x: Worker): nat {
    match x
    case Unspawned => 40
    case Working(job) =>
      (match job
       case GatewayReady(_) => 5 + 22
       case Killing(k) => 5 + KillRank(k)
       case Scanning => 5
       case Stopping(d) => 5 + DockerRank(d))
    case Report(_) => 4
    case ClearSlot => 2
    case Release(_) => 1
    case Finished(_) => 0
  }

  function CallerRank(c: Cleanup): nat {
    12 - Stage(c.caller) + |c.results.buf| + One(!c.doneClosed) + One(c.panickedBy.None?)
  }

  function Rank(c: Cleanup): nat {
    CallerRank(c)
    + WorkerRank(c.crew.ingest) + WorkerRank(c.crew.streaming) + WorkerRank(c.crew.ports) + WorkerRank(c.crew.docker)
  }

  lemma KillRankDecreases(k: K.Kill, ev: K.Event, alive: bool, now: nat, deadline: Option<nat>)
    requires K.Inv(k, alive) && K.Step(k, ev, alive, now, deadline).Some?
    ensures KillRank(K.Step(k, ev, alive, now, deadline).value) < KillRank(k)
  {
  }

  lemma WorkerRankDecreases(s: Source, x: Worker, w: World, deadline: nat, ans: Answer, stored: set<Gateway>, composed: bool)
    requires WorkerInv(s, x, w, stored, composed) && WorkerStep(s, x, w, deadline, ans).Some?
    ensures
      var (x', w', eff) := WorkerStep(s, x, w, deadline, ans).value;
      WorkerRank(x') + One(eff.Sends?) < WorkerRank(x)
  {
    if x.Working? && x.job.Killing? && !x.job.k.pc.Returned? {
      KillRankDecreases(x.job.k, ans.ev, s.g in w.alive, w.now, Some(deadline));
    }
  }

  lemma SetRank(c: Cleanup, s: Source, x: Worker)
    ensures Rank(c.(crew := c.crew.Set(s, x))) + WorkerRank(c.crew.Get(s)) == Rank(c) + WorkerRank(x)
  {
    match s
    case FromGateway(Ingest) =>
    case FromGateway(Streaming) =>
    case FromPorts =>
    case FromDocker =>
  }

  lemma CallerRankDecreases(c: Cleanup, w: World, takeDone: bool)
    requires SpawnInv(c) && ControlInv(c) && c.panickedBy.None? && CallerStep(c, w, takeDone).Some?
    ensures Rank(CallerStep(c, w, takeDone).value) < Rank(c)
  {
    if c.caller.Spawn? {
      var s := c.caller.s;
      assert c.crew.Get(s).Unspawned?;
      SetRank(c, s, Working(FirstJob(s, w)));
    } else {
      assert CallerStep(c, w, takeDone).value.crew == c.crew;
    }
  }

  lemma StepDecreasesRank(c: Cleanup, w: World, a: Action)
    requires Inv(c) && SharedInv(c, w) && Step(c, w, a).Some?
    ensures Rank(Step(c, w, a).value.0) < Rank(c)
  {
    match a
    case CallerRuns(takeDone) => CallerRankDecreases(c, w, takeDone);
    case WaiterRuns =>
    case WorkerRuns(s, ans) =>
      var x := c.crew.Get(s);
      assert WorkerInv(s, x, w, c.storedAtStart, c.composedAtStart);
      WorkerRankDecreases(s, x, w, c.deadline, ans, c.storedAtStart, c.composedAtStart);
      var (x', w', eff) := WorkerStep(s, x, w, c.deadline, ans).value;
      SetRank(c, s, x');
  }

  /** The steps of a run that are the program's own. */
  function OwnSteps(acts: seq<SoloAction>): nat {
    if acts == [] then 0 else One(acts[0].Runs?) + OwnSteps(acts[1..])
  }

  lemma {:induction false} RunIsBounded(s: Solo, acts: seq<SoloAction>, before: bool)
    requires SoloInv(s, before) && Exec(s, acts).Some?
    ensures OwnSteps(acts) + Rank(Exec(s, acts).value.c) <= Rank(s.c)
    decreases |acts|
  {
    if acts != [] {
      var s' := SoloStep(s, acts[0]).value;
      RunKeepsSoloInv(s, [acts[0]], before);
      assert [acts[0]][1..] == [];
      assert Exec(s, [acts[0]]) == Some(s');
      if acts[0].Runs? {
        StepDecreasesRank(s.c, s.w, acts[0].a);
      }
      RunIsBounded(s', acts[1..], before);
    }
  }

  /** Whatever the schedule and the answers, one CleanupLocal takes at most 173 steps. */
  lemma BoundedSteps(w0: World, acts: seq<SoloAction>)
    requires Startable(w0) && Exec(Start(w0), acts).Some?
    ensures OwnSteps(acts) <= 173
  {
    StartEstablishesInv(w0);
    RunIsBounded(Start(w0), acts, w0.startedDocker);
  }

  // ------------------------------------------------------------------ progress

  /** An event a kill in progress can always take, after waiting `ms`. */
  lemma KillCanStep(k: K.Kill, alive: bool, now: nat, deadline: Option<nat>) returns (ms: nat, ev: K.Event)
    requires !k.pc.Returned?
    ensures K.Step(k, ev, alive, now + ms, deadline).Some?
  {
    ms := 0;
    match k.pc
    case SendTerm => ev := K.TermSent(true);
    case AwaitExit(_) => ev := K.WaitReturned;
    case SendKill(_) => ev := K.KillSent(true);
    case Pause(_, e) =>
      ms := if e > now then e - now else 0;
      ev := K.PauseElapsed;
    case _ => ev := K.Probed(alive);
  }

  /** A goroutine at work can always step: its kill after waiting, anything else at once. */
  lemma JobCanStep(s: Source, job: Job, w: World, deadline: nat) returns (ms: nat, ans: Answer)
    requires job.Killing? ==> s.FromGateway?
    ensures JobStep(s, job, w.(now := w.now + ms), deadline, ans).Some?
  {
    ms, ans := 0, DockerAnswer(true);
    if job.Killing? && !job.k.pc.Returned? {
      var ev;
      ms, ev := KillCanStep(job.k, s.g in w.alive, w.now, Some(deadline));
      ans := KillAnswer(ev);
    }
  }

  lemma JobStepIsCallStep(c: Cleanup, w: World, s: Source, ans: Answer)
    requires c.panickedBy.None? && c.crew.Get(s).Working? && JobStep(s, c.crew.Get(s).job, w, c.deadline, ans).Some?
    ensures Step(c, w, WorkerRuns(s, ans)).Some?
  {
  }

  /** ... and one that has done its work. */
  lemma RestCanStep(c: Cleanup, w: World, s: Source, ans: Answer)
    requires Inv(c) && c.panickedBy.None? && Busy(c.crew.Get(s)) && !c.crew.Get(s).Working?
    ensures Step(c, w, WorkerRuns(s, ans)).Some?
  {
    if c.crew.Get(s).Report? {
      SendNeverBlocks(c, w, s, ans);
    }
  }

  lemma WorkerCanStep(c: Cleanup, w: World, s: Source) returns (ms: nat, ans: Answer)
    requires Inv(c) && SharedInv(c, w) && c.panickedBy.None? && Busy(c.crew.Get(s))
    ensures Step(c, w.(now := w.now + ms), WorkerRuns(s, ans)).Some?
  {
    var x := c.crew.Get(s);
    if x.Working? {
      assert WorkerInv(s, x, w, c.storedAtStart, c.composedAtStart);
      ms, ans := JobCanStep(s, x.job, w, c.deadline);
      JobStepIsCallStep(c, w.(now := w.now + ms), s, ans);
    } else {
      ms, ans := 0, DockerAnswer(true);
      RestCanStep(c, w.(now := w.now), s, ans);
    }
  }

  lemma SomebodyIsBusy(crew: Crew) returns (s: Source)
    requires BusyCount(crew) > 0
    ensures Busy(crew.Get(s))
  {
    s := if Busy(crew.ingest) then FromGateway(Ingest)
         else if Busy(crew.streaming) then FromGateway(Streaming)
         else if Busy(crew.ports) then FromPorts else FromDocker;
  }

  lemma CallerCanStep(c: Cleanup, w: World) returns (takeDone: bool)
    requires !c.caller.Idle? && !c.caller.Returned? && (c.caller == Select ==> c.doneClosed)
    ensures CallerStep(c, w, takeDone).Some? && takeDone
  {
    takeDone := true;
  }

  /** The step is possible after waiting `ms`, and it is not the timeout. */
  predicate Enabled(c: Cleanup, w: World, ms: nat, a: Action) {
    Step(c, w.(now := w.now + ms), a).Some? && a != CallerRuns(false)
  }

  lemma EnabledLater(c: Cleanup, w: World, ms: nat, a: Action, later: World)
    requires Enabled(c, w, ms, a) && later == w.(now := w.now + ms)
    ensures Step(c, later, a).Some? && a != CallerRuns(false)
  {
  }

  /** Until CleanupLocal has returned or panicked some step of it is possible, perhaps after waiting, and it need not be the timeout. */
  lemma NoDeadlock(c: Cleanup, w: World) returns (ms: nat, a: Action)
    requires Inv(c) && SharedInv(c, w) && c.panickedBy.None? && !c.caller.Idle? && !c.caller.Returned?
    ensures Enabled(c, w, ms, a)
  {
    if c.caller == Select && !c.doneClosed {
      if c.wg == 0 {
        ms, a := 0, WaiterRuns;
      } else {
        var s := SomebodyIsBusy(c.crew);
        var ans;
        ms, ans := WorkerCanStep(c, w, s);
        a := WorkerRuns(s, ans);
      }
    } else {
      var takeDone := CallerCanStep(c, w.(now := w.now));
      ms, a := 0, CallerRuns(takeDone);
    }
  }

  /** Only the timeout leads to the timeout branch. */
  lemma BranchNotTimedOut(c: Cleanup, w: World, a: Action)
    requires a != CallerRuns(false) && Step(c, w, a).Some? && Branch(c.caller) != Some(TimedOut)
    ensures Branch(Step(c, w, a).value.0.caller) != Some(TimedOut)
  {
    if a.WorkerRuns? {
      var (x, w', eff) := WorkerStep(a.s, c.crew.Get(a.s), w, c.deadline, a.ans).value;
      ApplyKeepsRest(c, a.s, x, eff);
    }
  }

  /** The call has found something to do. */
  predicate Underway(c: Cleanup) {
    Stage(c.caller) >= 4 && c.caller != Returned(NothingToDo) && c.panickedBy.None? && Branch(c.caller) != Some(TimedOut)
  }

  lemma StaysUnderway(c: Cleanup, w: World, a: Action)
    requires Inv(c) && Underway(c) && Step(c, w, a).Some? && a != CallerRuns(false)
    ensures Inv(Step(c, w, a).value.0) && Underway(Step(c, w, a).value.0)
  {
    StepKeepsInv(c, w, a);
    BranchNotTimedOut(c, w, a);
    if a.WorkerRuns? {
      var (x, w', eff) := WorkerStep(a.s, c.crew.Get(a.s), w, c.deadline, a.ans).value;
      ApplyKeepsRest(c, a.s, x, eff);
    }
  }

  lemma {:induction false} ExecConcat(s: Solo, acts: seq<SoloAction>, more: seq<SoloAction>)
    requires Exec(s, acts).Some?
    ensures Exec(s, acts + more) == Exec(Exec(s, acts).value, more)
    decreases |acts|
  {
    if acts == [] {
      assert acts + more == more;
    } else {
      var all := acts + more;
      assert all != [] && all[0] == acts[0] && all[1..] == acts[1..] + more;
      ExecConcat(SoloStep(s, acts[0]).value, acts[1..], more);
    }
  }

  lemma OneStep(s: Solo, a: SoloAction)
    ensures Exec(s, [a]) == SoloStep(s, a)
  {
    assert [a][1..] == [];
  }

  lemma SoloEnabled(s: Solo, before: bool) returns (ms: nat, a: Action)
    requires SoloInv(s, before) && Underway(s.c) && !s.c.caller.Returned?
    ensures Enabled(s.c, s.w, ms, a)
  {
    ms, a := NoDeadlock(s.c, s.w);
  }

  lemma SoloLater(s: Solo, before: bool, ms: nat) returns (u: Solo)
    requires SoloInv(s, before)
    ensures Exec(s, [Tick(ms)]) == Some(u) && SoloInv(u, before) && u == s.(w := s.w.(now := s.w.now + ms))
  {
    OneStep(s, Tick(ms));
    RunKeepsSoloInv(s, [Tick(ms)], before);
    u := Exec(s, [Tick(ms)]).value;
  }

  lemma SoloOnce(s: Solo, before: bool, a: Action)
    requires SoloInv(s, before) && Underway(s.c) && Step(s.c, s.w, a).Some? && a != CallerRuns(false)
    ensures Exec(s, [Runs(a)]).Some?
    ensures
      var t := Exec(s, [Runs(a)]).value;
      SoloInv(t, before) && Underway(t.c) && Rank(t.c) < Rank(s.c)
  {
    OneStep(s, Runs(a));
    RunKeepsSoloInv(s, [Runs(a)], before);
    StepDecreasesRank(s.c, s.w, a);
    StaysUnderway(s.c, s.w, a);
  }

  /** A wait and a step of the call. */
  lemma SoloProgress(s: Solo, before: bool) returns (acts: seq<SoloAction>)
    requires SoloInv(s, before) && Underway(s.c) && !s.c.caller.Returned?
    ensures Exec(s, acts).Some?
    ensures
      var t := Exec(s, acts).value;
      SoloInv(t, before) && Underway(t.c) && Rank(t.c) < Rank(s.c)
  {
    var ms, a := SoloEnabled(s, before);
    var u := SoloLater(s, before, ms);
    EnabledLater(s.c, s.w, ms, a, u.w);
    SoloOnce(u, before, a);
    ExecConcat(s, [Tick(ms)], [Runs(a)]);
    acts := [Tick(ms)] + [Runs(a)];
  }

  lemma SoloFinishes(s: Solo, before: bool) returns (acts: seq<SoloAction>)
    requires SoloInv(s, before) && Underway(s.c)
    ensures Exec(s, acts).Some? && Exec(s, acts).value.c.caller == Returned(AllDone)
    decreases Rank(s.c)
  {
    if s.c.caller.Returned? {
      acts := [];
    } else {
      var first := SoloProgress(s, before);
      var more := SoloFinishes(Exec(s, first).value, before);
      ExecConcat(s, first, more);
      acts := first + more;
    }
  }

  /** The checks of hasAnythingToCleanup lead to the context if there is something. */
  lemma FindsSomething(w0: World) returns (acts: seq<SoloAction>)
    requires HasAnythingToCleanup(w0)
    ensures Exec(Start(w0), acts).Some? && Exec(Start(w0), acts).value.c.caller == CreateContext
    ensures Exec(Start(w0), acts).value.c.panickedBy.None?
  {
    var step := Runs(CallerRuns(true));
    var s0 := Start(w0);
    acts := [step];
    OneStep(s0, step);
    if !w0.startedDocker {
      var s1 := SoloStep(s0, step).value;
      ExecConcat(s0, acts, [step]);
      OneStep(s1, step);
      acts := acts + [step];
      if Ingest !in w0.slots {
        assert Streaming in w0.slots by {
          var g :| g in w0.slots;
          assert g == Ingest || g == Streaming;
        }
        ExecConcat(s0, acts, [step]);
        OneStep(SoloStep(s1, step).value, step);
        acts := acts + [step];
      }
    }
  }

  /** From every world with something to clean up some schedule leaves by the done branch. */
  lemma DoneIsPossible(w0: World)
    requires Startable(w0) && HasAnythingToCleanup(w0)
    ensures exists acts :: Exec(Start(w0), acts).Some? && Exec(Start(w0), acts).value.c.caller == Returned(AllDone)
  {
    StartEstablishesInv(w0);
    var first := FindsSomething(w0);
    RunKeepsSoloInv(Start(w0), first, w0.startedDocker);
    var more := SoloFinishes(Exec(Start(w0), first).value, w0.startedDocker);
    ExecConcat(Start(w0), first, more);
  }
}
