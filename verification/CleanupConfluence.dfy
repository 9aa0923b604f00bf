/**
 One CleanupLocal running on its own: every schedule that leaves by the done
 branch ends in the same configuration, and calling it again does nothing
 unless "docker compose down" failed.
 */
module CleanupConfluence {
  import opened Wrappers
  import opened CleanupProtocol

  datatype Solo = Solo(c: Cleanup, w: World)

  datatype SoloAction = Tick(ms: nat) | Dies(g: Gateway) | Runs(a: Action)

  function SoloStep(s: Solo, a: SoloAction): Option<Solo> {
    match a
    case Tick(ms) => Some(s.(w := s.w.(now := s.w.now + ms)))
    case Dies(g) => Some(s.(w := s.w.(alive := s.w.alive - {g})))
    case Runs(a) =>
      match Step(s.c, s.w, a)
      case None => None
      case Some((c', w')) => Some(Solo(c', w'))
  }

  function Exec(s: Solo, acts: seq<SoloAction>): Option<Solo>
    decreases |acts|
  {
    if acts == [] then Some(s)
    else
      match SoloStep(s, acts[0])
      case None => None
      case Some(s') => Exec(s', acts[1..])
  }

  /** CleanupLocal has just been called in world `w`. */
  function Start(w: World): Solo {
    Solo(Call(NewCleanup(), w).value, w)
  }

  /** The Docker flag against what CleanupDocker has done; `before` is the flag when CleanupLocal was called. */
  predicate FlagInv(docker: Worker, w: World, before: bool) {
    if docker == Working(Stopping(FindPath)) || docker == Working(Stopping(RunDown)) then
      w.startedDocker && before && !w.downOk
    else if docker == Working(Stopping(ClearFlag)) then
      w.startedDocker && before && w.downOk
    else
      w.startedDocker <==> before && !w.downOk
  }

  ghost predicate SoloInv(s: Solo, before: bool) {
    && Inv(s.c) && WorldInv(s.w) && SharedInv(s.c, s.w) && ConfigInv(s.c, s.w)
    && FlagInv(s.c.crew.docker, s.w, before)
  }

  /** A world in which a cleanup may begin: while StartedDocker is set, no `down` has succeeded. */
  ghost predicate Startable(w: World) {
    WorldInv(w) && (w.startedDocker ==> !w.downOk)
  }

  lemma StartEstablishesInv(w0: World)
    requires Startable(w0)
    ensures SoloInv(Start(w0), w0.startedDocker)
  {
    var c := Start(w0).c;
    assert forall s: Source :: c.crew.Get(s) == Unspawned;
  }

  lemma CallerKeepsFlag(c: Cleanup, w: World, takeDone: bool, before: bool)
    requires SpawnInv(c) && FlagInv(c.crew.docker, w, before) && CallerStep(c, w, takeDone).Some?
    ensures FlagInv(CallerStep(c, w, takeDone).value.crew.docker, w, before)
  {
    if c.caller.Spawn? {
      assert c.crew.Get(c.caller.s).Unspawned?;
    } else {
      assert CallerStep(c, w, takeDone).value.crew == c.crew;
    }
  }

  lemma WorkerKeepsFlag(s: Source, x: Worker, w: World, deadline: nat, ans: Answer,
                        stored: set<Gateway>, composed: bool, before: bool)
    requires WorkerInv(s, x, w, stored, composed) && WorkerStep(s, x, w, deadline, ans).Some?
    ensures
      var (x', w', eff) := WorkerStep(s, x, w, deadline, ans).value;
      && (!s.FromDocker? ==> w'.startedDocker == w.startedDocker && w'.downOk == w.downOk)
      && (s.FromDocker? && FlagInv(x, w, before) ==> FlagInv(x', w', before))
      && (eff.Sends? ==> w' == w)
  {
  }

  lemma WorkerStepKeepsFlag(c: Cleanup, w: World, s: Source, ans: Answer, before: bool)
    requires SharedInv(c, w) && Step(c, w, WorkerRuns(s, ans)).Some? && FlagInv(c.crew.docker, w, before)
    ensures
      var (c', w') := Step(c, w, WorkerRuns(s, ans)).value;
      FlagInv(c'.crew.docker, w', before)
  {
    var x0 := c.crew.Get(s);
    assert WorkerInv(s, x0, w, c.storedAtStart, c.composedAtStart);
    WorkerKeepsFlag(s, x0, w, c.deadline, ans, c.storedAtStart, c.composedAtStart, before);
    var (x, w', eff) := WorkerStep(s, x0, w, c.deadline, ans).value;
    ApplyKeepsRest(c, s, x, eff);
    SetGet(c.crew, s, x, FromDocker);
    assert c.crew.docker == c.crew.Get(FromDocker) && c.crew.Set(s, x).docker == c.crew.Set(s, x).Get(FromDocker);
  }

  lemma StepKeepsFlag(c: Cleanup, w: World, a: Action, before: bool)
    requires SpawnInv(c) && SharedInv(c, w) && Step(c, w, a).Some?
    requires FlagInv(c.crew.docker, w, before)
    ensures
      var (c', w') := Step(c, w, a).value;
      FlagInv(c'.crew.docker, w', before)
  {
    match a
    case CallerRuns(takeDone) => CallerKeepsFlag(c, w, takeDone, before);
    case WaiterRuns =>
    case WorkerRuns(s, ans) => WorkerStepKeepsFlag(c, w, s, ans, before);
  }

  lemma {:induction false} RunKeepsSoloInv(s: Solo, acts: seq<SoloAction>, before: bool)
    requires SoloInv(s, before) && Exec(s, acts).Some?
    ensures SoloInv(Exec(s, acts).value, before)
    decreases |acts|
  {
    if acts != [] {
      var s' := SoloStep(s, acts[0]).value;
      match acts[0] {
        case Tick(_) => SharedInvStable(s.c, s.w, s'.w);
        case Dies(_) => SharedInvStable(s.c, s.w, s'.w);
        case Runs(a) =>
          StepKeepsInv(s.c, s.w, a);
          StepGuarantee(s.c, s.w, a);
          StepKeepsConfigInv(s.c, s.w, a);
          StepKeepsFlag(s.c, s.w, a, before);
      }
      RunKeepsSoloInv(s', acts[1..], before);
    }
  }

  /** A call remembers the world it was made in. */
  lemma {:induction false} CallKeepsHistory(s: Solo, acts: seq<SoloAction>)
    requires Exec(s, acts).Some?
    ensures Exec(s, acts).value.c.storedAtStart == s.c.storedAtStart
    decreases |acts|
  {
    if acts != [] {
      var s' := SoloStep(s, acts[0]).value;
      assert s'.c.storedAtStart == s.c.storedAtStart;
      CallKeepsHistory(s', acts[1..]);
    }
  }

  /** The end of any schedule that leaves by the done branch depends only on whether `down` succeeded. */
  lemma DoneConfiguration(w0: World, acts: seq<SoloAction>)
    requires Startable(w0) && Exec(Start(w0), acts).Some?
    requires Exec(Start(w0), acts).value.c.caller == Returned(AllDone)
    ensures
      var w := Exec(Start(w0), acts).value.w;
      && w.slots == {}
      && (w.startedDocker <==> w0.startedDocker && !w.downOk)
      && w0.stored <= w.killed
      && (HasAnythingToCleanup(w) <==> w0.startedDocker && !w.downOk)
  {
    StartEstablishesInv(w0);
    RunKeepsSoloInv(Start(w0), acts, w0.startedDocker);
    var s := Exec(Start(w0), acts).value;
    AllDonePrintsEverything(s.c, s.w);
    DoneMeansAchieved(s.c, s.w);
    assert forall g: Gateway :: g in s.w.slots ==> g == Ingest || g == Streaming;
    assert s.c.crew.docker == s.c.crew.Get(FromDocker);
    CallKeepsHistory(Start(w0), acts);
  }

  /** Confluence: two schedules with the same answer from `docker compose down` end in the same configuration. */
  lemma Confluence(w0: World, acts1: seq<SoloAction>, acts2: seq<SoloAction>)
    requires Startable(w0) && Exec(Start(w0), acts1).Some? && Exec(Start(w0), acts2).Some?
    requires Exec(Start(w0), acts1).value.c.caller == Exec(Start(w0), acts2).value.c.caller == Returned(AllDone)
    requires Exec(Start(w0), acts1).value.w.downOk == Exec(Start(w0), acts2).value.w.downOk
    ensures
      var w1, w2 := Exec(Start(w0), acts1).value.w, Exec(Start(w0), acts2).value.w;
      w1.slots == w2.slots && w1.startedDocker == w2.startedDocker
  {
    DoneConfiguration(w0, acts1);
    DoneConfiguration(w0, acts2);
  }

  // ------------------------------------------------------------ what is printed

  /** A gateway's slot is as it was until its goroutine is created, which is then given a command exactly if it was set. */
  predicate SlotInv(x: Worker, inSlots: bool, passed: bool, before: bool) {
    if x.Unspawned? then inSlots == before else passed == before
  }

  predicate SlotsInv(s: Solo, slots: set<Gateway>) {
    && SlotInv(s.c.crew.ingest, Ingest in s.w.slots, Ingest in s.c.passed, Ingest in slots)
    && SlotInv(s.c.crew.streaming, Streaming in s.w.slots, Streaming in s.c.passed, Streaming in slots)
  }

  lemma CallerKeepsSlots(c: Cleanup, w: World, takeDone: bool, slots: set<Gateway>)
    requires SpawnInv(c) && SlotsInv(Solo(c, w), slots) && CallerStep(c, w, takeDone).Some?
    ensures SlotsInv(Solo(CallerStep(c, w, takeDone).value, w), slots)
  {
    if c.caller.Spawn? {
      assert c.crew.Get(c.caller.s).Unspawned?;
    } else {
      var c' := CallerStep(c, w, takeDone).value;
      assert c'.crew == c.crew && c'.passed == c.passed;
    }
  }

  lemma JobKeepsSlots(s: Source, job: Job, w: World, deadline: nat, ans: Answer)
    requires JobStep(s, job, w, deadline, ans).Some?
    ensures JobStep(s, job, w, deadline, ans).value.1.slots == w.slots
  {
  }

  /** A goroutine empties no slot but its own. */
  lemma WorkerKeepsOtherSlots(s: Source, x: Worker, w: World, deadline: nat, ans: Answer, g: Gateway)
    requires s != FromGateway(g) && WorkerStep(s, x, w, deadline, ans).Some?
    ensures g in WorkerStep(s, x, w, deadline, ans).value.1.slots <==> g in w.slots
  {
    if x.Working? {
      JobKeepsSlots(s, x.job, w, deadline, ans);
    }
  }

  lemma WorkerKeepsSlots(c: Cleanup, w: World, s: Source, ans: Answer, slots: set<Gateway>)
    requires SlotsInv(Solo(c, w), slots) && Step(c, w, WorkerRuns(s, ans)).Some?
    ensures
      var (c', w') := Step(c, w, WorkerRuns(s, ans)).value;
      SlotsInv(Solo(c', w'), slots)
  {
    var (x, w', eff) := WorkerStep(s, c.crew.Get(s), w, c.deadline, ans).value;
    WorkerStepShape(s, c.crew.Get(s), w, c.deadline, ans);
    ApplyKeepsRest(c, s, x, eff);
    if s != FromGateway(Ingest) {
      WorkerKeepsOtherSlots(s, c.crew.Get(s), w, c.deadline, ans, Ingest);
    }
    if s != FromGateway(Streaming) {
      WorkerKeepsOtherSlots(s, c.crew.Get(s), w, c.deadline, ans, Streaming);
    }
  }

  lemma {:induction false} RunKeepsSlots(s: Solo, acts: seq<SoloAction>, before: bool, slots: set<Gateway>)
    requires SoloInv(s, before) && SlotsInv(s, slots) && Exec(s, acts).Some?
    ensures SlotsInv(Exec(s, acts).value, slots)
    decreases |acts|
  {
    if acts != [] {
      var s' := SoloStep(s, acts[0]).value;
      match acts[0] {
        case Tick(_) =>
        case Dies(_) =>
        case Runs(a) =>
          match a {
            case CallerRuns(takeDone) => CallerKeepsSlots(s.c, s.w, takeDone, slots);
            case WaiterRuns =>
            case WorkerRuns(x, ans) => WorkerKeepsSlots(s.c, s.w, x, ans, slots);
          }
      }
      RunKeepsSoloInv(s, [acts[0]], before);
      assert [acts[0]][1..] == [];
      assert Exec(s, [acts[0]]) == Some(s');
      RunKeepsSlots(s', acts[1..], before, slots);
    }
  }

  /** On its own, Docker's goroutine knows the flag. */
  predicate DockerKnows(x: Worker, w: World) {
    match x
    case Working(job) =>
      job.Stopping? ==>
        (match job.pc
         case ReadFlag => true
         case DockerDone(ok) => ok <==> !w.startedDocker
         case _ => w.startedDocker)
    case Report(ok) => ok <==> !w.startedDocker
    case _ => true
  }

  /** And what it has said stays so. */
  ghost predicate DockerSaid(c: Cleanup, w: World) {
    && DockerKnows(c.crew.docker, w)
    && (Busy(c.crew.docker) && !HasSent(c.crew.docker) ==> !InLog(c.results.sent, FromDocker))
    && (c.crew.docker.Unspawned? ==> !InLog(c.results.sent, FromDocker))
    && forall i :: 0 <= i < |c.results.sent| && c.results.sent[i].from == FromDocker ==>
         (c.results.sent[i].ok <==> !w.startedDocker)
  }

  lemma WorkerKeepsKnowing(s: Source, x: Worker, w: World, deadline: nat, ans: Answer, docker: Worker)
    requires WorkerStep(s, x, w, deadline, ans).Some? && DockerKnows(docker, w)
    requires s.FromDocker? ==> x == docker
    requires x.Working? ==> (x.job.Stopping? <==> s.FromDocker?)
    ensures
      var (x', w', eff) := WorkerStep(s, x, w, deadline, ans).value;
      && DockerKnows(if s.FromDocker? then x' else docker, w')
      && (!s.FromDocker? || !(x.Working? && x.job.Stopping?) ==> w'.startedDocker == w.startedDocker)
      && (eff.Sends? && s.FromDocker? ==> eff.m.from == s && (eff.m.ok <==> !w'.startedDocker))
  {
  }

  /** The bookkeeping of a step against what Docker's goroutine has said. */
  lemma SayingKept(c: Cleanup, s: Source, x: Worker, eff: Effect, w: World, w': World)
    requires Apply(c, s, x, eff).Some? && DockerSaid(c, w) && Fits(c, s, x, eff)
    requires DockerKnows(if s.FromDocker? then x else c.crew.docker, w')
    requires !s.FromDocker? || !Busy(c.crew.docker) || HasSent(c.crew.docker) || c.crew.docker.Report? ==> w'.startedDocker == w.startedDocker
    requires eff.Sends? && s.FromDocker? ==> (eff.m.ok <==> !w'.startedDocker)
    requires s.FromDocker? && c.crew.docker.Report? ==> eff.Sends?
    ensures DockerSaid(Apply(c, s, x, eff).value, w')
  {
    var c' := Apply(c, s, x, eff).value;
    if eff.Sends? && !c.results.closed {
      InLogSnoc(c.results.sent, eff.m);
    }
    assert s.FromDocker? ==> c.crew.Get(s) == c.crew.docker;
    if w'.startedDocker != w.startedDocker {
      assert !InLog(c.results.sent, FromDocker);
    }
  }

  lemma WorkerKeepsSaying(c: Cleanup, w: World, s: Source, ans: Answer)
    requires Inv(c) && SharedInv(c, w) && DockerSaid(c, w) && Step(c, w, WorkerRuns(s, ans)).Some?
    ensures
      var (c', w') := Step(c, w, WorkerRuns(s, ans)).value;
      DockerSaid(c', w')
  {
    var x0 := c.crew.Get(s);
    var (x, w', eff) := WorkerStep(s, x0, w, c.deadline, ans).value;
    assert WorkerInv(s, x0, w, c.storedAtStart, c.composedAtStart);
    assert s.FromDocker? ==> x0 == c.crew.docker;
    WorkerKeepsKnowing(s, x0, w, c.deadline, ans, c.crew.docker);
    WorkerStepShape(s, x0, w, c.deadline, ans);
    ApplyKeepsRest(c, s, x, eff);
    SayingKept(c, s, x, eff, w, w');
  }

  lemma CallerKeepsSaying(c: Cleanup, w: World, takeDone: bool)
    requires Inv(c) && DockerSaid(c, w) && CallerStep(c, w, takeDone).Some?
    ensures DockerSaid(CallerStep(c, w, takeDone).value, w)
  {
    if c.caller.Spawn? {
      assert c.crew.Get(c.caller.s).Unspawned?;
    } else {
      assert CallerStep(c, w, takeDone).value.crew == c.crew;
    }
  }

  lemma StepKeepsSaying(s: Solo, a: SoloAction)
    requires Inv(s.c) && SharedInv(s.c, s.w) && DockerSaid(s.c, s.w) && SoloStep(s, a).Some?
    ensures DockerSaid(SoloStep(s, a).value.c, SoloStep(s, a).value.w)
  {
    if a.Runs? {
      match a.a
      case CallerRuns(takeDone) => CallerKeepsSaying(s.c, s.w, takeDone);
      case WaiterRuns =>
      case WorkerRuns(x, ans) => WorkerKeepsSaying(s.c, s.w, x, ans);
    }
  }

  lemma {:induction false} RunKeepsSaying(s: Solo, acts: seq<SoloAction>, before: bool)
    requires SoloInv(s, before) && DockerSaid(s.c, s.w) && Exec(s, acts).Some?
    ensures DockerSaid(Exec(s, acts).value.c, Exec(s, acts).value.w)
    decreases |acts|
  {
    if acts != [] {
      StepKeepsSaying(s, acts[0]);
      RunKeepsSoloInv(s, [acts[0]], before);
      assert [acts[0]][1..] == [];
      assert Exec(s, [acts[0]]) == SoloStep(s, acts[0]);
      RunKeepsSaying(SoloStep(s, acts[0]).value, acts[1..], before);
    }
  }

  /** On the done branch Docker is reported stopped exactly if StartedDocker is false at the end, and every other message is true as well. */
  lemma PrintsTheTruth(w0: World, acts: seq<SoloAction>, m: Message)
    requires Startable(w0) && Exec(Start(w0), acts).Some?
    requires Exec(Start(w0), acts).value.c.caller == Returned(AllDone)
    requires m in Exec(Start(w0), acts).value.c.results.printed
    ensures
      var w := Exec(Start(w0), acts).value.w;
      match m.from
      case FromGateway(g) => (if m.ok then g in w.confirmed && g !in w.alive else g in w.cutShort + w.survived)
      case FromPorts => m.ok
      case FromDocker => m.ok <==> !w.startedDocker
  {
    StartEstablishesInv(w0);
    RunKeepsSoloInv(Start(w0), acts, w0.startedDocker);
    RunKeepsSaying(Start(w0), acts, w0.startedDocker);
    var s := Exec(Start(w0), acts).value;
    AllDonePrintsEverything(s.c, s.w);
    var i :| 0 <= i < |s.c.results.printed| && s.c.results.printed[i] == m;
    assert Truthful(s.c.results.printed[i], s.w, s.c.composedAtStart);
  }

  /** On the done branch exactly two messages are printed, and one more for each command the configuration held when the call was made. */
  lemma PrintsOneForEachCommand(w0: World, acts: seq<SoloAction>)
    requires Startable(w0) && Exec(Start(w0), acts).Some?
    requires Exec(Start(w0), acts).value.c.caller == Returned(AllDone)
    ensures
      var printed := Exec(Start(w0), acts).value.c.results.printed;
      && |printed| == 2 + One(Ingest in w0.slots) + One(Streaming in w0.slots)
      && (forall g: Gateway :: InLog(printed, FromGateway(g)) <==> g in w0.slots)
      && InLog(printed, FromPorts) && InLog(printed, FromDocker)
  {
    StartEstablishesInv(w0);
    RunKeepsSoloInv(Start(w0), acts, w0.startedDocker);
    RunKeepsSlots(Start(w0), acts, w0.startedDocker, w0.slots);
    var s := Exec(Start(w0), acts).value;
    AllDonePrintsEverything(s.c, s.w);
    forall g: Gateway
      ensures g in s.c.passed <==> g in w0.slots
    {
      match g
      case Ingest => assert s.c.crew.ingest.Finished?;
      case Streaming => assert s.c.crew.streaming.Finished?;
    }
  }

  /** Nothing of the shared state but the clock and the life of processes has changed. */
  predicate Untouched(w: World, w': World) {
    w' == w.(now := w'.now, alive := w'.alive)
  }

  /** A call that has found nothing to clean up so far. */
  predicate FindsNothing(c: Cleanup) {
    && c.crew == NOBODY && c.results == NewCleanup().results && c.panickedBy.None?
    && (c.caller == CheckDocker || c.caller == CheckIngest || c.caller == CheckStreaming || c.caller == Returned(NothingToDo))
  }

  lemma NothingToDoStep(c: Cleanup, w: World, a: Action)
    requires !HasAnythingToCleanup(w) && FindsNothing(c) && Step(c, w, a).Some?
    ensures
      var (c', w') := Step(c, w, a).value;
      FindsNothing(c') && w' == w
  {
    assert forall x: Source :: NOBODY.Get(x) == Unspawned;
  }

  /** Calling CleanupLocal with nothing to clean up runs no goroutine and changes nothing, on any schedule. */
  lemma {:induction false} NothingToDoIsNoOp(s: Solo, acts: seq<SoloAction>)
    requires !HasAnythingToCleanup(s.w) && FindsNothing(s.c) && Exec(s, acts).Some?
    ensures
      var s' := Exec(s, acts).value;
      Untouched(s.w, s'.w) && FindsNothing(s'.c)
    decreases |acts|
  {
    if acts != [] {
      if acts[0].Runs? {
        NothingToDoStep(s.c, s.w, acts[0].a);
      }
      NothingToDoIsNoOp(SoloStep(s, acts[0]).value, acts[1..]);
    }
  }

  /** A second CleanupLocal after a completed one is a no-op exactly when Docker was not started or came down. */
  lemma SecondCallIsNoOp(w0: World, acts: seq<SoloAction>, again: seq<SoloAction>)
    requires Startable(w0) && Exec(Start(w0), acts).Some?
    requires Exec(Start(w0), acts).value.c.caller == Returned(AllDone)
    ensures
      var w := Exec(Start(w0), acts).value.w;
      Startable(w) &&
      if w0.startedDocker && !w.downOk then
        SoloStep(Start(w), Runs(CallerRuns(false))).value.c.caller == CreateContext
      else
        Exec(Start(w), again).Some? ==>
          && Untouched(w, Exec(Start(w), again).value.w)
          && Exec(Start(w), again).value.c.crew == NOBODY
  {
    DoneConfiguration(w0, acts);
    StartEstablishesInv(w0);
    RunKeepsSoloInv(Start(w0), acts, w0.startedDocker);
    var w := Exec(Start(w0), acts).value.w;
    if !HasAnythingToCleanup(w) && Exec(Start(w), again).Some? {
      NothingToDoIsNoOp(Start(w), again);
    }
  }
}
