/**
 Timing of CleanupLocal when signals, probes, sends and spawns are
 instantaneous: the gateway goroutines need at most six seconds, well inside the
 fifteen of the overall context, so neither of them can outlive the wait.
 Nothing is assumed about the port and Docker goroutines.
 */
module CleanupTiming {
  import opened Wrappers
  import opened CleanupProtocol
  import K = KillEscalation

  /** A goroutine that is not standing at an instantaneous step at any time up to `until`. */
  predicate Waits(x: Worker, until: nat) {
    || x.Unspawned?
    || x.Finished?
    || (x.Working? && x.job.Killing? && K.Blocked(x.job.k) && K.OnTime(x.job.k, until))
  }

  /** The clock may advance to `until`. */
  predicate PromptTick(c: Cleanup, until: nat) {
    && !c.caller.Spawn?
    && Waits(c.crew.ingest, until)
    && Waits(c.crew.streaming, until)
  }

  function FinishBy(x: Worker, now: nat): nat {
    match x
    case Working(job) =>
      (match job
       case GatewayReady(_) => now + K.WORST_CASE_KILL_MS
       case Killing(k) => K.FinishBy(k, now)
       case _ => now)
    case _ => now
  }

  predicate WorkerTimed(x: Worker, now: nat, deadline: nat) {
    x.Unspawned? || x.Finished? ||
    (&& now <= FinishBy(x, now)
     && FinishBy(x, now) + OVERALL_CLEANUP_MS <= deadline + K.WORST_CASE_KILL_MS
     && (x.Working? && x.job.Killing? ==> K.OnTime(x.job.k, now) && !x.job.k.expired))
  }

  predicate TimedInv(c: Cleanup, now: nat) {
    && (c.caller.Spawn? ==> now + OVERALL_CLEANUP_MS == c.deadline)
    && (Stage(c.caller) >= 5 ==> WorkerTimed(c.crew.ingest, now, c.deadline) && WorkerTimed(c.crew.streaming, now, c.deadline))
    && (Stage(c.caller) >= 10 ==> c.crew.ingest.Finished? && c.crew.streaming.Finished?)
  }

  lemma TickKeepsWorkerTimed(x: Worker, now: nat, until: nat, deadline: nat)
    requires WorkerTimed(x, now, deadline) && Waits(x, until) && now <= until
    ensures WorkerTimed(x, until, deadline)
  {
  }

  lemma TickKeepsTimedInv(c: Cleanup, now: nat, until: nat)
    requires TimedInv(c, now) && PromptTick(c, until) && now <= until
    ensures TimedInv(c, until)
  {
    if Stage(c.caller) >= 5 {
      TickKeepsWorkerTimed(c.crew.ingest, now, until, c.deadline);
      TickKeepsWorkerTimed(c.crew.streaming, now, until, c.deadline);
    }
  }

  lemma WorkerKeepsTimed(g: Gateway, x: Worker, w: World, deadline: nat, ans: Answer, stored: set<Gateway>, composed: bool)
    requires WorkerTimed(x, w.now, deadline) && WorkerInv(FromGateway(g), x, w, stored, composed)
    requires WorkerStep(FromGateway(g), x, w, deadline, ans).Some?
    ensures WorkerTimed(WorkerStep(FromGateway(g), x, w, deadline, ans).value.0, w.now, deadline)
  {
    if x.Working? && x.job.Killing? && !x.job.k.pc.Returned? {
      var k := x.job.k;
      K.StepKeepsFinish(k, ans.ev, g in w.alive, w.now, Some(deadline));
      K.StepHistory(k, ans.ev, g in w.alive, w.now, Some(deadline));
      if ans.ev.ContextExpired? {
        assert K.FinishBy(k, w.now) < deadline;
      }
    }
  }

  /** Either branch of the select finds both gateway goroutines finished. */
  lemma SelectFindsGatewaysFinished(c: Cleanup, now: nat)
    requires Inv(c) && TimedInv(c, now) && c.caller == Select
    requires c.doneClosed || c.deadline <= now
    ensures c.crew.ingest.Finished? && c.crew.streaming.Finished?
  {
    assert c.crew.ingest == c.crew.Get(FromGateway(Ingest));
    assert c.crew.streaming == c.crew.Get(FromGateway(Streaming));
  }

  lemma CallerKeepsTimedInv(c: Cleanup, w: World, takeDone: bool)
    requires Inv(c) && TimedInv(c, w.now) && CallerStep(c, w, takeDone).Some?
    ensures TimedInv(CallerStep(c, w, takeDone).value, w.now)
  {
    var c' := CallerStep(c, w, takeDone).value;
    if c.caller.Spawn? {
      SetCounts(c.crew, c.caller.s, Working(FirstJob(c.caller.s, w)));
    } else if c.caller == Select {
      SelectFindsGatewaysFinished(c, w.now);
    } else if c.caller == CreateContext {
      assert c.crew.Get(FromGateway(Ingest)).Unspawned? && c.crew.Get(FromGateway(Streaming)).Unspawned?;
    } else {
      assert c'.crew == c.crew && c'.deadline == c.deadline;
    }
  }

  lemma WorkerStepKeepsTimedInv(c: Cleanup, w: World, s: Source, ans: Answer)
    requires Inv(c) && SharedInv(c, w) && TimedInv(c, w.now) && Step(c, w, WorkerRuns(s, ans)).Some?
    ensures
      var (c', w') := Step(c, w, WorkerRuns(s, ans)).value;
      TimedInv(c', w.now)
  {
    var x := c.crew.Get(s);
    var (c', w') := Step(c, w, WorkerRuns(s, ans)).value;
    assert c'.caller == c.caller && c'.deadline == c.deadline;
    assert WorkerInv(s, x, w, c.storedAtStart, c.composedAtStart);
    if s.FromGateway? {
      assert x == if s.g.Ingest? then c.crew.ingest else c.crew.streaming;
      assert Stage(c.caller) >= 5;
      WorkerKeepsTimed(s.g, x, w, c.deadline, ans, c.storedAtStart, c.composedAtStart);
    } else {
      assert c'.crew.ingest == c.crew.ingest && c'.crew.streaming == c.crew.streaming;
    }
  }

  lemma StepKeepsTimedInv(c: Cleanup, w: World, a: Action)
    requires Inv(c) && SharedInv(c, w) && TimedInv(c, w.now) && Step(c, w, a).Some?
    ensures TimedInv(Step(c, w, a).value.0, w.now)
  {
    match a
    case CallerRuns(takeDone) => CallerKeepsTimedInv(c, w, takeDone);
    case WaiterRuns =>
    case WorkerRuns(s, ans) => WorkerStepKeepsTimedInv(c, w, s, ans);
  }

  /** The consequences of the timing invariant: the bound itself, and who may still send after the close. */
  lemma GatewaysDoNotOutliveTheWait(c: Cleanup, w: World, g: Gateway)
    requires Inv(c) && TimedInv(c, w.now)
    ensures c.crew.Get(FromGateway(g)).Unspawned? || c.crew.Get(FromGateway(g)).Finished?
         || w.now + OVERALL_CLEANUP_MS <= c.deadline + K.WORST_CASE_KILL_MS
    ensures c.results.closed ==> c.crew.Get(FromGateway(g)).Finished?
    ensures c.panickedBy != Some(FromGateway(g))
  {
  }
}
