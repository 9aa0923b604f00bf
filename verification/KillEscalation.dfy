/**
 The kill escalation of cmd/frkrup/cleanup.go: SIGTERM, a grace period, then at
 most three rounds of SIGKILL, each followed by a pause and a liveness probe.

 The escalation is written twice.  `Step` is the state machine: one transition
 per call into the operating system, the answer of the operating system being
 part of the event.  The imperative form is in module KillCommand.
 */
module KillEscalation {
  import opened Wrappers

  const MAX_KILL_RETRIES: nat := 3
  const GRACEFUL_SHUTDOWN_MS: nat := 3000
  const KILL_RETRY_INTERVAL_MS: nat := 1000
  const WORST_CASE_KILL_MS: nat := GRACEFUL_SHUTDOWN_MS + MAX_KILL_RETRIES * KILL_RETRY_INTERVAL_MS

  /** Where one call of killProcessWithTimeout stands. */
  datatype Pc =
    | SendTerm                                  // about to send SIGTERM
    | AwaitExit(graceEnd: nat)                  // select on Wait, grace timer and context
    | VerifyExit                                // Wait returned: is the PID really gone?
    | LoopCheck(attempt: nat)                   // head of the retry loop
    | SendKill(attempt: nat)                    // attemptKillProcess
    | VerifyFailedSend(attempt: nat)            // the send failed: is the PID gone?
    | Pause(attempt: nat, pauseEnd: nat)        // select on the retry timer and the context
    | PauseCheck(attempt: nat)
    | FinalCheck
    | Returned(ok: bool)

  /** One answer of the operating system, the timers or the context. */
  datatype Event =
    | TermSent(delivered: bool)
    | WaitReturned
    | GraceElapsed
    | ContextExpired
    | Probed(running: bool)
    | KillSent(delivered: bool)
    | ProcessNotFound
    | PauseElapsed

  /** A call in progress together with its history. */
  datatype Kill = Kill(
    pc: Pc,
    tries: nat,         // attempts at SIGKILL: a signal sent, or no process found to send it to
    kills: nat,         // SIGKILLs sent, delivered or not
    seenGone: bool,     // some probe found the process gone
    expired: bool)      // some select took the context branch

  function Begin(): Kill {
    Kill(SendTerm, 0, 0, false, false)
  }

  predicate Expired(deadline: Option<nat>, now: nat) {
    deadline.Some? && deadline.value <= now
  }

  /** The loop's `continue`, or its exit after the last attempt. */
  function AfterRound(attempt: nat): Pc {
    if attempt < MAX_KILL_RETRIES then LoopCheck(attempt + 1) else FinalCheck
  }

  function AfterProbe(k: Kill, running: bool, now: nat): Option<Kill> {
    match k.pc
    case VerifyExit =>
      Some(k.(pc := if running then LoopCheck(1) else Returned(true)))
    case LoopCheck(a) =>
      Some(k.(pc := if running then SendKill(a) else Returned(true)))
    case VerifyFailedSend(a) =>
      Some(k.(pc := if running then AfterRound(a) else Pause(a, now + KILL_RETRY_INTERVAL_MS)))
    case PauseCheck(a) =>
      Some(k.(pc := if running then AfterRound(a) else Returned(true)))
    case FinalCheck =>
      Some(k.(pc := Returned(!running)))
    case _ => None
  }

  /** The effect of event `ev` at time `now`; None when `ev` cannot happen there. */
  function Step(k: Kill, ev: Event, alive: bool, now: nat, deadline: Option<nat>): Option<Kill> {
    match ev
    case TermSent(delivered) =>
      if !k.pc.SendTerm? then None
      else Some(k.(pc := if delivered then AwaitExit(now + GRACEFUL_SHUTDOWN_MS) else LoopCheck(1)))
    case WaitReturned =>
      if k.pc.AwaitExit? then Some(k.(pc := VerifyExit)) else None
    case GraceElapsed =>
      if k.pc.AwaitExit? && k.pc.graceEnd <= now then Some(k.(pc := LoopCheck(1))) else None
    case ContextExpired =>
      if !Expired(deadline, now) then None
      else if k.pc.AwaitExit? then Some(k.(pc := LoopCheck(1), expired := true))
      else if k.pc.Pause? then Some(k.(pc := Returned(false), expired := true))
      else None
    case KillSent(delivered) =>
      if !k.pc.SendKill? then None
      else
        var a := k.pc.attempt;
        var next := if delivered then Pause(a, now + KILL_RETRY_INTERVAL_MS) else VerifyFailedSend(a);
        Some(k.(pc := next, tries := k.tries + 1, kills := k.kills + 1))
    case ProcessNotFound =>
      if k.pc.SendKill? then Some(k.(pc := VerifyFailedSend(k.pc.attempt), tries := k.tries + 1)) else None
    case PauseElapsed =>
      if k.pc.Pause? && k.pc.pauseEnd <= now then Some(k.(pc := PauseCheck(k.pc.attempt))) else None
    case Probed(running) =>
      if running != alive then None else AfterProbe(k.(seenGone := k.seenGone || !running), running, now)
  }

  /** Which answers are possible where. */
  lemma StepEnabledExactly(k: Kill, ev: Event, alive: bool, now: nat, deadline: Option<nat>)
    ensures Step(k, ev, alive, now, deadline).Some? <==>
      match ev
      case TermSent(_) => k.pc.SendTerm?
      case WaitReturned => k.pc.AwaitExit?
      case GraceElapsed => k.pc.AwaitExit? && k.pc.graceEnd <= now
      case ContextExpired => (k.pc.AwaitExit? || k.pc.Pause?) && deadline.Some? && deadline.value <= now
      case KillSent(_) => k.pc.SendKill?
      case ProcessNotFound => k.pc.SendKill?
      case PauseElapsed => k.pc.Pause? && k.pc.pauseEnd <= now
      case Probed(running) =>
        running == alive &&
        (k.pc.VerifyExit? || k.pc.LoopCheck? || k.pc.VerifyFailedSend? || k.pc.PauseCheck? || k.pc.FinalCheck?)
  {
  }

  // ---------------------------------------------------------------- safety

  predicate Inv(k: Kill, alive: bool) {
    && (k.seenGone ==> !alive)
    && (k.seenGone ==> k.pc.Pause? || k.pc.PauseCheck? || k.pc == Returned(true) || (k.pc == Returned(false) && k.expired))
    && k.kills <= k.tries <= MAX_KILL_RETRIES
    && match k.pc
       case SendTerm => k.tries == 0 && !k.expired
       case AwaitExit(_) => k.tries == 0 && !k.expired
       case VerifyExit => k.tries == 0 && !k.expired
       case LoopCheck(a) => 1 <= a && k.tries == a - 1 && a <= MAX_KILL_RETRIES
       case SendKill(a) => 1 <= a && k.tries == a - 1 && a <= MAX_KILL_RETRIES
       case VerifyFailedSend(a) => 1 <= a && k.tries == a
       case Pause(a, _) => 1 <= a && k.tries == a
       case PauseCheck(a) => 1 <= a && k.tries == a
       case FinalCheck => k.tries == MAX_KILL_RETRIES
       case Returned(ok) =>
         if ok then k.seenGone else (k.expired && k.tries >= 1) || (k.tries == MAX_KILL_RETRIES && !k.seenGone)
  }

  lemma StepKeepsInv(k: Kill, ev: Event, alive: bool, now: nat, deadline: Option<nat>)
    requires Inv(k, alive) && Step(k, ev, alive, now, deadline).Some?
    ensures Inv(Step(k, ev, alive, now, deadline).value, alive)
  {
  }

  // ------------------------------------------------------------------ time

  /** True when the call waits for a timer (or for Wait) rather than acting. */
  predicate Blocked(k: Kill) {
    k.pc.AwaitExit? || k.pc.Pause?
  }

  function RoundsLeft(attempt: nat): nat {
    if attempt <= MAX_KILL_RETRIES then MAX_KILL_RETRIES + 1 - attempt else 0
  }

  /** The latest time at which a call that is never delayed by anything but its timers returns. */
  function FinishBy(k: Kill, now: nat): nat {
    match k.pc
    case SendTerm => now + WORST_CASE_KILL_MS
    case AwaitExit(e) => e + MAX_KILL_RETRIES * KILL_RETRY_INTERVAL_MS
    case VerifyExit => now + MAX_KILL_RETRIES * KILL_RETRY_INTERVAL_MS
    case LoopCheck(a) => now + RoundsLeft(a) * KILL_RETRY_INTERVAL_MS
    case SendKill(a) => now + RoundsLeft(a) * KILL_RETRY_INTERVAL_MS
    case VerifyFailedSend(a) => now + RoundsLeft(a) * KILL_RETRY_INTERVAL_MS
    case Pause(a, e) => e + RoundsLeft(a + 1) * KILL_RETRY_INTERVAL_MS
    case PauseCheck(a) => now + RoundsLeft(a + 1) * KILL_RETRY_INTERVAL_MS
    case FinalCheck => now
    case Returned(_) => now
  }

  /** Time has not run past the timer the call is waiting for. */
  predicate OnTime(k: Kill, now: nat) {
    && (k.pc.AwaitExit? ==> now <= k.pc.graceEnd)
    && (k.pc.Pause? ==> now <= k.pc.pauseEnd)
  }

  lemma StepKeepsFinish(k: Kill, ev: Event, alive: bool, now: nat, deadline: Option<nat>)
    requires Inv(k, alive) && OnTime(k, now) && Step(k, ev, alive, now, deadline).Some?
    ensures
      var k' := Step(k, ev, alive, now, deadline).value;
      OnTime(k', now) && now <= FinishBy(k', now) <= FinishBy(k, now)
  {
  }

  // ---------------------------------------------------------------- traces

  /** One event with the state of the process and the clock (in ms) at that moment. */
  datatype Moment = Moment(ev: Event, alive: bool, now: nat)

  /** The machine's verdict on a whole trace; None when the trace is impossible. */
  function Exec(t: seq<Moment>, deadline: Option<nat>): Option<Kill> {
    if t == [] then Some(Begin())
    else
      var m := t[|t| - 1];
      match Exec(t[..|t| - 1], deadline)
      case None => None
      case Some(k) => Step(k, m.ev, m.alive, m.now, deadline)
  }

  /** Processes do not come back and clocks do not run backwards. */
  ghost predicate Monotone(t: seq<Moment>) {
    forall i, j :: 0 <= i < j < |t| ==> (t[j].alive ==> t[i].alive) && t[i].now <= t[j].now
  }

  /** The process as the last moment of the trace left it. */
  predicate AliveAfter(t: seq<Moment>) {
    t == [] || t[|t| - 1].alive
  }

  /** A moment may be added to a trace. */
  predicate Follows(t: seq<Moment>, m: Moment) {
    (m.alive ==> AliveAfter(t)) && (t != [] ==> t[|t| - 1].now <= m.now)
  }

  lemma ExtendMonotone(t: seq<Moment>, m: Moment)
    requires Monotone(t) && Follows(t, m)
    ensures Monotone(t + [m])
  {
    var t' := t + [m];
    forall i, j | 0 <= i < j < |t'|
      ensures (t'[j].alive ==> t'[i].alive) && t'[i].now <= t'[j].now
    {
      if j == |t| && i < |t| - 1 {
        assert (t[|t| - 1].alive ==> t[i].alive) && t[i].now <= t[|t| - 1].now;
      }
    }
  }

  lemma Extend(t: seq<Moment>, m: Moment, deadline: Option<nat>)
    requires Monotone(t) && Follows(t, m)
    ensures Monotone(t + [m])
    ensures Exec(t + [m], deadline) ==
      if Exec(t, deadline).None? then None else Step(Exec(t, deadline).value, m.ev, m.alive, m.now, deadline)
  {
    ExtendMonotone(t, m);
    var t' := t + [m];
    assert t'[..|t'| - 1] == t && t'[|t'| - 1] == m;
  }

  function SigkillCount(t: seq<Moment>): nat {
    if t == [] then 0
    else SigkillCount(t[..|t| - 1]) + if t[|t| - 1].ev.KillSent? then 1 else 0
  }

  predicate IsAttempt(ev: Event) {
    ev.KillSent? || ev.ProcessNotFound?
  }

  /** The rounds in which a SIGKILL was attempted. */
  function AttemptCount(t: seq<Moment>): nat {
    if t == [] then 0
    else AttemptCount(t[..|t| - 1]) + if IsAttempt(t[|t| - 1].ev) then 1 else 0
  }

  /** What one step adds to the history. */
  lemma StepHistory(k: Kill, ev: Event, alive: bool, now: nat, deadline: Option<nat>)
    requires Step(k, ev, alive, now, deadline).Some?
    ensures
      var k' := Step(k, ev, alive, now, deadline).value;
      && k'.kills == k.kills + (if ev.KillSent? then 1 else 0)
      && k'.tries == k.tries + (if IsAttempt(ev) then 1 else 0)
      && (k'.seenGone <==> k.seenGone || ev == Probed(false))
      && (k'.expired <==> k.expired || ev == ContextExpired)
      && (IsAttempt(ev) <==> k.pc.SendKill?)
  {
  }

  ghost predicate Occurs(t: seq<Moment>, ev: Event) {
    exists i :: 0 <= i < |t| && t[i].ev == ev
  }

  lemma OccursSnoc(t: seq<Moment>, m: Moment, ev: Event)
    ensures Occurs(t + [m], ev) <==> Occurs(t, ev) || m.ev == ev
  {
    var t' := t + [m];
    if m.ev == ev {
      assert t'[|t|].ev == ev;
    }
    if Occurs(t, ev) {
      var i :| 0 <= i < |t| && t[i].ev == ev;
      assert t'[i].ev == ev;
    }
  }

  lemma {:induction false} RunKeepsInv(t: seq<Moment>, deadline: Option<nat>)
    requires Monotone(t) && Exec(t, deadline).Some?
    ensures
      var k := Exec(t, deadline).value;
      && Inv(k, AliveAfter(t))
      && k.kills == SigkillCount(t) && k.tries == AttemptCount(t)
      && (k.seenGone <==> Occurs(t, Probed(false)))
      && (k.expired <==> Occurs(t, ContextExpired))
  {
    if t != [] {
      var t0, m := t[..|t| - 1], t[|t| - 1];
      RunKeepsInv(t0, deadline);
      var k0 := Exec(t0, deadline).value;
      assert AliveAfter(t) ==> AliveAfter(t0);
      StepKeepsInv(k0, m.ev, m.alive, m.now, deadline);
      StepHistory(k0, m.ev, m.alive, m.now, deadline);
      assert t == t0 + [m];
      OccursSnoc(t0, m, Probed(false));
      OccursSnoc(t0, m, ContextExpired);
    }
  }

  /** No SIGKILL follows a probe that found the process gone. */
  lemma {:induction false} NoKillAfterGone(t: seq<Moment>, deadline: Option<nat>, i: nat, j: nat)
    requires Monotone(t) && Exec(t, deadline).Some?
    requires i < j < |t| && t[i].ev == Probed(false)
    ensures !t[j].ev.KillSent?
  {
    var t0, m := t[..|t| - 1], t[|t| - 1];
    if j < |t| - 1 {
      NoKillAfterGone(t0, deadline, i, j);
    } else {
      RunKeepsInv(t0, deadline);
      assert t0[i].ev == Probed(false);
      StepHistory(Exec(t0, deadline).value, m.ev, m.alive, m.now, deadline);
    }
  }

  /** The last step of a call. */
  lemma LastStep(k: Kill, ev: Event, alive: bool, now: nat, deadline: Option<nat>, ok: bool)
    requires Inv(k, alive) && Step(k, ev, alive, now, deadline).Some?
    requires Step(k, ev, alive, now, deadline).value.pc == Returned(ok)
    ensures if ok then ev == Probed(false)
            else if ev == ContextExpired then 1 <= k.tries <= 3
            else ev == Probed(true) && k.tries == 3
    ensures !IsAttempt(ev)
  {
  }

  lemma InvOfTheDead(k: Kill)
    requires Inv(k, true)
    ensures Inv(k, false)
  {
  }

  /**
   Soundness of a finished call: true means the process is gone; false means that
   SIGKILL was attempted in all three rounds and the last probe found the process
   alive, or that the context expired in the pause after an attempt.  At most three
   SIGKILLs are sent, none of them after a probe found the process gone.
   */
  lemma KillSoundness(t: seq<Moment>, deadline: Option<nat>, ok: bool)
    requires Monotone(t) && Exec(t, deadline).Some? && Exec(t, deadline).value.pc == Returned(ok)
    ensures ok ==> !t[|t| - 1].alive
    ensures !ok ==>
      if t[|t| - 1].ev == ContextExpired then 1 <= AttemptCount(t) <= 3
      else t[|t| - 1].ev == Probed(true) && AttemptCount(t) == 3
    ensures !Occurs(t, ContextExpired) ==> (ok <==> !t[|t| - 1].alive)
    ensures SigkillCount(t) <= AttemptCount(t) <= 3
    ensures forall i, j :: 0 <= i < j < |t| && t[i].ev == Probed(false) ==> !t[j].ev.KillSent?
  {
    var t0, m := t[..|t| - 1], t[|t| - 1];
    RunKeepsInv(t, deadline);
    RunKeepsInv(t0, deadline);
    if AliveAfter(t0) && !m.alive {
      InvOfTheDead(Exec(t0, deadline).value);
    }
    LastStep(Exec(t0, deadline).value, m.ev, m.alive, m.now, deadline, ok);
    forall i, j | 0 <= i < j < |t| && t[i].ev == Probed(false)
      ensures !t[j].ev.KillSent?
    {
      NoKillAfterGone(t, deadline, i, j);
    }
  }

  // ------------------------------------------------------ the machine, by history

  /** A probe decides by what it follows: a failed attempt, a pause, a return of Wait, or the head of a round. */
  function ExpectedAfterProbe(before: Event, running: bool, tries: nat, now: nat): Pc {
    if IsAttempt(before) then
      if !running then Pause(tries, now + 1000) else if tries < 3 then LoopCheck(tries + 1) else FinalCheck
    else if !running then Returned(true)
    else if before == WaitReturned then LoopCheck(1)
    else if before == PauseElapsed then if tries < 3 then LoopCheck(tries + 1) else FinalCheck
    else if tries < 3 then SendKill(tries + 1)
    else Returned(false)
  }

  /**
   Where a call must stand after a history, read off what happened last and how
   many attempts there were.
   */
  function Expected(t: seq<Moment>): Pc {
    if t == [] then SendTerm
    else
      var last, tries := t[|t| - 1], AttemptCount(t);
      match last.ev
      case TermSent(delivered) => if delivered then AwaitExit(last.now + 3000) else LoopCheck(1)
      case WaitReturned => VerifyExit
      case GraceElapsed => LoopCheck(1)
      case ContextExpired => if tries == 0 then LoopCheck(1) else Returned(false)
      case KillSent(delivered) => if delivered then Pause(tries, last.now + 1000) else VerifyFailedSend(tries)
      case ProcessNotFound => VerifyFailedSend(tries)
      case PauseElapsed => PauseCheck(tries)
      case Probed(running) => ExpectedAfterProbe(if |t| >= 2 then t[|t| - 2].ev else last.ev, running, tries, last.now)
  }

  /** What happened last, seen from where a probe is made. */
  lemma BeforeProbe(t: seq<Moment>)
    requires t != []
    ensures
      var last := t[|t| - 1].ev;
      match Expected(t)
      case VerifyExit => last == WaitReturned
      case VerifyFailedSend(_) => IsAttempt(last)
      case PauseCheck(_) => last == PauseElapsed
      case LoopCheck(_) => !IsAttempt(last) && last != WaitReturned && last != PauseElapsed
      case FinalCheck => last == Probed(true)
      case _ => true
  {
  }

  lemma ExpectedProbe(t: seq<Moment>, m: Moment)
    requires t != [] && m.ev.Probed?
    ensures Expected(t + [m]) == ExpectedAfterProbe(t[|t| - 1].ev, m.ev.running, AttemptCount(t), m.now)
  {
    var t' := t + [m];
    assert t'[..|t'| - 1] == t && t'[|t'| - 1] == m && t'[|t'| - 2] == t[|t| - 1];
  }

  lemma ProbeByHistory(t: seq<Moment>, k: Kill, m: Moment, deadline: Option<nat>)
    requires t != [] && k.pc == Expected(t) && Inv(k, AliveAfter(t)) && k.tries == AttemptCount(t)
    requires m.ev.Probed? && Step(k, m.ev, m.alive, m.now, deadline).Some?
    ensures Step(k, m.ev, m.alive, m.now, deadline).value.pc == Expected(t + [m])
  {
    BeforeProbe(t);
    ExpectedProbe(t, m);
  }

  lemma EventByHistory(t: seq<Moment>, k: Kill, m: Moment, deadline: Option<nat>)
    requires k.pc == Expected(t) && Inv(k, AliveAfter(t)) && k.tries == AttemptCount(t)
    requires !m.ev.Probed? && Step(k, m.ev, m.alive, m.now, deadline).Some?
    ensures Step(k, m.ev, m.alive, m.now, deadline).value.pc == Expected(t + [m])
  {
    var t' := t + [m];
    assert t'[..|t'| - 1] == t && t'[|t'| - 1] == m;
  }

  /** The machine stands where the history says, on every trace. */
  lemma {:induction false} StandsByHistory(t: seq<Moment>, deadline: Option<nat>)
    requires Monotone(t) && Exec(t, deadline).Some?
    ensures Exec(t, deadline).value.pc == Expected(t)
  {
    if t != [] {
      var t0, m := t[..|t| - 1], t[|t| - 1];
      StandsByHistory(t0, deadline);
      RunKeepsInv(t0, deadline);
      assert t == t0 + [m];
      if m.ev.Probed? {
        assert t0 != [];
        ProbeByHistory(t0, Exec(t0, deadline).value, m, deadline);
      } else {
        EventByHistory(t0, Exec(t0, deadline).value, m, deadline);
      }
    }
  }

  lemma {:induction false} PrefixRuns(t: seq<Moment>, deadline: Option<nat>, i: nat)
    requires Exec(t, deadline).Some? && i <= |t|
    ensures Exec(t[..i], deadline).Some?
  {
    if i < |t| {
      PrefixRuns(t[..|t| - 1], deadline, i);
      assert t[..|t| - 1][..i] == t[..i];
    } else {
      assert t[..i] == t;
    }
  }

  lemma StepInTrace(t: seq<Moment>, deadline: Option<nat>, i: nat)
    requires Exec(t, deadline).Some? && i < |t|
    ensures Exec(t[..i], deadline).Some? && Exec(t[..i + 1], deadline).Some?
    ensures Exec(t[..i + 1], deadline) == Step(Exec(t[..i], deadline).value, t[i].ev, t[i].alive, t[i].now, deadline)
  {
    PrefixRuns(t, deadline, i);
    PrefixRuns(t, deadline, i + 1);
    assert t[..i + 1][..i] == t[..i];
  }

  lemma LiveProbeAtHead(k: Kill, alive: bool, now: nat, deadline: Option<nat>)
    requires k.pc.LoopCheck? && Step(k, Probed(true), alive, now, deadline).Some?
    ensures Step(k, Probed(true), alive, now, deadline).value.pc.SendKill?
  {
  }

  /** Whenever the head of a round finds the process alive, the next thing that happens is an attempt at SIGKILL. */
  lemma LiveRoundIsAttempted(t: seq<Moment>, deadline: Option<nat>, i: nat)
    requires Exec(t, deadline).Some? && i + 1 < |t| && Exec(t[..i], deadline).Some?
    requires Exec(t[..i], deadline).value.pc.LoopCheck? && t[i].ev == Probed(true)
    ensures IsAttempt(t[i + 1].ev)
  {
    StepInTrace(t, deadline, i);
    LiveProbeAtHead(Exec(t[..i], deadline).value, t[i].alive, t[i].now, deadline);
    StepInTrace(t, deadline, i + 1);
    StepHistory(Exec(t[..i + 1], deadline).value, t[i + 1].ev, t[i + 1].alive, t[i + 1].now, deadline);
  }

  /** Exactly when the verdict is right: a call that returns reports the truth, unless its last event is the context's expiry, after which it reports false whatever became of the process. */
  lemma VerdictExact(t: seq<Moment>, deadline: Option<nat>, ok: bool)
    requires Monotone(t) && Exec(t, deadline).Some? && Exec(t, deadline).value.pc == Returned(ok)
    ensures ok <==> !t[|t| - 1].alive && t[|t| - 1].ev != ContextExpired
  {
    KillSoundness(t, deadline, ok);
    assert t[|t| - 1].ev.Probed? ==> t[|t| - 1].alive == t[|t| - 1].ev.running;
  }

  // ------------------------------------------------- no kill before its time

  lemma OnlyLiveProbesLead(k: Kill, ev: Event, alive: bool, now: nat, deadline: Option<nat>)
    requires Step(k, ev, alive, now, deadline).Some?
    ensures Step(k, ev, alive, now, deadline).value.pc.SendKill? ==> ev == Probed(true)
  {
  }

  /** Every attempt at SIGKILL directly follows a probe that found the process alive. */
  lemma {:induction false} KillFollowsLiveProbe(t: seq<Moment>, deadline: Option<nat>, j: nat)
    requires Exec(t, deadline).Some? && j < |t| && IsAttempt(t[j].ev)
    ensures j > 0 && t[j - 1].ev == Probed(true)
  {
    var t0 := t[..|t| - 1];
    if j < |t| - 1 {
      KillFollowsLiveProbe(t0, deadline, j);
    } else {
      var k := Exec(t0, deadline).value;
      StepHistory(k, t[j].ev, t[j].alive, t[j].now, deadline);
      assert t0 != [];
      var t1, m := t0[..|t0| - 1], t0[|t0| - 1];
      OnlyLiveProbesLead(Exec(t1, deadline).value, m.ev, m.alive, m.now, deadline);
    }
  }

  lemma GraceStep(k: Kill, ev: Event, alive: bool, now: nat, deadline: Option<nat>)
    requires Step(k, ev, alive, now, deadline).Some? && !k.pc.SendTerm?
    requires ev != WaitReturned && ev != ContextExpired
    ensures
      var k' := Step(k, ev, alive, now, deadline).value;
      && !k'.pc.SendTerm? && !k'.pc.AwaitExit?
      && (k.pc.AwaitExit? ==> k.pc.graceEnd <= now)
  {
  }

  /** The grace period: either it is still running, or it is over. */
  lemma {:induction false} GraceRuns(t: seq<Moment>, deadline: Option<nat>)
    requires t != [] && Monotone(t) && Exec(t, deadline).Some? && t[0].ev == TermSent(true)
    requires forall i :: 0 <= i < |t| ==> t[i].ev != WaitReturned && t[i].ev != ContextExpired
    ensures
      var k, end := Exec(t, deadline).value, t[0].now + GRACEFUL_SHUTDOWN_MS;
      if k.pc.AwaitExit? then k.pc.graceEnd == end else !k.pc.SendTerm? && end <= t[|t| - 1].now
  {
    var t0, m := t[..|t| - 1], t[|t| - 1];
    if t0 == [] {
      assert Exec(t0, deadline) == Some(Begin());
    } else {
      GraceRuns(t0, deadline);
      GraceStep(Exec(t0, deadline).value, m.ev, m.alive, m.now, deadline);
      assert t0[|t0| - 1].now <= m.now;
    }
  }

  /** A delivered SIGTERM is given its three seconds before the first SIGKILL, unless Wait returns or the context expires. */
  lemma {:induction false} GraceIsHonoured(t: seq<Moment>, deadline: Option<nat>, j: nat)
    requires Monotone(t) && Exec(t, deadline).Some? && j < |t| && t[j].ev.KillSent?
    requires t[0].ev == TermSent(true)
    requires forall i :: 0 <= i < |t| ==> t[i].ev != WaitReturned && t[i].ev != ContextExpired
    ensures t[0].now + 3000 <= t[j].now
  {
    var t0 := t[..|t| - 1];
    if j < |t| - 1 {
      GraceIsHonoured(t0, deadline, j);
    } else {
      KillFollowsLiveProbe(t, deadline, j);
      GraceRuns(t0, deadline);
    }
  }

  /** After a delivered SIGKILL the pause is running, over, or cut short by the end of the call. */
  lemma {:induction false} PauseRuns(t: seq<Moment>, deadline: Option<nat>, i: nat)
    requires Monotone(t) && Exec(t, deadline).Some? && i < |t| && t[i].ev == KillSent(true)
    ensures
      var k, end := Exec(t, deadline).value, t[i].now + KILL_RETRY_INTERVAL_MS;
      (k.pc.Pause? && k.pc.pauseEnd == end) || k.pc.Returned? || end <= t[|t| - 1].now
  {
    var t0, m := t[..|t| - 1], t[|t| - 1];
    if i < |t| - 1 {
      PauseRuns(t0, deadline, i);
      assert t0[|t0| - 1].now <= m.now;
    }
  }

  /** Delivered SIGKILLs are a second apart. */
  lemma {:induction false} PauseBetweenKills(t: seq<Moment>, deadline: Option<nat>, i: nat, j: nat)
    requires Monotone(t) && Exec(t, deadline).Some?
    requires i < j < |t| && t[i].ev == KillSent(true) && t[j].ev.KillSent?
    ensures t[i].now + 1000 <= t[j].now
  {
    var t0 := t[..|t| - 1];
    if j < |t| - 1 {
      PauseBetweenKills(t0, deadline, i, j);
    } else {
      PauseRuns(t0, deadline, i);
      assert Exec(t0, deadline).value.pc.SendKill?;
      assert t0[|t0| - 1].now <= t[j].now;
    }
  }

  // --------------------------------------------------------- bounded delay

  /** Only the selects take time, and no longer than their timer asks for. */
  predicate Prompt(t: seq<Moment>, deadline: Option<nat>, start: nat) {
    t == [] ||
    var t0, m := t[..|t| - 1], t[|t| - 1];
    && Prompt(t0, deadline, start)
    && Exec(t0, deadline).Some?
    && var k := Exec(t0, deadline).value;
       var before := if t0 == [] then start else t0[|t0| - 1].now;
       && before <= m.now
       && OnTime(k, m.now)
       && (!Blocked(k) ==> m.now == before)
  }

  /** With instantaneous signals and probes a call returns within six seconds and never sees a later deadline. */
  lemma {:induction false} KillWithinSixSeconds(t: seq<Moment>, deadline: Option<nat>, start: nat)
    requires Monotone(t) && Prompt(t, deadline, start) && Exec(t, deadline).Some?
    ensures
      var k := Exec(t, deadline).value;
      var now := if t == [] then start else t[|t| - 1].now;
      && OnTime(k, now)
      && now <= FinishBy(k, now) <= start + 6000
      && (deadline.None? || start + 6000 < deadline.value ==> !k.expired)
  {
    if t != [] {
      var t0, m := t[..|t| - 1], t[|t| - 1];
      KillWithinSixSeconds(t0, deadline, start);
      RunKeepsInv(t0, deadline);
      var k0 := Exec(t0, deadline).value;
      assert AliveAfter(t) ==> AliveAfter(t0);
      StepKeepsFinish(k0, m.ev, m.alive, m.now, deadline);
      StepHistory(k0, m.ev, m.alive, m.now, deadline);
    }
  }

  // ------------------------------------------- when a wrong verdict is possible

  /** The verdict of every prompt call begun at `start` is the truth. */
  ghost predicate AlwaysRight(deadline: Option<nat>, start: nat) {
    forall t: seq<Moment> ::
      Monotone(t) && Prompt(t, deadline, start) && Exec(t, deadline).Some? && Exec(t, deadline).value.pc.Returned? ==>
        (Exec(t, deadline).value.pc.ok <==> !t[|t| - 1].alive)
  }

  /** A prompt call stands at `pc` at time `now`. */
  ghost predicate At(t: seq<Moment>, deadline: Option<nat>, start: nat, pc: Pc, now: nat, alive: bool) {
    && Monotone(t) && Prompt(t, deadline, start)
    && Exec(t, deadline).Some? && Exec(t, deadline).value.pc == pc
    && now == (if t == [] then start else t[|t| - 1].now)
    && alive == AliveAfter(t)
  }

  /** A machine at `pc` without a history; where a step leads depends on `pc` alone. */
  function Bare(pc: Pc): Kill {
    Kill(pc, 0, 0, false, false)
  }

  function Move(pc: Pc, m: Moment, deadline: Option<nat>): Option<Pc> {
    match Step(Bare(pc), m.ev, m.alive, m.now, deadline)
    case None => None
    case Some(k) => Some(k.pc)
  }

  lemma MoveIsStep(k: Kill, m: Moment, deadline: Option<nat>)
    ensures
      match Step(k, m.ev, m.alive, m.now, deadline)
      case None => Move(k.pc, m, deadline) == None
      case Some(k') => Move(k.pc, m, deadline) == Some(k'.pc)
  {
  }

  lemma ExtendPrompt(t: seq<Moment>, m: Moment, deadline: Option<nat>, start: nat, now: nat)
    requires Prompt(t, deadline, start) && Exec(t, deadline).Some?
    requires now == (if t == [] then start else t[|t| - 1].now)
    requires now <= m.now && OnTime(Exec(t, deadline).value, m.now) && (Blocked(Exec(t, deadline).value) || m.now == now)
    ensures Prompt(t + [m], deadline, start)
  {
    var t' := t + [m];
    assert t'[..|t'| - 1] == t && t'[|t'| - 1] == m;
  }

  /** A prompt call goes on. */
  lemma Then(t: seq<Moment>, deadline: Option<nat>, start: nat, pc: Pc, now: nat, m: Moment, pc': Pc) returns (t': seq<Moment>)
    requires At(t, deadline, start, pc, now, true) && Move(pc, m, deadline) == Some(pc')
    requires now <= m.now && OnTime(Bare(pc), m.now) && (Blocked(Bare(pc)) || m.now == now)
    ensures At(t', deadline, start, pc', m.now, m.alive)
  {
    t' := t + [m];
    MoveIsStep(Exec(t, deadline).value, m, deadline);
    Extend(t, m, deadline);
    ExtendPrompt(t, m, deadline, start, now);
  }

  /** A round that leaves the process alive. */
  lemma LiveRound(t: seq<Moment>, deadline: Option<nat>, start: nat, a: nat, now: nat) returns (t': seq<Moment>)
    requires a < MAX_KILL_RETRIES && At(t, deadline, start, LoopCheck(a), now, true)
    ensures At(t', deadline, start, LoopCheck(a + 1), now + KILL_RETRY_INTERVAL_MS, true)
  {
    var end := now + KILL_RETRY_INTERVAL_MS;
    t' := Then(t, deadline, start, LoopCheck(a), now, Moment(Probed(true), true, now), Pc.SendKill(a));
    t' := Then(t', deadline, start, Pc.SendKill(a), now, Moment(KillSent(true), true, now), Pause(a, end));
    t' := Then(t', deadline, start, Pause(a, end), now, Moment(PauseElapsed, true, end), PauseCheck(a));
    t' := Then(t', deadline, start, PauseCheck(a), end, Moment(Probed(true), true, end), LoopCheck(a + 1));
  }

  /** The process dies of the SIGKILL, and the context expires in the pause that follows. */
  lemma LostRound(t: seq<Moment>, d: nat, start: nat, a: nat, now: nat) returns (t': seq<Moment>)
    requires a <= MAX_KILL_RETRIES && At(t, Some(d), start, LoopCheck(a), now, true) && d <= now + KILL_RETRY_INTERVAL_MS
    ensures exists end :: At(t', Some(d), start, Returned(false), end, false)
  {
    var end := now + KILL_RETRY_INTERVAL_MS;
    t' := Then(t, Some(d), start, LoopCheck(a), now, Moment(Probed(true), true, now), Pc.SendKill(a));
    t' := Then(t', Some(d), start, Pc.SendKill(a), now, Moment(KillSent(true), true, now), Pause(a, end));
    var late := if d <= now then now else d;
    t' := Then(t', Some(d), start, Pause(a, end), now, Moment(ContextExpired, false, late), Returned(false));
  }

  lemma LateRound(t: seq<Moment>, d: nat, start: nat, a: nat, now: nat) returns (t': seq<Moment>)
    requires 1 <= a <= MAX_KILL_RETRIES && At(t, Some(d), start, LoopCheck(a), now, true)
    requires d <= now + RoundsLeft(a) * KILL_RETRY_INTERVAL_MS
    ensures exists end :: At(t', Some(d), start, Returned(false), end, false)
    decreases MAX_KILL_RETRIES - a
  {
    if d <= now + KILL_RETRY_INTERVAL_MS {
      t' := LostRound(t, d, start, a, now);
    } else {
      t' := LiveRound(t, Some(d), start, a, now);
      t' := LateRound(t', d, start, a + 1, now + KILL_RETRY_INTERVAL_MS);
    }
  }

  /** A deadline within six seconds of the start admits a prompt call that reports failure for a process that is gone. */
  lemma FalseDespiteGone(d: nat, start: nat) returns (t: seq<Moment>)
    requires d <= start + WORST_CASE_KILL_MS
    ensures exists end :: At(t, Some(d), start, Returned(false), end, false)
  {
    t := [];
    assert At(t, Some(d), start, SendTerm, start, true);
    if d <= start + MAX_KILL_RETRIES * KILL_RETRY_INTERVAL_MS {
      t := Then(t, Some(d), start, SendTerm, start, Moment(TermSent(false), true, start), LoopCheck(1));
      t := LateRound(t, d, start, 1, start);
    } else {
      var grace := start + GRACEFUL_SHUTDOWN_MS;
      t := Then(t, Some(d), start, SendTerm, start, Moment(TermSent(true), true, start), Pc.AwaitExit(grace));
      t := Then(t, Some(d), start, Pc.AwaitExit(grace), start, Moment(GraceElapsed, true, grace), LoopCheck(1));
      t := LateRound(t, d, start, 1, grace);
    }
  }

  /** With instantaneous signals every verdict is right exactly if the deadline is more than six seconds away, or there is none. */
  lemma VerdictsRightExactly(deadline: Option<nat>, start: nat)
    ensures AlwaysRight(deadline, start) <==> deadline.None? || start + 6000 < deadline.value
  {
    if deadline.None? || start + WORST_CASE_KILL_MS < deadline.value {
      forall t: seq<Moment> |
        Monotone(t) && Prompt(t, deadline, start) && Exec(t, deadline).Some? && Exec(t, deadline).value.pc.Returned?
        ensures Exec(t, deadline).value.pc.ok <==> !t[|t| - 1].alive
      {
        KillWithinSixSeconds(t, deadline, start);
        KillSoundness(t, deadline, Exec(t, deadline).value.pc.ok);
      }
    } else {
      var t := FalseDespiteGone(deadline.value, start);
      assert t != [];
    }
  }
}
