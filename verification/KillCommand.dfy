/**
 The kill escalation of cmd/frkrup/cleanup.go in its imperative form: methods on
 a command whose process may die and whose clock may advance at every call.  Each
 method leaves a trace that the machine of KillEscalation accepts and that agrees
 with the operating system's answers.
 */
module KillCommand {
  import opened Wrappers
  import opened KillEscalation

  /**
   A command and the operating system around it.  Every answer is chosen
   nondeterministically, the process may die and time may pass at every call.
   */
  /** What the operating system answers in one round: does it find the process, and is the signal delivered? */
  datatype OsAnswer = OsAnswer(found: bool, delivered: bool)

  /** os.FindProcess, and the SIGKILL if there is a process. */
  function Attempt(a: OsAnswer): Event {
    if a.found then KillSent(a.delivered) else ProcessNotFound
  }

  /** The event is what the operating system answered: os(0) to SIGTERM, os(n) to the n-th attempt at SIGKILL. */
  predicate Heeds(t: seq<Moment>, ev: Event, os: nat -> OsAnswer) {
    match ev
    case TermSent(delivered) => delivered == os(0).delivered
    case KillSent(_) => ev == Attempt(os(AttemptCount(t) + 1))
    case ProcessNotFound => ev == Attempt(os(AttemptCount(t) + 1))
    case _ => true
  }

  predicate HeedsAll(t: seq<Moment>, os: nat -> OsAnswer) {
    t == [] || (HeedsAll(t[..|t| - 1], os) && Heeds(t[..|t| - 1], t[|t| - 1].ev, os))
  }

  /** What a command's trace records, the process and the clock being as they are now. */
  ghost predicate Records(t: seq<Moment>, deadline: Option<nat>, os: nat -> OsAnswer, alive: bool, now: nat) {
    && Monotone(t) && HeedsAll(t, os)
    && Exec(t, deadline).Some?
    && (alive ==> AliveAfter(t))
    && (t != [] ==> t[|t| - 1].now <= now)
  }

  /** Where the machine stands after a trace. */
  ghost function StateOf(t: seq<Moment>, deadline: Option<nat>): (k: Kill)
    requires Monotone(t) && Exec(t, deadline).Some?
    ensures Inv(k, AliveAfter(t)) && Exec(t, deadline) == Some(k) && k.tries == AttemptCount(t)
  {
    RunKeepsInv(t, deadline);
    Exec(t, deadline).value
  }

  lemma RecordsMore(t: seq<Moment>, deadline: Option<nat>, os: nat -> OsAnswer, ev: Event, alive: bool, now: nat)
    requires Records(t, deadline, os, alive, now) && Heeds(t, ev, os)
    requires Step(StateOf(t, deadline), ev, alive, now, deadline).Some?
    ensures Records(t + [Moment(ev, alive, now)], deadline, os, alive, now)
    ensures StateOf(t + [Moment(ev, alive, now)], deadline) == Step(StateOf(t, deadline), ev, alive, now, deadline).value
  {
    Extend(t, Moment(ev, alive, now), deadline);
    assert (t + [Moment(ev, alive, now)])[..|t|] == t;
  }

  class Command {
    const hasProcess: bool             // cmd.Process != nil: the command was started
    var alive: bool
    var now: nat
    var deadline: Option<nat>          // of the context of the kill in progress, or of the last one
    var os: nat -> OsAnswer            // the operating system's answers to it
    ghost var trace: seq<Moment>       // of that kill

    constructor (hasProcess: bool, now: nat)
      ensures this.hasProcess == hasProcess
      ensures Valid() && trace == [] && this.now == now && alive
    {
      this.hasProcess, this.now := hasProcess, now;
      alive, deadline, trace := true, None, [];
      os := _ => OsAnswer(true, true);
    }

    ghost predicate Valid()
      reads this
    {
      Records(trace, deadline, os, alive, now)
    }

    /** Where the machine stands after this command's trace. */
    ghost function State(): (k: Kill)
      requires Valid()
      reads this
      ensures Inv(k, AliveAfter(trace)) && k.tries == AttemptCount(trace)
    {
      StateOf(trace, deadline)
    }

    /** The process may die and the clock may advance, whatever the program does. */
    method Environment()
      requires Valid()
      modifies this`alive, this`now
      ensures Valid() && now >= old(now) && (alive ==> old(alive))
    {
      if * {
        alive := false;
      }
      var delay: nat :| true;
      now := now + delay;
    }

    ghost method Record(ev: Event)
      requires Valid() && Step(State(), ev, alive, now, deadline).Some? && Heeds(trace, ev, os)
      modifies this`trace
      ensures Valid() && trace == old(trace) + [Moment(ev, alive, now)]
      ensures State() == Step(old(State()), ev, alive, now, deadline).value
    {
      RecordsMore(trace, deadline, os, ev, alive, now);
      trace := trace + [Moment(ev, alive, now)];
    }

    method IsProcessRunning() returns (running: bool)
      requires Valid() && AfterProbe(State(), true, 0).Some?
      modifies this`alive, this`now, this`trace
      ensures alive ==> old(alive)
      ensures Valid() && running == alive
      ensures State().pc == AfterProbe(old(State()), running, now).value.pc
      ensures trace == old(trace) + [Moment(Probed(running), alive, now)]
    {
      Environment();
      running := alive;
      Record(Probed(running));
    }

    /** The select of killProcessWithTimeout: Wait, the grace timer, or the context. */
    method AwaitExit(graceEnd: nat) returns (ev: Event)
      requires Valid() && State().pc == Pc.AwaitExit(graceEnd)
      modifies this`alive, this`now, this`trace
      ensures alive ==> old(alive)
      ensures Valid() && (ev == WaitReturned || ev == GraceElapsed || ev == ContextExpired)
      ensures State().pc == (if ev == WaitReturned then VerifyExit else LoopCheck(1))
      ensures trace == old(trace) + [Moment(ev, alive, now)]
    {
      Environment();
      var choice: nat :| true;
      if choice == 0 {
        ev := WaitReturned;
      } else if choice == 1 && Expired(deadline, now) {
        ev := ContextExpired;
      } else {
        now := if now < graceEnd then graceEnd else now;
        ev := GraceElapsed;
      }
      Record(ev);
    }

    /** The select between two kill rounds; true when the timer fired first. */
    method AwaitRetry(attempt: nat, pauseEnd: nat) returns (elapsed: bool)
      requires Valid() && State().pc == Pause(attempt, pauseEnd)
      modifies this`alive, this`now, this`trace
      ensures alive ==> old(alive)
      ensures Valid()
      ensures State().pc == (if elapsed then PauseCheck(attempt) else Returned(false))
      ensures trace == old(trace) + [Moment(if elapsed then PauseElapsed else ContextExpired, alive, now)]
    {
      Environment();
      elapsed := *;
      if !elapsed && !Expired(deadline, now) {
        elapsed := true;
      }
      if elapsed {
        now := if now < pauseEnd then pauseEnd else now;
        Record(PauseElapsed);
      } else {
        Record(ContextExpired);
      }
    }

    method SignalTerm() returns (delivered: bool)
      requires Valid() && State().pc == SendTerm
      modifies this`alive, this`now, this`trace
      ensures alive ==> old(alive)
      ensures Valid()
      ensures delivered == os(0).delivered
      ensures State().pc == (if delivered then Pc.AwaitExit(now + GRACEFUL_SHUTDOWN_MS) else LoopCheck(1))
      ensures trace == old(trace) + [Moment(TermSent(delivered), alive, now)]
    {
      Environment();
      delivered := os(0).delivered;
      Record(TermSent(delivered));
    }

    /** os.FindProcess and the SIGKILL itself. */
    method SendKill(attempt: nat) returns (delivered: bool)
      requires Valid() && State().pc == Pc.SendKill(attempt)
      modifies this`alive, this`now, this`trace
      ensures alive ==> old(alive)
      ensures Valid()
      ensures delivered == (os(attempt).found && os(attempt).delivered)
      ensures trace == old(trace) + [Moment(Attempt(os(attempt)), alive, now)]
      ensures State().pc == (if delivered then Pause(attempt, now + KILL_RETRY_INTERVAL_MS) else VerifyFailedSend(attempt))
    {
      Environment();
      var answer := os(attempt);
      delivered := false;
      if answer.found {
        delivered := answer.delivered;
      }
      Record(Attempt(answer));
    }

    /** attemptKillProcess: true when a SIGKILL went out or the process is gone anyway. */
    method AttemptKill(attempt: nat) returns (attempted: bool)
      requires Valid() && State().pc == Pc.SendKill(attempt)
      modifies this`alive, this`now, this`trace
      ensures alive ==> old(alive)
      ensures Valid()
      ensures |trace| > |old(trace)| && trace[|old(trace)|].ev == Attempt(os(attempt))
      ensures attempted <==> (os(attempt).found && os(attempt).delivered) || !alive
      ensures State().pc == (if attempted then Pause(attempt, now + KILL_RETRY_INTERVAL_MS) else AfterRound(attempt))
    {
      attempted := SendKill(attempt);
      if !attempted {
        var running := IsProcessRunning();
        attempted := !running;
      }
    }

    /** The wait after an attempt and the probe that ends it; None when the process is still there. */
    method AwaitDeath(attempt: nat) returns (verdict: Option<bool>)
      requires Valid() && State().pc == Pause(attempt, now + KILL_RETRY_INTERVAL_MS)
      modifies this`alive, this`now, this`trace
      ensures alive ==> old(alive)
      ensures Valid() && State().pc == if verdict.Some? then Returned(verdict.value) else AfterRound(attempt)
    {
      var elapsed := AwaitRetry(attempt, now + KILL_RETRY_INTERVAL_MS);
      if !elapsed {
        return Some(false);
      }
      var running := IsProcessRunning();
      verdict := if running then None else Some(true);
    }

    method KillWithRetries() returns (ok: bool)
      requires Valid() && State().pc == LoopCheck(1)
      modifies this`alive, this`now, this`trace
      ensures alive ==> old(alive)
      ensures Valid() && State().pc == Returned(ok)
    {
      for attempt := 1 to MAX_KILL_RETRIES + 1
        invariant Valid() && (alive ==> old(alive))
        invariant State().pc == if attempt <= MAX_KILL_RETRIES then LoopCheck(attempt) else FinalCheck
      {
        var running := IsProcessRunning();
        if !running {
          return true;
        }
        var attempted := AttemptKill(attempt);
        if !attempted {
          continue;
        }
        var verdict := AwaitDeath(attempt);
        if verdict.Some? {
          return verdict.value;
        }
      }
      var running := IsProcessRunning();
      ok := !running;
    }

    /** killProcessWithTimeout for a command that was started. */
    method Terminate() returns (ok: bool)
      requires Valid() && State().pc == SendTerm
      modifies this`alive, this`now, this`trace
      ensures alive ==> old(alive)
      ensures Valid() && State().pc == Returned(ok)
    {
      var delivered := SignalTerm();
      if delivered {
        var ev := AwaitExit(now + GRACEFUL_SHUTDOWN_MS);
        if ev == WaitReturned {
          var running := IsProcessRunning();
          if !running {
            return true;
          }
        }
      }
      ok := KillWithRetries();
    }
  }

  /** What a finished call tells its caller. */
  ghost predicate Verdict(t: seq<Moment>, deadline: Option<nat>, ok: bool) {
    && t != [] && Exec(t, deadline).Some? && Exec(t, deadline).value.pc == Returned(ok)
    && t[0].ev.TermSent?
    && (ok <==> !t[|t| - 1].alive && t[|t| - 1].ev != ContextExpired)
    && (!ok ==> if t[|t| - 1].ev == ContextExpired then 1 <= AttemptCount(t) <= 3 else AttemptCount(t) == 3)
    && SigkillCount(t) <= 3
  }

  /** SIGTERM comes first. */
  lemma FirstIsTerm(t: seq<Moment>, deadline: Option<nat>)
    requires t != [] && Exec(t, deadline).Some?
    ensures t[0].ev.TermSent?
  {
    StepInTrace(t, deadline, 0);
    assert t[..0] == [];
  }

  lemma FinishedCall(t: seq<Moment>, deadline: Option<nat>, ok: bool)
    requires Monotone(t) && Exec(t, deadline).Some? && Exec(t, deadline).value.pc == Returned(ok)
    ensures Verdict(t, deadline, ok)
  {
    VerdictExact(t, deadline, ok);
    KillSoundness(t, deadline, ok);
    FirstIsTerm(t, deadline);
  }

  /**
   killProcessWithTimeout under a context with the given deadline, the operating
   system giving the answers os.  A nil or
   unstarted command is already stopped; for any other, dead or alive, killed
   before or not, the call leaves a trace of its own that the machine accepts and
   returns its verdict.
   */
  method KillProcessWithTimeout(ctx: Option<nat>, os: nat -> OsAnswer, cmd: Command?) returns (ok: bool)
    requires cmd != null ==> cmd.Valid()
    modifies if cmd == null then {} else {cmd}
    ensures cmd == null ==> ok
    ensures cmd != null ==> cmd.Valid() && (cmd.alive ==> old(cmd.alive))
    ensures cmd != null && !cmd.hasProcess ==> ok && cmd.trace == old(cmd.trace)
    ensures cmd != null && cmd.hasProcess ==> 
      cmd.deadline == ctx && Verdict(cmd.trace, ctx, ok) && HeedsAll(cmd.trace, os) && (ok ==> !cmd.alive)
  {
    if cmd == null || !cmd.hasProcess {
      return true;
    }
    cmd.deadline, cmd.os, cmd.trace := ctx, os, [];
    ok := cmd.Terminate();
    FinishedCall(cmd.trace, ctx, ok);
  }
}
