/**
 Bringing the local services up and down: EnsureRunning and the database check
 of cmd/frkrup/infrastructure.go, and CleanupDocker of cmd/frkrup/cleanup.go as
 one goroutine runs it.
 */
module Infrastructure {
  import opened Wrappers
  import opened GoStrings
  import opened DatabaseUrls
  import CP = CleanupProtocol

  const MAX_WAIT: nat := 60

  /** The answers EnsureRunning gets; ready(0) is the first check, ready(i) the i-th poll. */
  datatype InfraEnv = InfraEnv(
    ready: nat -> bool,
    dockerFound: bool, composeFile: bool, userAgrees: bool,
    containersHealthy: bool, upOk: bool,
    pathFound: bool, downOk: bool)

  datatype InfraError = NotAvailable | NoComposeFile | Refused | ComposeFailed | NotReady

  /** The polls are reached: the services were down and Compose runs, already or now. */
  predicate Polls(env: InfraEnv) {
    !env.ready(0) && env.dockerFound && env.composeFile && env.userAgrees && (env.containersHealthy || env.upOk)
  }

  predicate Composes(env: InfraEnv) {
    Polls(env) && !env.containersHealthy
  }

  ghost predicate ReadyInTime(env: InfraEnv) {
    exists i: nat :: 1 <= i <= MAX_WAIT && env.ready(i)
  }

  class InfrastructureManager {
    var StartedDocker: bool

    constructor (startedDocker: bool)
      ensures StartedDocker == startedDocker
    {
      StartedDocker := startedDocker;
    }

    /** CleanupDocker: true exactly if there is nothing left to stop. */
    method CleanupDocker(pathFound: bool, downOk: bool) returns (ok: bool)
      modifies this
      ensures StartedDocker == (old(StartedDocker) && !(pathFound && downOk))
      ensures ok <==> !StartedDocker
    {
      if !StartedDocker {
        return true;
      }
      if !pathFound {
        return false;
      }
      if !downOk {
        return false;
      }
      StartedDocker := false;
      ok := true;
    }

    /**
     EnsureRunning: it passes exactly if the services are ready at once or become
     so within sixty polls of a running Compose; StartedDocker is set exactly if
     this call brought Compose up (or it was set before), and a timed-out wait
     clears it again exactly if "docker compose down" succeeded.
     */
    method EnsureRunning(env: InfraEnv) returns (r: Outcome<InfraError>, polls: nat)
      modifies this
      ensures r == Pass <==> env.ready(0) || (Polls(env) && ReadyInTime(env))
      ensures r == Fail(NotReady) <==> Polls(env) && !ReadyInTime(env)
      ensures r == Fail(NotAvailable) <==> !env.ready(0) && !env.dockerFound
      ensures r == Fail(NoComposeFile) <==> !env.ready(0) && env.dockerFound && !env.composeFile
      ensures r == Fail(Refused) <==> !env.ready(0) && env.dockerFound && env.composeFile && !env.userAgrees
      ensures r == Fail(ComposeFailed) <==>
        !env.ready(0) && env.dockerFound && env.composeFile && env.userAgrees && !env.containersHealthy && !env.upOk
      ensures
        var started := old(StartedDocker) || Composes(env);
        StartedDocker == (started && !(r == Fail(NotReady) && env.pathFound && env.downOk))
      ensures StartedDocker && !old(StartedDocker) ==> !env.ready(0) && !env.containersHealthy && env.upOk
      ensures r == Pass && !env.ready(0) && !env.containersHealthy ==> StartedDocker
      ensures polls <= 60 && (r == Fail(NotReady) ==> polls == 60)
      ensures r == Pass && polls > 0 ==> env.ready(polls) && forall i: nat :: 1 <= i < polls ==> !env.ready(i)
    {
      polls := 0;
      if env.ready(0) {
        return Pass, 0;
      }
      if !env.dockerFound {
        return Fail(NotAvailable), 0;
      }
      if !env.composeFile {
        return Fail(NoComposeFile), 0;
      }
      if !env.userAgrees {
        return Fail(Refused), 0;
      }
      if !env.containersHealthy {
        if !env.upOk {
          return Fail(ComposeFailed), 0;
        }
        StartedDocker := true;
      }
      while polls < MAX_WAIT
        invariant polls <= MAX_WAIT
        invariant forall i: nat :: 1 <= i <= polls ==> !env.ready(i)
        invariant StartedDocker == (old(StartedDocker) || Composes(env))
      {
        polls := polls + 1;
        if env.ready(polls) {
          return Pass, polls;
        }
      }
      var _ := CleanupDocker(env.pathFound, env.downOk);
      r := Fail(NotReady);
    }
  }

  // ------------------------------------------------------- Compose's own health report

  /** A line reports on the container and says, in one of three ways, that it is up. */
  ghost predicate ReportsUp(line: string, container: string) {
    && Contains(line, container)
    && (Contains(line, "\"Health\":\"healthy\"") || Contains(line, "\"State\":\"running\"") || Contains(line, "\"Status\":\"Up"))
  }

  function LineIsUp(line: string, container: string): (up: bool)
    ensures up <==> ReportsUp(line, container)
  {
    && Index(line, container).Some?
    && (|| Index(line, "\"Health\":\"healthy\"").Some?
        || Index(line, "\"State\":\"running\"").Some?
        || Index(line, "\"Status\":\"Up").Some?)
  }

  ghost predicate SomeLineUp(lines: seq<string>, container: string) {
    exists i :: 0 <= i < |lines| && ReportsUp(lines[i], container)
  }

  lemma SomeLineUpSnoc(lines: seq<string>, k: nat, container: string)
    requires k < |lines|
    ensures SomeLineUp(lines[..k + 1], container) <==> SomeLineUp(lines[..k], container) || ReportsUp(lines[k], container)
  {
    assert lines[..k + 1] == lines[..k] + [lines[k]];
    if SomeLineUp(lines[..k], container) {
      var i :| 0 <= i < k && ReportsUp(lines[..k][i], container);
      assert lines[..k + 1][i] == lines[i];
    }
    if ReportsUp(lines[k], container) {
      assert lines[..k + 1][k] == lines[k];
    }
  }

  /** checkDockerComposeHealth on the (trimmed) output of "docker compose ps": healthy exactly if each container has a line that reports it up. */
  method CheckDockerComposeHealth(output: Option<string>) returns (healthy: Option<bool>)
    ensures healthy.None? <==> output.None?
    ensures output.Some? ==>
      var lines := Split(output.value, '\n');
      healthy.value <==> SomeLineUp(lines, "frkr-cockroachdb") && SomeLineUp(lines, "frkr-redpanda")
  {
    if output.None? {
      return None;
    }
    var lines := Split(output.value, '\n');
    var hasCockroach, hasRedpanda := false, false;
    var i := 0;
    while i < |lines|
      invariant 0 <= i <= |lines|
      invariant hasCockroach <==> SomeLineUp(lines[..i], "frkr-cockroachdb")
      invariant hasRedpanda <==> SomeLineUp(lines[..i], "frkr-redpanda")
    {
      var line := lines[i];
      SomeLineUpSnoc(lines, i, "frkr-cockroachdb");
      SomeLineUpSnoc(lines, i, "frkr-redpanda");
      if line == "" {
        i := i + 1;
        continue;
      }
      if LineIsUp(line, "frkr-cockroachdb") {
        hasCockroach := true;
      }
      if LineIsUp(line, "frkr-redpanda") {
        hasRedpanda := true;
      }
      i := i + 1;
    }
    assert lines[..i] == lines;
    healthy := Some(hasCockroach && hasRedpanda);
  }

  // ------------------------------------- CleanupDocker, sequentially and step by step

  /** A CleanupDocker run to its end: the answers are asked for in this order. */
  function RunDocker(d: CP.DockerPc, w: CP.World, pathFound: bool, downOk: bool): (CP.DockerPc, CP.World)
    decreases match d
              case ReadFlag => 4
              case FindPath => 3
              case RunDown => 2
              case ForceKill => 1
              case ClearFlag => 1
              case DockerDone(_) => 0
  {
    if d.DockerDone? then (d, w)
    else
      var (d', w') := CP.DockerStep(d, w, if d.FindPath? then pathFound else downOk).value;
      RunDocker(d', w', pathFound, downOk)
  }

  /** Uninterrupted, the goroutine's steps amount to the method CleanupDocker. */
  lemma DockerStepsAreCleanupDocker(w: CP.World, pathFound: bool, downOk: bool)
    ensures
      var (d, w') := RunDocker(CP.ReadFlag, w, pathFound, downOk);
      && w'.startedDocker == (w.startedDocker && !(pathFound && downOk))
      && d == CP.DockerDone(!w'.startedDocker)
      && w'.slots == w.slots && w'.now == w.now
  {
    if w.startedDocker {
      var (d1, w1) := CP.DockerStep(CP.ReadFlag, w, downOk).value;
      var (d2, w2) := CP.DockerStep(d1, w1, pathFound).value;
      if pathFound {
        var (d3, w3) := CP.DockerStep(d2, w2, downOk).value;
        assert RunDocker(d3, w3, pathFound, downOk) == CP.DockerStep(d3, w3, downOk).value;
      }
    }
  }

  // -------------------------------------------------------------- the database check

  datatype Ping = Up | ServiceDown | Rejected
  datatype Create = Created | AlreadyExists | CreateFailed

  datatype CheckError = BadURL | ServiceNotReady | PingFailed | BadServerURL | ServerNotReady | CreateDatabase | StillUnreachable

  const MAX_DB_RETRIES: nat := 10
  const DB_CONTEXT_MS: nat := 5000
  const DB_INIT_MS: nat := 2000
  const DB_RETRY_MS: nat := 1000

  /**
   The answers DatabaseChecker.Check gets.  Five seconds after the start the one
   context of all its pings expires; spent is the time used by then to create the
   database, again(i) the answer to the i-th ping after that if it is made in
   time, took(i) how long that ping takes.
   */
  datatype DbEnv = DbEnv(
    opens: bool, first: Ping, serverOpens: bool, serverUp: bool, create: Create,
    spent: nat, again: nat -> bool, took: nat -> nat)

  /** When the i-th ping after the creation begins. */
  function PingAt(env: DbEnv, i: nat): nat {
    if i == 0 then env.spent + DB_INIT_MS else PingAt(env, i - 1) + env.took(i - 1) + DB_RETRY_MS
  }

  predicate Answers(env: DbEnv, i: nat) {
    PingAt(env, i) < DB_CONTEXT_MS && env.again(i)
  }

  /** The check goes on to create the database. */
  ghost predicate Creates(dbURL: string, env: DbEnv) {
    env.opens && env.first.Rejected? && Contains(dbURL, "/frkrdb") && |Split(dbURL, '/')| >= 3
  }

  /** ... and succeeds. */
  ghost predicate CreatesWell(dbURL: string, env: DbEnv) {
    Creates(dbURL, env) && env.serverOpens && env.serverUp && !env.create.CreateFailed?
  }

  ghost predicate AnswersInTime(env: DbEnv) {
    exists i: nat :: i < MAX_DB_RETRIES && Answers(env, i)
  }

  lemma {:induction false} PingsAreLate(env: DbEnv, i: nat)
    ensures PingAt(env, i) >= DB_INIT_MS + i * DB_RETRY_MS
  {
    if i > 0 {
      PingsAreLate(env, i - 1);
    }
  }

  /** Of the ten pings only the first three can ever be answered. */
  lemma OnlyThreePingsCount(env: DbEnv, i: nat)
    requires Answers(env, i)
    ensures i < 3
  {
    PingsAreLate(env, i);
  }

  /**
   DatabaseChecker.Check: each outcome exactly in its case.  `pinged` tells whether
   the target database ever answered; retries is the number of pings after creation.
   */
  method CheckDatabase(dbURL: string, env: DbEnv) returns (r: Outcome<CheckError>, pinged: bool, retries: nat)
    ensures r == Pass && pinged <==> env.opens && (env.first.Up? || (CreatesWell(dbURL, env) && AnswersInTime(env)))
    ensures r == Pass && !pinged <==>
      env.opens && env.first.Rejected? && Contains(dbURL, "/frkrdb") && |Split(dbURL, '/')| < 3
    ensures r == Fail(BadURL) <==> !env.opens
    ensures r == Fail(ServiceNotReady) <==> env.opens && env.first.ServiceDown?
    ensures r == Fail(PingFailed) <==> env.opens && env.first.Rejected? && !Contains(dbURL, "/frkrdb")
    ensures r == Fail(BadServerURL) <==> Creates(dbURL, env) && !env.serverOpens
    ensures r == Fail(ServerNotReady) <==> Creates(dbURL, env) && env.serverOpens && !env.serverUp
    ensures r == Fail(CreateDatabase) <==> Creates(dbURL, env) && env.serverOpens && env.serverUp && env.create.CreateFailed?
    ensures r == Fail(StillUnreachable) <==> CreatesWell(dbURL, env) && !AnswersInTime(env)
    ensures r == Fail(StillUnreachable) ==> retries == 10
    ensures r == Pass && retries > 0 ==>
      retries <= 3 && Answers(env, retries - 1) && forall i: nat :: i < retries - 1 ==> !Answers(env, i)
  {
    pinged, retries := false, 0;
    if !env.opens {
      return Fail(BadURL), false, 0;
    }
    if env.first.Up? {
      return Pass, true, 0;
    }
    if env.first.ServiceDown? {
      return Fail(ServiceNotReady), false, 0;
    }
    var found := Index(dbURL, "/frkrdb");
    if found.None? {
      return Fail(PingFailed), false, 0;
    }
    var base := Split(dbURL, '/');
    if |base| >= 3 {
      if !env.serverOpens {
        return Fail(BadServerURL), false, 0;
      }
      if !env.serverUp {
        return Fail(ServerNotReady), false, 0;
      }
      if env.create.CreateFailed? {
        return Fail(CreateDatabase), false, 0;
      }
      var now := env.spent + DB_INIT_MS;
      while retries < MAX_DB_RETRIES
        invariant retries <= MAX_DB_RETRIES && !pinged
        invariant now == PingAt(env, retries)
        invariant forall i: nat :: i < retries ==> !Answers(env, i)
      {
        if now < DB_CONTEXT_MS && env.again(retries) {
          assert Answers(env, retries);
          OnlyThreePingsCount(env, retries);
          return Pass, true, retries + 1;
        }
        now := now + env.took(retries) + DB_RETRY_MS;
        retries := retries + 1;
      }
      return Fail(StillUnreachable), false, retries;
    }
    r := Pass;
  }

  /** Two separators in front make three pieces at least. */
  lemma AtLeastThree(a: string, b: string, rest: string, sep: char)
    requires sep !in a && sep !in b
    ensures |Split(a + [sep] + (b + [sep] + rest), sep)| >= 3
  {
    SplitCons(b, rest, sep);
    SplitCons(a, b + [sep] + rest, sep);
  }

  /** A built URL is long enough for the check to look beyond the failed ping: it never passes without an answer. */
  lemma BuiltUrlsAreLongEnough(user: string, password: string, host: string, port: string, name: string)
    ensures |Split(BuildDBURL(user, password, host, port, name), '/')| >= 3
  {
    var a := Authority(user, password, host, port);
    UrlPieces(a, name);
    AtLeastThree(SCHEME, [], a + ['/'] + (name + ['?'] + QUERY), '/');
  }

  /** Some other URL is not. */
  lemma ShortUrlPassesUnanswered()
    ensures Contains("x/frkrdb", "/frkrdb") && |Split("x/frkrdb", '/')| == 2
  {
    assert OccursAt("x/frkrdb", "/frkrdb", 1);
    SplitNone("frkrdb", '/');
    SplitCons("x", "frkrdb", '/');
    assert "x/frkrdb" == "x" + ['/'] + "frkrdb";
  }
}
