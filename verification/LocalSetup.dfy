/**
 setupLocal of cmd/frkrup/main.go as the main goroutine runs it when no signal
 arrives before the final wait: resources are acquired into fields of the
 configuration and released on every error path.  (ShutdownSystem has the same
 steps as transitions, interleaved with the signal handler.)
 */
module LocalSetup {
  import opened Wrappers
  import opened KillEscalation
  import opened KillCommand
  import opened Infrastructure
  import opened Polling

  datatype SetupError =
    | InfrastructureFailed | DatabaseFailed | BrokerFailed | MigrationsFailed | OidcFailed
    | IngestFailed | StreamingFailed | VerificationFailed

  /** The answers of one setup; pathFound and downOk are those of the CleanupDocker on the error paths. */
  datatype SetupEnv = SetupEnv(
    infra: InfraEnv, database: bool, broker: bool, migrations: bool, testOidc: bool, oidcStarts: bool,
    pathFound: bool, downOk: bool,
    ingestStarts: bool, streamingStarts: bool,
    ingestHealth: nat -> Response, streamingHealth: nat -> Response,
    ingestKill: nat -> OsAnswer, streamingKill: nat -> OsAnswer)

  const MAX_VERIFICATIONS: nat := 10

  ghost predicate InfraPasses(env: InfraEnv) {
    env.ready(0) || (Polls(env) && ReadyInTime(env))
  }

  /** The services pass all their checks. */
  ghost predicate ServicesPass(env: SetupEnv) {
    InfraPasses(env.infra) && env.database && env.broker && env.migrations && (env.testOidc ==> env.oidcStarts)
  }

  ghost predicate GatewaysPass(env: SetupEnv) {
    && env.ingestStarts && env.streamingStarts
    && exists i: nat :: i < 10 && Healthy(env.ingestHealth(i)) && Healthy(env.streamingHealth(i))
  }

  /**
   StartedDocker when setupLocal returns: set by EnsureRunning, cleared by its own
   CleanupDocker after a timed-out wait and by the one on the error path of the
   services; later failures leave it to CleanupLocal.
   */
  ghost predicate DockerLeft(env: SetupEnv, before: bool, r: Outcome<SetupError>) {
    var started := before || Composes(env.infra);
    var timedOut := Polls(env.infra) && !ReadyInTime(env.infra);
    var servicesFailed := r.Fail? && r.error in {InfrastructureFailed, DatabaseFailed, BrokerFailed, MigrationsFailed};
    && started
    && !(timedOut && env.infra.pathFound && env.infra.downOk)
    && !(servicesFailed && env.pathFound && env.downOk)
  }

  /** killProcessWithTimeout has run to its end on the command. */
  ghost predicate Killed(cmd: Command?)
    reads cmd
  {
    cmd != null && cmd.Valid() && cmd.State().pc.Returned?
  }

  /** Started, and no kill has been attempted. */
  ghost predicate Untouched(cmd: Command?)
    reads cmd
  {
    cmd != null && cmd.Valid() && cmd.hasProcess && cmd.trace == []
  }

  /** killProcess: the escalation under the background context. */
  method KillProcess(cmd: Command?, os: nat -> OsAnswer)
    requires cmd != null ==> cmd.Valid()
    modifies if cmd == null then {} else {cmd}
    ensures cmd != null && cmd.hasProcess ==> Killed(cmd) && HeedsAll(cmd.trace, os)
  {
    var _ := KillProcessWithTimeout(None, os, cmd);
  }

  class LocalSession {
    const infra: InfrastructureManager      // holds StartedDocker
    var IngestCmd: Command?
    var StreamingCmd: Command?

    constructor (infra: InfrastructureManager)
      ensures this.infra == infra && IngestCmd == null && StreamingCmd == null
    {
      this.infra, IngestCmd, StreamingCmd := infra, null, null;
    }

    /** if config.StartedDocker { CleanupDocker() } */
    method StopDockerIfStarted(pathFound: bool, downOk: bool)
      modifies infra
      ensures infra.StartedDocker == (old(infra.StartedDocker) && !(pathFound && downOk))
    {
      if infra.StartedDocker {
        var _ := infra.CleanupDocker(pathFound, downOk);
      }
    }

    method StartGateway(starts: bool) returns (cmd: Command?)
      ensures cmd != null <==> starts
      ensures cmd != null ==> fresh(cmd) && Untouched(cmd)
    {
      cmd := null;
      if starts {
        cmd := new Command(true, 0);
      }
    }

    /** Everything before the gateways. */
    method SetupServices(env: SetupEnv) returns (r: Outcome<SetupError>)
      modifies infra
      ensures r == Pass <==> ServicesPass(env)
      ensures infra.StartedDocker == DockerLeft(env, old(infra.StartedDocker), r)
      ensures r.Fail? && r.error != OidcFailed && env.pathFound && env.downOk ==> !infra.StartedDocker
      ensures (r == Pass || r == Fail(OidcFailed)) && env.infra.ready(0) ==> infra.StartedDocker == old(infra.StartedDocker)
      ensures (r == Pass || r == Fail(OidcFailed)) && !env.infra.ready(0) && !env.infra.containersHealthy ==> infra.StartedDocker
      ensures r == Fail(InfrastructureFailed) <==> !InfraPasses(env.infra)
      ensures r == Fail(DatabaseFailed) <==> InfraPasses(env.infra) && !env.database
      ensures r == Fail(BrokerFailed) <==> InfraPasses(env.infra) && env.database && !env.broker
      ensures r == Fail(MigrationsFailed) <==> InfraPasses(env.infra) && env.database && env.broker && !env.migrations
      ensures r == Fail(OidcFailed) <==>
        InfraPasses(env.infra) && env.database && env.broker && env.migrations && env.testOidc && !env.oidcStarts
      ensures r == Pass || r.error !in {IngestFailed, StreamingFailed, VerificationFailed}
    {
      var up, _ := infra.EnsureRunning(env.infra);
      if up.Fail? {
        StopDockerIfStarted(env.pathFound, env.downOk);
        return Fail(InfrastructureFailed);
      }
      if !env.database {
        StopDockerIfStarted(env.pathFound, env.downOk);
        return Fail(DatabaseFailed);
      }
      if !env.broker {
        StopDockerIfStarted(env.pathFound, env.downOk);
        return Fail(BrokerFailed);
      }
      if !env.migrations {
        StopDockerIfStarted(env.pathFound, env.downOk);
        return Fail(MigrationsFailed);
      }
      if env.testOidc && !env.oidcStarts {
        return Fail(OidcFailed);
      }
      r := Pass;
    }

    /** The deferred function of setupLocal. */
    method RunDeferred(env: SetupEnv)
      requires StreamingCmd != null ==> StreamingCmd.Valid()
      modifies this`StreamingCmd, StreamingCmd
      ensures StreamingCmd == null
      ensures old(StreamingCmd) != null && old(StreamingCmd).hasProcess ==> Killed(old(StreamingCmd))
    {
      if StreamingCmd != null {
        KillProcess(StreamingCmd, env.streamingKill);
        StreamingCmd := null;
      }
    }

    /**
     The gateways, up to the return of setupLocal: whatever fails, every gateway
     that was started has been killed and both fields are nil; after a normal run
     only the ingest command is left, for CleanupLocal.
     */
    method SetupGateways(env: SetupEnv)
      returns (r: Outcome<SetupError>, ghost ingest: Command?, ghost streaming: Command?)
      requires IngestCmd == null && StreamingCmd == null
      modifies this
      ensures r == Pass <==> GatewaysPass(env)
      ensures r == Fail(IngestFailed) <==> !env.ingestStarts
      ensures r == Fail(StreamingFailed) <==> env.ingestStarts && !env.streamingStarts
      ensures r == Pass || r.error in {IngestFailed, StreamingFailed, VerificationFailed}
      ensures ingest != null <==> env.ingestStarts
      ensures streaming != null <==> env.ingestStarts && env.streamingStarts
      ensures (ingest != null ==> fresh(ingest)) && (streaming != null ==> fresh(streaming) && streaming != ingest)
      ensures StreamingCmd == null && (streaming != null ==> Killed(streaming))
      ensures r == Pass ==> IngestCmd == ingest && Untouched(ingest)
      ensures r != Pass ==> IngestCmd == null && (ingest != null ==> Killed(ingest))
    {
      ingest, streaming := null, null;
      var ingestCmd := StartGateway(env.ingestStarts);
      ingest := ingestCmd;
      if ingestCmd == null {
        return Fail(IngestFailed), ingest, streaming;
      }
      IngestCmd := ingestCmd;
      var streamingCmd := StartGateway(env.streamingStarts);
      streaming := streamingCmd;
      if streamingCmd == null {
        KillProcess(IngestCmd, env.ingestKill);
        IngestCmd := null;
        return Fail(StreamingFailed), ingest, streaming;
      }
      StreamingCmd := streamingCmd;
      var healthy, _, _ := VerifyGatewaysWithRetries(MAX_VERIFICATIONS, env.ingestHealth, env.streamingHealth);
      if !healthy {
        KillProcess(IngestCmd, env.ingestKill);
        KillProcess(StreamingCmd, env.streamingKill);
        IngestCmd := null;
        StreamingCmd := null;
        RunDeferred(env);
        return Fail(VerificationFailed), ingest, streaming;
      }
      // the context is cancelled
      RunDeferred(env);
      r := Pass;
    }

    /** setupLocal: when it fails no gateway it started is left unkilled and no command is left in the configuration. */
    method SetupLocal(env: SetupEnv)
      returns (r: Outcome<SetupError>, ghost ingest: Command?, ghost streaming: Command?)
      requires IngestCmd == null && StreamingCmd == null
      modifies this, infra
      ensures r == Pass <==> ServicesPass(env) && GatewaysPass(env)
      ensures ingest != null <==> ServicesPass(env) && env.ingestStarts
      ensures streaming != null <==> ServicesPass(env) && env.ingestStarts && env.streamingStarts
      ensures StreamingCmd == null && (streaming != null ==> Killed(streaming))
      ensures r == Pass ==> IngestCmd == ingest && Untouched(ingest)
      ensures r != Pass ==> IngestCmd == null && (ingest != null ==> Killed(ingest))
      ensures infra.StartedDocker == DockerLeft(env, old(infra.StartedDocker), r)
    {
      ingest, streaming := null, null;
      r := SetupServices(env);
      if r != Pass {
        return;
      }
      r, ingest, streaming := SetupGateways(env);
    }
  }
}
