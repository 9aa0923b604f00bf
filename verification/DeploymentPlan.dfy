/**
 The plan of a deployment, step by step: exactly which steps belong to it, exactly
 which of them a run makes, and which deployments are restarted, in terms of the
 configuration and the answers alone.
 */
module DeploymentPlan {
  import Config
  import opened Scripts
  import opened Deployment
  import opened DeploymentTheorems

  predicate Loads(d: Config.Deployment) {
    d.imageLoadCommand != ""
  }

  predicate Pushes(d: Config.Deployment) {
    d.imageLoadCommand == "" && d.imageRegistry != "" && d.rebuild
  }

  predicate InfraImageName(name: string) {
    name == "busybox" || name == "postgres:15-alpine" || name == "docker.redpanda.com/redpandadata/redpanda:latest"
  }

  /** The steps a deployment consists of. */
  predicate Wanted(s: Step, c: Config.Settings, env: Env, order: seq<Component>) {
    match s
    case MatchContext(configured, active) =>
      configured == c.deploy.clusterName && active == (if env.context.Some? then env.context.value else "")
    case NeedRegistry(registry) => Pushes(c.deploy) && registry == c.deploy.imageRegistry
    case FindRepo(_, needed) => if needed then Pushes(c.deploy) else Loads(c.deploy)
    case Build(x) => Pushes(c.deploy) || (Loads(c.deploy) && env.ok(FindRepo(x, false)))
    case Push(_) => Pushes(c.deploy)
    case Pull(name) => Loads(c.deploy) && InfraImageName(name)
    case Load(image) =>
      Loads(c.deploy) && if image.BuiltImage? then env.ok(FindRepo(image.c, false)) else InfraImageName(image.name)
    case InstallEnvoy => c.deploy.externalAccess == "ingress" && !env.envoyInstalled
    case AdoptCertManagerCRDs => c.certs.install && !env.certManagerInstalled
    case AddJetstackRepo => c.certs.install && !env.certManagerInstalled
    case InstallCertManager => c.certs.install && !env.certManagerInstalled
    case NoStaleDisk => c.db.host == "frkr-db" && c.db.password == ""
    case DrawPassword => c.db.host == "frkr-db" && c.db.password == ""
    case Restart(x) => x in order
    case PortForward => !c.deploy.skipPortForward
    case Announce => c.deploy.skipPortForward
    case _ => true
  }

  // ---------------------------------------------------------------- membership

  lemma InLoadScript(s: Step, c: Component, env: Env)
    ensures s in LoadScript(c, env) <==>
      s == FindRepo(c, false) || (env.ok(FindRepo(c, false)) && (s == Build(c) || s == Load(BuiltImage(c))))
  {
  }

  lemma InPulls(s: Step)
    ensures s in PullScript(INFRA_IMAGES) <==>
      (s.Pull? && InfraImageName(s.name)) || (s.Load? && s.image.InfraImage? && InfraImageName(s.image.name))
  {
    PullsSpelledOut();
  }

  lemma EveryComponent(s: Step)
    ensures s.FindRepo? ==> s.c == IngestGateway || s.c == StreamingGateway || s.c == Operator
    ensures s.Build? ==> s.c == IngestGateway || s.c == StreamingGateway || s.c == Operator
    ensures s.Push? ==> s.c == IngestGateway || s.c == StreamingGateway || s.c == Operator
    ensures s.Load? && s.image.BuiltImage? ==>
      s.image.c == IngestGateway || s.image.c == StreamingGateway || s.image.c == Operator
  {
  }

  lemma InLoads(s: Step, env: Env)
    ensures s in LoadAllScript(env) <==>
      match s
      case FindRepo(_, needed) => !needed
      case Build(x) => env.ok(FindRepo(x, false))
      case Load(image) => if image.BuiltImage? then env.ok(FindRepo(image.c, false)) else InfraImageName(image.name)
      case Pull(name) => InfraImageName(name)
      case _ => false
  {
    InLoadScript(s, IngestGateway, env);
    InLoadScript(s, StreamingGateway, env);
    InLoadScript(s, Operator, env);
    InPulls(s);
    EveryComponent(s);
  }

  lemma InPushOf(s: Step, c: Component)
    ensures s in PushOf(c) <==> s == FindRepo(c, true) || s == Build(c) || s == Push(c)
  {
  }

  lemma InPushes(s: Step, d: Config.Deployment)
    ensures s in PushAllScript(d) <==>
      match s
      case NeedRegistry(registry) => registry == d.imageRegistry
      case FindRepo(_, needed) => needed
      case Build(_) => true
      case Push(_) => true
      case _ => false
  {
    PushesSpelledOut();
    InPushOf(s, IngestGateway);
    InPushOf(s, StreamingGateway);
    InPushOf(s, Operator);
    EveryComponent(s);
  }

  /** The image steps by themselves. */
  predicate IsImageStep(s: Step) {
    s.NeedRegistry? || s.FindRepo? || s.Build? || s.Push? || s.Pull? || s.Load?
  }

  lemma InImages(s: Step, c: Config.Settings, env: Env, order: seq<Component>)
    ensures s in ImageScript(c.deploy, env) <==> IsImageStep(s) && Wanted(s, c, env, order)
  {
    InLoads(s, env);
    InPushes(s, c.deploy);
  }

  predicate IsConnectionStep(s: Step) {
    s.FindKubectl? || s.FindHelm? || s.ClusterInfo? || s.CurrentContext? || s.MatchContext?
  }

  lemma InConnection(s: Step, c: Config.Settings, env: Env, order: seq<Component>)
    ensures s in Connection(c.deploy, env) <==> IsConnectionStep(s) && Wanted(s, c, env, order)
  {
  }

  predicate IsServiceStep(s: Step) {
    s.ApplyCRDs? || s.AwaitCRDs? || s.InstallEnvoy? || s.AdoptCertManagerCRDs? || s.AddJetstackRepo? || s.InstallCertManager?
  }

  lemma InServices(s: Step, c: Config.Settings, env: Env, order: seq<Component>)
    ensures s in Services(c, env) <==> IsServiceStep(s) && Wanted(s, c, env, order)
  {
    assert s in CRD_SCRIPT <==> s == ApplyCRDs || s == AwaitCRDs;
    assert s in EnvoyScript(c.deploy, env) <==> s == InstallEnvoy && Wanted(s, c, env, order);
    assert s in CertScript(c.certs, env) <==>
      (s == AdoptCertManagerCRDs || s == AddJetstackRepo || s == InstallCertManager) && Wanted(s, c, env, order);
  }

  predicate IsChartStep(s: Step) {
    || s.FindChart? || s.NoStaleDisk? || s.DrawPassword? || s.WriteValues? || s.EnsureHelmRepos? || s.BuildDependencies?
    || s.UpgradeChart? || s.Restart?
  }

  lemma InBeforeUpgrade(s: Step, db: Config.Database)
    ensures s in BeforeUpgrade(db) <==>
      || s == FindChart || s == WriteValues || s == EnsureHelmRepos || s == BuildDependencies
      || ((s == NoStaleDisk || s == DrawPassword) && db.host == "frkr-db" && db.password == "")
  {
    assert s in StaleGuard(db) <==> s == NoStaleDisk && NeedsPassword(db);
    assert s in ValuesScript(db) <==> s == WriteValues || (s == DrawPassword && NeedsPassword(db));
    assert s in [EnsureHelmRepos, BuildDependencies] <==> s == EnsureHelmRepos || s == BuildDependencies;
  }

  lemma InRestarts(s: Step, order: seq<Component>)
    ensures s in RestartScript(order) <==> s.Restart? && s.c in order
  {
    if s.Restart? {
      RestartOfSome(order, s.c);
    }
  }

  lemma InChart(s: Step, c: Config.Settings, env: Env, order: seq<Component>)
    ensures s in ChartScript(c.db, order) <==> IsChartStep(s) && Wanted(s, c, env, order)
  {
    InBeforeUpgrade(s, c.db);
    InRestarts(s, order);
    assert s in [UpgradeChart] <==> s == UpgradeChart;
  }

  predicate IsEndStep(s: Step) {
    s.AwaitOperator? || s.AwaitMigrations? || s.AwaitDataPlane? || s.PortForward? || s.Announce?
  }

  lemma InEnd(s: Step, c: Config.Settings, env: Env, order: seq<Component>)
    ensures s in READINESS + FinishScript(c.deploy) <==> IsEndStep(s) && Wanted(s, c, env, order)
  {
    assert s in READINESS <==> s == AwaitOperator || s == AwaitMigrations || s == AwaitDataPlane;
    assert s in FinishScript(c.deploy) <==> s == if c.deploy.skipPortForward then Announce else PortForward;
  }

  /** The plan consists of exactly the wanted steps; with PlanInOrder, that determines it up to the order of the restarts. */
  lemma PlanIsExactly(c: Config.Settings, env: Env, order: seq<Component>, s: Step)
    ensures s in Plan(c, env, order) <==> Wanted(s, c, env, order)
  {
    InConnection(s, c, env, order);
    InImages(s, c, env, order);
    InServices(s, c, env, order);
    InChart(s, c, env, order);
    InEnd(s, c, env, order);
  }

  // ------------------------------------------------------------------- the runs

  /** Nothing that comes before the step has failed. */
  ghost predicate Reached(s: Step, c: Config.Settings, env: Env, order: seq<Component>) {
    forall u: Step :: Wanted(u, c, env, order) && Phase(u) < Phase(s) ==> Passes(u, env)
  }

  /** A step of the plan is made, or the run has stopped before it at a fatal failure. */
  lemma MadeOrStopped(plan: seq<Step>, env: Env, i: nat)
    requires Within(plan, 0, 95) && i < |plan|
    ensures
      var run := Cut(plan, env);
      if i < |run| then run[i] == plan[i]
      else |run| > 0 && !Passes(plan[|run| - 1], env) && Phase(plan[|run| - 1]) < Phase(plan[i])
  {
    var run := Cut(plan, env);
    RunIsPrefix(plan, env);
    if i >= |run| {
      assert plan[|run| - 1] == run[|run| - 1];
      assert Before(plan[|run| - 1], plan[i]);
    }
  }

  lemma MadeInOrder(plan: seq<Step>, env: Env, s: Step)
    requires Within(plan, 0, 95)
    ensures s in Cut(plan, env) <==> s in plan && forall u :: u in plan && Phase(u) < Phase(s) ==> Passes(u, env)
  {
    var run := Cut(plan, env);
    RunIsPrefix(plan, env);
    if s in run {
      var k :| 0 <= k < |run| && run[k] == s;
      assert plan[k] == s;
      forall u | u in plan && Phase(u) < Phase(s)
        ensures Passes(u, env)
      {
        EarlierInRun(plan, env, u, k);
      }
    } else if s in plan {
      var i :| 0 <= i < |plan| && plan[i] == s;
      MadeOrStopped(plan, env, i);
    }
  }

  /** A run makes a step if and only if the step is wanted and nothing fatal that comes before it has failed. */
  lemma RunIsExactly(c: Config.Settings, env: Env, order: seq<Component>, s: Step)
    ensures s in Run(c, env, order) <==> Wanted(s, c, env, order) && Reached(s, c, env, order)
  {
    PlanInOrder(c, env, order);
    MadeInOrder(Plan(c, env, order), env, s);
    forall u: Step
      ensures u in Plan(c, env, order) <==> Wanted(u, c, env, order)
    {
      PlanIsExactly(c, env, order, u);
    }
  }

  /** Exactly the failures that are ignored. */
  lemma IgnoredFailures(s: Step)
    ensures !Fatal(s) <==>
      || (s.FindRepo? && !s.needed) || s.AwaitCRDs? || s.AdoptCertManagerCRDs? || s.AddJetstackRepo?
      || s.EnsureHelmRepos? || s.BuildDependencies? || s.Restart? || s.AwaitDataPlane? || s.PortForward? || s.Announce?
  {
  }

  // --------------------------------------------------------------- the restarts

  /**
   Which deployments are restarted: when images are loaded, those whose repository
   was found and whose image id changed; when they are pushed, all; otherwise none;
   and in every case only after a successful upgrade.
   */
  lemma RestartsSpelledOut(c: Config.Settings, env: Env, order: seq<Component>, dep: Component)
    requires RestartOrder(order, Updated(c.deploy, env))
    ensures
      var run := Run(c, env, order);
      Restart(dep) in run <==>
        && UpgradeChart in run && env.ok(UpgradeChart)
        && if c.deploy.imageLoadCommand != "" then env.ok(FindRepo(dep, false)) && env.oldId(dep) != env.newId(dep)
           else c.deploy.imageRegistry != "" && c.deploy.rebuild
  {
    RestartsExactlyTheChanged(c, env, order, dep);
    assert dep in COMPONENTS by {
      match dep
      case IngestGateway => assert COMPONENTS[0] == dep;
      case StreamingGateway => assert COMPONENTS[1] == dep;
      case Operator => assert COMPONENTS[2] == dep;
    }
  }
}
