/**
 What every deployment run keeps: the order of its steps, what an upgraded chart
 can rely on, which deployments are restarted, when a password is drawn.
 */
module DeploymentTheorems {
  import Config
  import opened Scripts
  import opened Deployment

  function Place(c: Component): nat {
    match c
    case IngestGateway => 0
    case StreamingGateway => 10
    case Operator => 20
  }

  function ImagePlace(name: string): nat {
    if name == "busybox" then 0 else if name == "postgres:15-alpine" then 2 else 4
  }

  /** Where each step belongs in a deployment; only the restarts share a place. */
  function Phase(s: Step): nat {
    match s
    case FindKubectl => 0
    case FindHelm => 1
    case ClusterInfo => 2
    case CurrentContext => 3
    case MatchContext(_, _) => 4
    case NeedRegistry(_) => 10
    case FindRepo(c, _) => 11 + Place(c)
    case Build(c) => 12 + Place(c)
    case Push(c) => 13 + Place(c)
    case Pull(name) => 40 + ImagePlace(name)
    case Load(image) => if image.BuiltImage? then 13 + Place(image.c) else 41 + ImagePlace(image.name)
    case ApplyCRDs => 50
    case AwaitCRDs => 51
    case InstallEnvoy => 60
    case AdoptCertManagerCRDs => 70
    case AddJetstackRepo => 71
    case InstallCertManager => 72
    case FindChart => 80
    case NoStaleDisk => 81
    case DrawPassword => 82
    case WriteValues => 83
    case EnsureHelmRepos => 84
    case BuildDependencies => 85
    case UpgradeChart => 90
    case Restart(_) => 91
    case AwaitOperator => 92
    case AwaitMigrations => 93
    case AwaitDataPlane => 94
    case PortForward => 95
    case Announce => 95
  }

  /** The first step belongs before the second; restarts are in any order. */
  predicate Before(a: Step, b: Step) {
    Phase(a) < Phase(b) || (a.Restart? && b.Restart?)
  }

  /** All places within the bounds, in strict order. */
  predicate Within(script: seq<Step>, lo: nat, hi: nat) {
    && (forall i :: 0 <= i < |script| ==> lo <= Phase(script[i]) <= hi)
    && (forall i, j :: 0 <= i < j < |script| ==> Before(script[i], script[j]))
  }

  lemma WithinConcat(a: seq<Step>, b: seq<Step>, lo: nat, m: nat, n: nat, hi: nat)
    requires Within(a, lo, m) && Within(b, n, hi) && lo <= m < n <= hi
    ensures Within(a + b, lo, hi)
  {
    var s := a + b;
    forall i, j | 0 <= i < j < |s|
      ensures Before(s[i], s[j])
    {
      if i < |a| <= j {
        assert s[i] == a[i] && s[j] == b[j - |a|];
      }
    }
  }

  lemma LoadPhases(c: Component, env: Env)
    ensures Within(LoadScript(c, env), 11 + Place(c), 13 + Place(c))
  {
  }

  lemma PullTwo(name: string)
    ensures Within([Pull(name), Load(InfraImage(name))], 40 + ImagePlace(name), 41 + ImagePlace(name))
  {
  }

  /** The pulls, written out. */
  lemma PullsSpelledOut()
    ensures PullScript(INFRA_IMAGES) ==
      [Pull("busybox"), Load(InfraImage("busybox"))]
      + ([Pull("postgres:15-alpine"), Load(InfraImage("postgres:15-alpine"))]
      + [Pull(INFRA_IMAGES[2]), Load(InfraImage(INFRA_IMAGES[2]))])
    ensures ImagePlace("busybox") == 0 && ImagePlace("postgres:15-alpine") == 2 && ImagePlace(INFRA_IMAGES[2]) == 4
  {
    var one := INFRA_IMAGES[1..];
    assert one[1..] == [INFRA_IMAGES[2]];
    assert [INFRA_IMAGES[2]][1..] == [];
    assert |INFRA_IMAGES[2]| > |INFRA_IMAGES[1]| > |INFRA_IMAGES[0]|;
  }

  lemma PullPhases()
    ensures Within(PullScript(INFRA_IMAGES), 40, 45)
  {
    var a, b, c := INFRA_IMAGES[0], INFRA_IMAGES[1], INFRA_IMAGES[2];
    PullsSpelledOut();
    PullTwo(a);
    PullTwo(b);
    PullTwo(c);
    WithinConcat([Pull(b), Load(InfraImage(b))], [Pull(c), Load(InfraImage(c))], 42, 43, 44, 45);
    WithinConcat([Pull(a), Load(InfraImage(a))],
                 [Pull(b), Load(InfraImage(b))] + [Pull(c), Load(InfraImage(c))], 40, 41, 42, 45);
  }

  lemma LoadAllPhases(env: Env)
    ensures Within(LoadAllScript(env), 11, 45)
  {
    PullPhases();
    LoadPhases(IngestGateway, env);
    LoadPhases(StreamingGateway, env);
    LoadPhases(Operator, env);
    var pulls := PullScript(INFRA_IMAGES);
    WithinConcat(LoadScript(Operator, env), pulls, 31, 33, 40, 45);
    WithinConcat(LoadScript(StreamingGateway, env), LoadScript(Operator, env) + pulls, 21, 23, 31, 45);
    WithinConcat(LoadScript(IngestGateway, env), LoadScript(StreamingGateway, env) + (LoadScript(Operator, env) + pulls), 11, 13, 21, 45);
  }

  function PushOf(c: Component): seq<Step> {
    [FindRepo(c, true), Build(c), Push(c)]
  }

  /** The pushes, written out. */
  lemma PushesSpelledOut()
    ensures PushScript(COMPONENTS) == PushOf(IngestGateway) + (PushOf(StreamingGateway) + PushOf(Operator))
  {
    var one := COMPONENTS[1..];
    assert one[1..] == [Operator];
    assert [Operator][1..] == [];
  }

  lemma PushOnePhases(c: Component)
    ensures Within(PushOf(c), 11 + Place(c), 13 + Place(c))
  {
  }

  lemma PushPhases()
    ensures Within(PushScript(COMPONENTS), 11, 33)
  {
    PushesSpelledOut();
    PushOnePhases(IngestGateway);
    PushOnePhases(StreamingGateway);
    PushOnePhases(Operator);
    WithinConcat(PushOf(StreamingGateway), PushOf(Operator), 21, 23, 31, 33);
    WithinConcat(PushOf(IngestGateway), PushOf(StreamingGateway) + PushOf(Operator), 11, 13, 21, 33);
  }

  lemma PushAllPhases(d: Config.Deployment)
    ensures Within(PushAllScript(d), 10, 33)
  {
    PushPhases();
    WithinConcat([NeedRegistry(d.imageRegistry)], PushScript(COMPONENTS), 10, 10, 11, 33);
  }

  lemma Widen(script: seq<Step>, lo: nat, hi: nat, lo': nat, hi': nat)
    requires Within(script, lo, hi) && lo' <= lo && hi <= hi'
    ensures Within(script, lo', hi')
  {
  }

  lemma ImagePhases(d: Config.Deployment, env: Env)
    ensures Within(ImageScript(d, env), 10, 45)
  {
    LoadAllPhases(env);
    PushAllPhases(d);
    Widen(LoadAllScript(env), 11, 45, 10, 45);
    Widen(PushAllScript(d), 10, 33, 10, 45);
  }

  lemma EnvoyPhases(d: Config.Deployment, env: Env)
    ensures Within(EnvoyScript(d, env), 60, 60)
  {
  }

  lemma CertPhases(certs: Config.Certificates, env: Env)
    ensures Within(CertScript(certs, env), 70, 72)
  {
  }

  lemma CrdPhases()
    ensures Within(CRD_SCRIPT, 50, 51)
  {
  }

  lemma ServicePhases(c: Config.Settings, env: Env)
    ensures Within(Services(c, env), 50, 72)
  {
    CrdPhases();
    EnvoyPhases(c.deploy, env);
    CertPhases(c.certs, env);
    WithinConcat(EnvoyScript(c.deploy, env), CertScript(c.certs, env), 60, 60, 70, 72);
    WithinConcat(CRD_SCRIPT, EnvoyScript(c.deploy, env) + CertScript(c.certs, env), 50, 51, 60, 72);
  }

  lemma PreparationPhases(c: Config.Settings, env: Env)
    ensures Within(Preparation(c, env), 0, 72)
  {
    ImagePhases(c.deploy, env);
    ServicePhases(c, env);
    WithinConcat(PREREQUISITES, ClusterScript(c.deploy, env), 0, 2, 3, 4);
    WithinConcat(ImageScript(c.deploy, env), Services(c, env), 10, 45, 50, 72);
    WithinConcat(Connection(c.deploy, env), ImageScript(c.deploy, env) + Services(c, env), 0, 4, 10, 72);
  }

  lemma PasswordPhases(db: Config.Database)
    ensures Within(ValuesScript(db), 82, 83)
  {
  }

  lemma ValuesPhases(db: Config.Database)
    ensures Within(ValuesScript(db) + [EnsureHelmRepos, BuildDependencies], 82, 85)
  {
    PasswordPhases(db);
    WithinConcat(ValuesScript(db), [EnsureHelmRepos, BuildDependencies], 82, 83, 84, 85);
  }

  lemma BeforeUpgradePhases(db: Config.Database)
    ensures Within(BeforeUpgrade(db), 80, 85)
  {
    ValuesPhases(db);
    WithinConcat([FindChart], StaleGuard(db), 80, 80, 81, 81);
    WithinConcat([FindChart] + StaleGuard(db), ValuesScript(db) + [EnsureHelmRepos, BuildDependencies], 80, 81, 82, 85);
  }

  lemma ChartPhases(db: Config.Database, order: seq<Component>)
    ensures Within(ChartScript(db, order), 80, 91)
  {
    BeforeUpgradePhases(db);
    WithinConcat([UpgradeChart], RestartScript(order), 90, 90, 91, 91);
    WithinConcat(BeforeUpgrade(db), [UpgradeChart] + RestartScript(order), 80, 85, 90, 91);
  }

  lemma ReadinessPhases()
    ensures Within(READINESS, 92, 94)
  {
  }

  lemma FinishPhases(d: Config.Deployment)
    ensures Within(FinishScript(d), 95, 95)
  {
  }

  lemma EndPhases(d: Config.Deployment)
    ensures Within(READINESS + FinishScript(d), 92, 95)
  {
    ReadinessPhases();
    FinishPhases(d);
    WithinConcat(READINESS, FinishScript(d), 92, 94, 95, 95);
  }

  /** The plan goes through its steps in a fixed order, one at each place. */
  lemma PlanInOrder(c: Config.Settings, env: Env, order: seq<Component>)
    ensures Within(Plan(c, env, order), 0, 95)
  {
    PreparationPhases(c, env);
    ChartPhases(c.db, order);
    EndPhases(c.deploy);
    WithinConcat(ChartScript(c.db, order), READINESS + FinishScript(c.deploy), 80, 91, 92, 95);
    WithinConcat(Preparation(c, env), ChartScript(c.db, order) + (READINESS + FinishScript(c.deploy)), 0, 72, 80, 95);
  }

  /** The steps made by a deployment. */
  function Run(c: Config.Settings, env: Env, order: seq<Component>): seq<Step> {
    Cut(Plan(c, env, order), env)
  }

  /** Every run, failing or not, keeps the order of the steps and makes no step after a fatal failure. */
  lemma RunInOrder(c: Config.Settings, env: Env, order: seq<Component>)
    ensures
      var run := Run(c, env, order);
      && (forall i, j :: 0 <= i < j < |run| ==> Before(run[i], run[j]))
      && (forall i :: 0 <= i < |run| - 1 ==> Passes(run[i], env))
  {
    PlanInOrder(c, env, order);
    RunIsPrefix(Plan(c, env, order), env);
  }

  /** The step was made before the one at k. */
  ghost predicate MadeBefore(s: Step, run: seq<Step>, k: nat) {
    exists i :: 0 <= i < k && i < |run| && run[i] == s
  }

  lemma EarlierInRun(plan: seq<Step>, env: Env, early: Step, k: nat)
    requires Within(plan, 0, 95) && early in plan && k < |Cut(plan, env)| && Phase(early) < Phase(Cut(plan, env)[k])
    ensures MadeBefore(early, Cut(plan, env), k) && Passes(early, env)
  {
    var run := Cut(plan, env);
    RunIsPrefix(plan, env);
    var i :| 0 <= i < |plan| && plan[i] == early;
    assert plan[k] == run[k];
    assert i < k && run[i] == early;
  }

  /** A step of an earlier phase has been made, and passed, before one of a later phase. */
  lemma EarlierPhaseDone(c: Config.Settings, env: Env, order: seq<Component>, early: Step, k: nat)
    requires early in Plan(c, env, order) && k < |Run(c, env, order)|
    requires Phase(early) < Phase(Run(c, env, order)[k])
    ensures MadeBefore(early, Run(c, env, order), k) && Passes(early, env)
  {
    PlanInOrder(c, env, order);
    EarlierInRun(Plan(c, env, order), env, early, k);
  }

  lemma ServicesInPlan(c: Config.Settings, env: Env, order: seq<Component>, s: Step)
    requires s in CRD_SCRIPT || s in EnvoyScript(c.deploy, env) || s in CertScript(c.certs, env)
    ensures s in Plan(c, env, order)
  {
    assert s in Services(c, env);
  }

  /** The CRDs are installed before anything that follows them: Envoy, cert-manager, the chart. */
  lemma CRDsComeFirst(c: Config.Settings, env: Env, order: seq<Component>, k: nat)
    requires k < |Run(c, env, order)| && Phase(Run(c, env, order)[k]) > 51
    ensures MadeBefore(ApplyCRDs, Run(c, env, order), k) && env.ok(ApplyCRDs)
  {
    assert CRD_SCRIPT[0] == ApplyCRDs;
    ServicesInPlan(c, env, order, ApplyCRDs);
    EarlierPhaseDone(c, env, order, ApplyCRDs, k);
  }

  /** Behind an ingress, Envoy is installed before cert-manager and the chart. */
  lemma EnvoyComesBeforeTheChart(c: Config.Settings, env: Env, order: seq<Component>, k: nat)
    requires k < |Run(c, env, order)| && Phase(Run(c, env, order)[k]) > 60
    requires c.deploy.externalAccess == "ingress" && !env.envoyInstalled
    ensures MadeBefore(InstallEnvoy, Run(c, env, order), k) && env.ok(InstallEnvoy)
  {
    assert EnvoyScript(c.deploy, env)[0] == InstallEnvoy;
    ServicesInPlan(c, env, order, InstallEnvoy);
    EarlierPhaseDone(c, env, order, InstallEnvoy, k);
  }

  /** cert-manager, where wanted, is installed before the chart. */
  lemma CertManagerComesBeforeTheChart(c: Config.Settings, env: Env, order: seq<Component>, k: nat)
    requires k < |Run(c, env, order)| && Phase(Run(c, env, order)[k]) > 72
    requires c.certs.install && !env.certManagerInstalled
    ensures MadeBefore(InstallCertManager, Run(c, env, order), k) && env.ok(InstallCertManager)
  {
    assert CertScript(c.certs, env)[2] == InstallCertManager;
    ServicesInPlan(c, env, order, InstallCertManager);
    EarlierPhaseDone(c, env, order, InstallCertManager, k);
  }

  predicate Milestone(s: Step) {
    s == UpgradeChart || s == AwaitOperator || s == AwaitMigrations
  }

  lemma InReadiness(s: Step)
    requires Milestone(s) && s != UpgradeChart
    ensures s in READINESS
  {
    assert READINESS[0] == AwaitOperator && READINESS[1] == AwaitMigrations;
  }

  lemma InParts(early: seq<Step>, chart: seq<Step>, readiness: seq<Step>, finish: seq<Step>, s: Step)
    requires s in readiness || s == UpgradeChart
    ensures s in early + ([UpgradeChart] + (chart + (readiness + finish)))
  {
    if s == UpgradeChart {
      assert ([UpgradeChart] + (chart + (readiness + finish)))[0] == s;
    }
  }

  function Early(c: Config.Settings, env: Env): seq<Step> {
    Preparation(c, env) + BeforeUpgrade(c.db)
  }

  function Late(d: Config.Deployment): seq<Step> {
    READINESS + FinishScript(d)
  }

  /** The plan around "helm upgrade". */
  lemma PlanParts(c: Config.Settings, env: Env, order: seq<Component>)
    ensures Plan(c, env, order) == Early(c, env) + ([UpgradeChart] + (RestartScript(order) + Late(c.deploy)))
  {
  }

  lemma MilestoneInPlan(c: Config.Settings, env: Env, order: seq<Component>, s: Step)
    requires Milestone(s)
    ensures s in Plan(c, env, order)
  {
    if s != UpgradeChart {
      InReadiness(s);
    }
    PlanParts(c, env, order);
    InParts(Early(c, env), RestartScript(order), READINESS, FinishScript(c.deploy), s);
  }

  lemma MilestonePhase(s: Step, env: Env)
    requires Milestone(s)
    ensures Phase(s) < 95 && (Passes(s, env) ==> env.ok(s))
  {
  }

  /** Ports are forwarded, or success announced, only after the chart is upgraded and the operator and the migrations are ready. */
  lemma FinishMeansReady(c: Config.Settings, env: Env, order: seq<Component>, k: nat, s: Step)
    requires k < |Run(c, env, order)| && Phase(Run(c, env, order)[k]) == 95 && Milestone(s)
    ensures MadeBefore(s, Run(c, env, order), k) && env.ok(s)
  {
    MilestonePhase(s, env);
    MilestoneInPlan(c, env, order, s);
    EarlierPhaseDone(c, env, order, s, k);
  }

  // --------------------------------------------------------------------- restarts

  predicate Upgraded(run: seq<Step>, env: Env) {
    UpgradeChart in run && env.ok(UpgradeChart)
  }

  lemma RestartsPass(order: seq<Component>, env: Env)
    ensures AllPass(RestartScript(order), env)
  {
  }

  lemma CutFromUpgrade(order: seq<Component>, end: seq<Step>, env: Env)
    ensures Cut([UpgradeChart] + (RestartScript(order) + end), env) ==
      if !env.ok(UpgradeChart) then [UpgradeChart] else [UpgradeChart] + (RestartScript(order) + Cut(end, env))
  {
    var rest := RestartScript(order) + end;
    RestartsPass(order, env);
    CutConcat(RestartScript(order), end, env);
    assert ([UpgradeChart] + rest)[1..] == rest;
  }

  /** A run of any plan around an upgrade: what precedes it or a part of that, and, once it has succeeded, all the restarts and some of the rest. */
  lemma CutAroundUpgrade(before: seq<Step>, order: seq<Component>, end: seq<Step>, env: Env)
    ensures Cut(before + ([UpgradeChart] + (RestartScript(order) + end)), env) ==
      if !AllPass(before, env) then Cut(before, env)
      else if !env.ok(UpgradeChart) then before + [UpgradeChart]
      else before + ([UpgradeChart] + (RestartScript(order) + Cut(end, env)))
  {
    CutConcat(before, [UpgradeChart] + (RestartScript(order) + end), env);
    CutFromUpgrade(order, end, env);
  }

  lemma RunAroundUpgrade(c: Config.Settings, env: Env, order: seq<Component>)
    ensures Run(c, env, order) ==
      if !AllPass(Early(c, env), env) then Cut(Early(c, env), env)
      else if !env.ok(UpgradeChart) then Early(c, env) + [UpgradeChart]
      else Early(c, env) + ([UpgradeChart] + (RestartScript(order) + Cut(Late(c.deploy), env)))
  {
    PlanParts(c, env, order);
    CutAroundUpgrade(Early(c, env), order, Late(c.deploy), env);
  }

  lemma WithinCut(script: seq<Step>, env: Env, lo: nat, hi: nat)
    requires Within(script, lo, hi)
    ensures Within(Cut(script, env), lo, hi)
  {
    RunIsPrefix(script, env);
  }

  lemma OutOfPhase(script: seq<Step>, lo: nat, hi: nat, s: Step)
    requires Within(script, lo, hi) && !(lo <= Phase(s) <= hi)
    ensures s !in script
  {
  }

  lemma EarlySteps(c: Config.Settings, env: Env)
    ensures Within(Early(c, env), 0, 85) && Within(Cut(Early(c, env), env), 0, 85)
  {
    PreparationPhases(c, env);
    BeforeUpgradePhases(c.db);
    WithinConcat(Preparation(c, env), BeforeUpgrade(c.db), 0, 72, 80, 85);
    WithinCut(Early(c, env), env, 0, 85);
  }

  lemma LateSteps(d: Config.Deployment, env: Env)
    ensures Within(Cut(Late(d), env), 92, 95)
  {
    EndPhases(d);
    WithinCut(Late(d), env, 92, 95);
  }

  lemma RestartOfSome(order: seq<Component>, c: Component)
    ensures Restart(c) in RestartScript(order) <==> c in order
  {
    if c in order {
      var i :| 0 <= i < |order| && order[i] == c;
      assert RestartScript(order)[i] == Restart(c);
    }
  }

  lemma RestartsInParts(early: seq<Step>, order: seq<Component>, late: seq<Step>, dep: Component)
    requires Within(early, 0, 85) && Within(late, 92, 95)
    ensures
      var run := early + ([UpgradeChart] + (RestartScript(order) + late));
      UpgradeChart in run && (Restart(dep) in run <==> dep in order)
  {
    OutOfPhase(early, 0, 85, Restart(dep));
    OutOfPhase(late, 92, 95, Restart(dep));
    RestartOfSome(order, dep);
  }

  lemma NoRestartWithoutUpgrade(early: seq<Step>, env: Env, dep: Component)
    requires Within(early, 0, 85)
    ensures Restart(dep) !in Cut(early, env) && UpgradeChart !in Cut(early, env) && Restart(dep) !in early + [UpgradeChart]
  {
    WithinCut(early, env, 0, 85);
    OutOfPhase(Cut(early, env), 0, 85, Restart(dep));
    OutOfPhase(Cut(early, env), 0, 85, UpgradeChart);
    OutOfPhase(early, 0, 85, Restart(dep));
  }

  lemma RestartsInCut(early: seq<Step>, order: seq<Component>, end: seq<Step>, env: Env, dep: Component)
    requires Within(early, 0, 85) && Within(end, 92, 95)
    ensures
      var run := Cut(early + ([UpgradeChart] + (RestartScript(order) + end)), env);
      Restart(dep) in run <==> Upgraded(run, env) && dep in order
  {
    CutAroundUpgrade(early, order, end, env);
    NoRestartWithoutUpgrade(early, env, dep);
    if AllPass(early, env) && env.ok(UpgradeChart) {
      WithinCut(end, env, 92, 95);
      RestartsInParts(early, order, Cut(end, env), dep);
    }
  }

  /** Exactly the changed components are restarted, and only after a successful upgrade. */
  lemma RestartsExactlyTheChanged(c: Config.Settings, env: Env, order: seq<Component>, dep: Component)
    requires RestartOrder(order, Updated(c.deploy, env))
    ensures
      var run, updated := Run(c, env, order), Updated(c.deploy, env);
      Restart(dep) in run <==> Upgraded(run, env) && dep in updated && updated[dep]
  {
    PlanParts(c, env, order);
    EarlySteps(c, env);
    EndPhases(c.deploy);
    RestartsInCut(Early(c, env), order, Late(c.deploy), env, dep);
  }

  function Times(s: Step, script: seq<Step>): nat {
    if script == [] then 0 else (if script[0] == s then 1 else 0) + Times(s, script[1..])
  }

  lemma {:induction false} TimesConcat(s: Step, a: seq<Step>, b: seq<Step>)
    ensures Times(s, a + b) == Times(s, a) + Times(s, b)
  {
    if a == [] {
      assert a + b == b;
    } else {
      assert (a + b)[1..] == a[1..] + b;
      TimesConcat(s, a[1..], b);
    }
  }

  lemma {:induction false} TimesZero(s: Step, a: seq<Step>)
    ensures Times(s, a) == 0 <==> s !in a
  {
    if a != [] {
      TimesZero(s, a[1..]);
      assert a == [a[0]] + a[1..];
    }
  }

  lemma {:induction false} RestartOnce(order: seq<Component>, dep: Component)
    requires forall i, j :: 0 <= i < j < |order| ==> order[i] != order[j]
    ensures Times(Restart(dep), RestartScript(order)) <= 1
  {
    if order != [] {
      assert RestartScript(order)[1..] == RestartScript(order[1..]);
      RestartOnce(order[1..], dep);
      RestartOfSome(order[1..], dep);
      TimesZero(Restart(dep), RestartScript(order[1..]));
    }
  }

  lemma TimesInParts(early: seq<Step>, order: seq<Component>, late: seq<Step>, dep: Component)
    requires Within(early, 0, 85) && Within(late, 92, 95)
    requires forall i, j :: 0 <= i < j < |order| ==> order[i] != order[j]
    ensures Times(Restart(dep), early + ([UpgradeChart] + (RestartScript(order) + late))) <= 1
  {
    var s := Restart(dep);
    OutOfPhase(early, 0, 85, s);
    OutOfPhase(late, 92, 95, s);
    TimesZero(s, early);
    TimesZero(s, late);
    TimesZero(s, [UpgradeChart]);
    RestartOnce(order, dep);
    TimesConcat(s, RestartScript(order), late);
    TimesConcat(s, [UpgradeChart], RestartScript(order) + late);
    TimesConcat(s, early, [UpgradeChart] + (RestartScript(order) + late));
  }

  lemma NoneBefore(script: seq<Step>, dep: Component)
    requires Within(script, 0, 85)
    ensures Times(Restart(dep), script) == 0 && Times(Restart(dep), script + [UpgradeChart]) == 0
  {
    OutOfPhase(script, 0, 85, Restart(dep));
    TimesZero(Restart(dep), script);
    TimesZero(Restart(dep), script + [UpgradeChart]);
  }

  /** ... each once. */
  lemma NoRestartTwice(c: Config.Settings, env: Env, order: seq<Component>, dep: Component)
    requires RestartOrder(order, Updated(c.deploy, env))
    ensures Times(Restart(dep), Run(c, env, order)) <= 1
  {
    var early, late := Early(c, env), Cut(Late(c.deploy), env);
    EarlySteps(c, env);
    NoneBefore(Cut(early, env), dep);
    NoneBefore(early, dep);
    LateSteps(c.deploy, env);
    TimesInParts(early, order, late, dep);
    RunAroundUpgrade(c, env, order);
  }

  // --------------------------------------------------------------------- passwords

  lemma RestPhases(order: seq<Component>, d: Config.Deployment)
    ensures Within([UpgradeChart] + (RestartScript(order) + Late(d)), 90, 95)
  {
    EndPhases(d);
    WithinConcat(RestartScript(order), Late(d), 91, 91, 92, 95);
    WithinConcat([UpgradeChart], RestartScript(order) + Late(d), 90, 90, 91, 95);
  }

  /** Where the phases of two parts are apart, a step of the first is made in it or not at all. */
  lemma FirstPartOfCut(a: seq<Step>, b: seq<Step>, env: Env, s: Step)
    requires Within(b, 90, 95) && Phase(s) <= 85
    ensures s in Cut(a + b, env) <==> s in Cut(a, env)
  {
    CutConcat(a, b, env);
    WithinCut(b, env, 90, 95);
    OutOfPhase(Cut(b, env), 90, 95, s);
  }

  /** A step of the phases before the upgrade is made in that part of the run or not at all. */
  lemma EarlyPartOfRun(c: Config.Settings, env: Env, order: seq<Component>, s: Step)
    requires Phase(s) <= 85
    ensures s in Run(c, env, order) <==> s in Cut(Early(c, env), env)
  {
    PlanParts(c, env, order);
    RestPhases(order, c.deploy);
    FirstPartOfCut(Early(c, env), [UpgradeChart] + (RestartScript(order) + Late(c.deploy)), env, s);
  }

  /** The steps of installHelmChart before the upgrade are made once the preparation has passed. */
  lemma ChartPartOfEarly(c: Config.Settings, env: Env, s: Step)
    requires 80 <= Phase(s) <= 85
    ensures s in Cut(Early(c, env), env) <==> AllPass(Preparation(c, env), env) && s in Cut(BeforeUpgrade(c.db), env)
  {
    CutConcat(Preparation(c, env), BeforeUpgrade(c.db), env);
    PreparationPhases(c, env);
    WithinCut(Preparation(c, env), env, 0, 72);
    OutOfPhase(Preparation(c, env), 0, 72, s);
    OutOfPhase(Cut(Preparation(c, env), env), 0, 72, s);
  }

  lemma MadeInChart(c: Config.Settings, env: Env, order: seq<Component>, s: Step)
    requires 80 <= Phase(s) <= 85
    ensures s in Run(c, env, order) <==> AllPass(Preparation(c, env), env) && s in Cut(BeforeUpgrade(c.db), env)
  {
    EarlyPartOfRun(c, env, order, s);
    ChartPartOfEarly(c, env, s);
  }

  lemma GuardComesFirst(db: Config.Database, env: Env)
    requires DrawPassword in Cut(BeforeUpgrade(db), env)
    ensures NeedsPassword(db) && env.ok(NoStaleDisk) && NoStaleDisk in Cut(BeforeUpgrade(db), env)
  {
    var guard, values := [FindChart] + StaleGuard(db), ValuesScript(db) + [EnsureHelmRepos, BuildDependencies];
    CutConcat(guard, values, env);
    GuardPasses(db, env);
    RunIsPrefix(guard, env);
    RunIsPrefix(values, env);
    assert DrawPassword !in guard;
    assert DrawPassword in values;
    assert NeedsPassword(db);
    assert guard[1] == NoStaleDisk;
  }

  /** A password is drawn only if one is needed and the search for an old disk has come up empty. */
  lemma PasswordOnlyWithoutStaleDisk(c: Config.Settings, env: Env, order: seq<Component>)
    requires DrawPassword in Run(c, env, order)
    ensures NeedsPassword(c.db) && NoStaleDisk in Run(c, env, order) && env.ok(NoStaleDisk)
  {
    MadeInChart(c, env, order, DrawPassword);
    GuardComesFirst(c.db, env);
    MadeInChart(c, env, order, NoStaleDisk);
  }

  lemma StaleGuardFails(c: Config.Settings, env: Env)
    requires NeedsPassword(c.db) && !env.ok(NoStaleDisk)
    ensures !AllPass(Early(c, env), env)
  {
    AllPassConcat([FindChart] + StaleGuard(c.db), ValuesScript(c.db) + [EnsureHelmRepos, BuildDependencies], env);
    GuardPasses(c.db, env);
    AllPassConcat(Preparation(c, env), BeforeUpgrade(c.db), env);
  }

  lemma EarlyFailureStops(early: seq<Step>, order: seq<Component>, end: seq<Step>, env: Env)
    requires Within(early, 0, 85) && !AllPass(early, env)
    ensures
      var plan := early + ([UpgradeChart] + (RestartScript(order) + end));
      !AllPass(plan, env) && UpgradeChart !in Cut(plan, env)
  {
    AllPassConcat(early, [UpgradeChart] + (RestartScript(order) + end), env);
    CutAroundUpgrade(early, order, end, env);
    WithinCut(early, env, 0, 85);
    OutOfPhase(Cut(early, env), 0, 85, UpgradeChart);
  }

  /** An old disk under a configuration without a password stops the deployment before the chart, and the configuration is left as it was. */
  lemma StaleDiskStopsTheDeployment(c: Config.Settings, env: Env, order: seq<Component>)
    requires NeedsPassword(c.db) && !env.ok(NoStaleDisk)
    ensures !AllPass(Plan(c, env, order), env) && UpgradeChart !in Run(c, env, order)
    ensures AfterChart(c.db, env) == c.db
  {
    StaleGuardFails(c, env);
    EarlySteps(c, env);
    PlanParts(c, env, order);
    EarlyFailureStops(Early(c, env), order, Late(c.deploy), env);
  }

  // ------------------------------------------------------------------------ images

  /** The first k images were pulled and loaded. */
  predicate Handled(images: seq<string>, k: nat, env: Env)
    requires k <= |images|
  {
    forall i :: 0 <= i < k ==> env.ok(Pull(images[i])) && env.ok(Load(InfraImage(images[i])))
  }

  /** The steps made for one image. */
  lemma PullOne(name: string, env: Env)
    ensures AllPass([Pull(name), Load(InfraImage(name))], env) <==> env.ok(Pull(name)) && env.ok(Load(InfraImage(name)))
    ensures Cut([Pull(name), Load(InfraImage(name))], env)
         == [Pull(name)] + if env.ok(Pull(name)) then [Load(InfraImage(name))] else []
  {
    var p, l := Pull(name), Load(InfraImage(name));
    AllPassTwo(p, l, env);
    assert [p, l][1..] == [l];
    assert Cut([l], env) == [l];
  }

  lemma HandledShift(images: seq<string>, k: nat, env: Env)
    requires k < |images| && Handled(images, 1, env)
    ensures Handled(images, k + 1, env) <==> Handled(images[1..], k, env)
  {
    assert forall i :: 0 <= i < k ==> images[1..][i] == images[i + 1];
    if Handled(images[1..], k, env) {
      forall i | 1 <= i < k + 1
        ensures env.ok(Pull(images[i])) && env.ok(Load(InfraImage(images[i])))
      {
        assert images[1..][i - 1] == images[i];
      }
    }
  }

  lemma PullRest(images: seq<string>, env: Env)
    requires images != []
    ensures AllPass(PullScript(images), env) ==> Handled(images, 1, env)
    ensures
      var first := [Pull(images[0]), Load(InfraImage(images[0]))];
      if Handled(images, 1, env) then
        && Cut(PullScript(images), env) == first + Cut(PullScript(images[1..]), env)
        && (AllPass(PullScript(images), env) <==> AllPass(PullScript(images[1..]), env))
      else Cut(PullScript(images), env) == Cut(first, env)
  {
    CutConcat([Pull(images[0]), Load(InfraImage(images[0]))], PullScript(images[1..]), env);
    PullOne(images[0], env);
  }

  /** It succeeds exactly when it can handle all of them. */
  lemma {:induction false} PullPassesExactly(images: seq<string>, env: Env)
    ensures AllPass(PullScript(images), env) <==> Handled(images, |images|, env)
  {
    if images != [] {
      PullPassesExactly(images[1..], env);
      PullRest(images, env);
      if Handled(images, 1, env) {
        HandledShift(images, |images| - 1, env);
      }
    }
  }

  lemma {:induction false} PullSplit(images: seq<string>, k: nat)
    requires k <= |images|
    ensures PullScript(images) == PullScript(images[..k]) + PullScript(images[k..])
  {
    if k > 0 {
      PullSplit(images[1..], k - 1);
      assert images[..k][1..] == images[1..][..k - 1] && images[1..][k - 1..] == images[k..];
    } else {
      assert images[k..] == images;
    }
  }

  /** pullAndLoadImages fails at the first image it cannot handle, having handled exactly those before it. */
  lemma PullStopsAtFirstFailure(images: seq<string>, k: nat, env: Env)
    requires k < |images| && Handled(images, k, env) && !Handled(images, k + 1, env)
    ensures !AllPass(PullScript(images), env)
    ensures Cut(PullScript(images), env) == PullScript(images[..k]) + Cut([Pull(images[k]), Load(InfraImage(images[k]))], env)
  {
    PullSplit(images, k);
    PullPassesExactly(images[..k], env);
    assert AllPass(PullScript(images[..k]), env);
    PullRest(images[k..], env);
    assert !Handled(images[k..], 1, env);
    CutConcat(PullScript(images[..k]), PullScript(images[k..]), env);
  }

  /** A component without its repository is passed over when loading but stops a push. */
  lemma MissingRepository(c: Component, env: Env)
    requires !env.ok(FindRepo(c, false)) && !env.ok(FindRepo(c, true))
    ensures AllPass(LoadScript(c, env), env) && Cut(LoadScript(c, env), env) == [FindRepo(c, false)]
    ensures !AllPass(PushScript([c]), env) && Cut(PushScript([c]), env) == [FindRepo(c, true)]
  {
    assert PushScript([c])[0] == FindRepo(c, true);
  }
}
