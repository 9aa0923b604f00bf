/**
 Deploying on Kubernetes: Setup and the image commands of
 cmd/frkrup/kubernetes.go, installHelmChart of cmd/frkrup/helm.go.  The plan of a
 deployment is a script; the methods are shown to run it.
 */
module Deployment {
  import opened Wrappers
  import opened Passwords
  import Config
  import HelmValues
  import opened Scripts

  // ---------------------------------------------------------------------- the plan

  const PREREQUISITES: seq<Step> := [FindKubectl, FindHelm, ClusterInfo]

  function ClusterScript(d: Config.Deployment, env: Env): seq<Step> {
    [CurrentContext, MatchContext(d.clusterName, if env.context.Some? then env.context.value else "")]
  }

  const COMPONENTS: seq<Component> := [IngestGateway, StreamingGateway, Operator]

  const INFRA_IMAGES: seq<string> := ["busybox", "postgres:15-alpine", "docker.redpanda.com/redpandadata/redpanda:latest"]

  /** One image for the cluster; a component whose repository is not found is passed over. */
  function LoadScript(c: Component, env: Env): seq<Step> {
    [FindRepo(c, false)] + if env.ok(FindRepo(c, false)) then [Build(c), Load(BuiltImage(c))] else []
  }

  function PullScript(images: seq<string>): seq<Step> {
    if images == [] then [] else [Pull(images[0]), Load(InfraImage(images[0]))] + PullScript(images[1..])
  }

  function PushScript(cs: seq<Component>): seq<Step> {
    if cs == [] then [] else [FindRepo(cs[0], true), Build(cs[0]), Push(cs[0])] + PushScript(cs[1..])
  }

  lemma PushScriptNext(cs: seq<Component>, i: nat, done: seq<Step>)
    requires i < |cs|
    ensures done + PushScript(cs[i..]) == done + PushScript([cs[i]]) + PushScript(cs[i + 1..])
  {
    assert cs[i..][1..] == cs[i + 1..] && [cs[i]][1..] == [];
  }

  lemma PushScriptOne(c: Component)
    ensures PushScript([c]) == [FindRepo(c, true), Build(c), Push(c)]
  {
    assert [c][1..] == [];
  }

  lemma PushScriptEnd(cs: seq<Component>)
    ensures PushScript(cs[|cs|..]) == []
  {
  }

  function LoadAllScript(env: Env): seq<Step> {
    LoadScript(IngestGateway, env) + (LoadScript(StreamingGateway, env) + (LoadScript(Operator, env) + PullScript(INFRA_IMAGES)))
  }

  function PushAllScript(d: Config.Deployment): seq<Step> {
    [NeedRegistry(d.imageRegistry)] + PushScript(COMPONENTS)
  }

  function ImageScript(d: Config.Deployment, env: Env): seq<Step> {
    if d.imageLoadCommand != "" then LoadAllScript(env)
    else if d.imageRegistry != "" && d.rebuild then PushAllScript(d)
    else []
  }

  const CRD_SCRIPT: seq<Step> := [ApplyCRDs, AwaitCRDs]

  function EnvoyScript(d: Config.Deployment, env: Env): seq<Step> {
    if d.externalAccess == "ingress" && !env.envoyInstalled then [InstallEnvoy] else []
  }

  function CertScript(certs: Config.Certificates, env: Env): seq<Step> {
    if certs.install && !env.certManagerInstalled then [AdoptCertManagerCRDs, AddJetstackRepo, InstallCertManager] else []
  }

  predicate NeedsPassword(db: Config.Database) {
    HelmValues.ProvisionsPostgres(db) && db.password == ""
  }

  function ValuesScript(db: Config.Database): seq<Step> {
    (if NeedsPassword(db) then [DrawPassword] else []) + [WriteValues]
  }

  /** Guards a password about to be drawn. */
  function StaleGuard(db: Config.Database): seq<Step> {
    if NeedsPassword(db) then [NoStaleDisk] else []
  }

  /** Everything installHelmChart does before "helm upgrade". */
  function BeforeUpgrade(db: Config.Database): seq<Step> {
    [FindChart] + StaleGuard(db) + (ValuesScript(db) + [EnsureHelmRepos, BuildDependencies])
  }

  function RestartScript(order: seq<Component>): seq<Step> {
    seq(|order|, i requires 0 <= i < |order| => Restart(order[i]))
  }

  function ChartScript(db: Config.Database, order: seq<Component>): seq<Step> {
    BeforeUpgrade(db) + ([UpgradeChart] + RestartScript(order))
  }

  const READINESS: seq<Step> := [AwaitOperator, AwaitMigrations, AwaitDataPlane]

  function FinishScript(d: Config.Deployment): seq<Step> {
    if !d.skipPortForward then [PortForward] else [Announce]
  }

  function Connection(d: Config.Deployment, env: Env): seq<Step> {
    PREREQUISITES + ClusterScript(d, env)
  }

  function Services(c: Config.Settings, env: Env): seq<Step> {
    CRD_SCRIPT + (EnvoyScript(c.deploy, env) + CertScript(c.certs, env))
  }

  function Preparation(c: Config.Settings, env: Env): seq<Step> {
    Connection(c.deploy, env) + (ImageScript(c.deploy, env) + Services(c, env))
  }

  /** The whole deployment; `order` is the order of the restarts. */
  function Plan(c: Config.Settings, env: Env, order: seq<Component>): seq<Step> {
    Preparation(c, env) + (ChartScript(c.db, order) + (READINESS + FinishScript(c.deploy)))
  }

  /** The components whose image changed, as far as images were handled. */
  function Updated(d: Config.Deployment, env: Env): map<Component, bool> {
    if d.imageLoadCommand != "" then
      map c: Component | c in COMPONENTS && env.ok(FindRepo(c, false)) :: env.oldId(c) != env.newId(c)
    else if d.imageRegistry != "" && d.rebuild then map c: Component | c in COMPONENTS :: true
    else map[]
  }

  /** `updated` with the entry of one component whose repository was found. */
  function Marked(c: Component, env: Env, updated: map<Component, bool>): map<Component, bool> {
    if env.ok(FindRepo(c, false)) then updated[c := env.oldId(c) != env.newId(c)] else updated
  }

  lemma MarkedAll(d: Config.Deployment, env: Env)
    requires d.imageLoadCommand != ""
    ensures Updated(d, env) == Marked(Operator, env, Marked(StreamingGateway, env, Marked(IngestGateway, env, map[])))
  {
  }

  /** Each changed component once, in some order: a Go map is iterated in any order. */
  ghost predicate RestartOrder(order: seq<Component>, updated: map<Component, bool>) {
    && (forall c: Component :: c in order <==> c in updated && updated[c])
    && (forall i, j :: 0 <= i < j < |order| ==> order[i] != order[j])
  }

  method ToRestart(updated: map<Component, bool>) returns (order: seq<Component>)
    ensures RestartOrder(order, updated)
  {
    order := [];
    var rest := updated.Keys;
    while rest != {}
      invariant rest <= updated.Keys
      invariant forall c: Component :: c in order <==> c in updated && c !in rest && updated[c]
      invariant forall i, j :: 0 <= i < j < |order| ==> order[i] != order[j]
      decreases |rest|
    {
      var dep :| dep in rest;
      rest := rest - {dep};
      if updated[dep] {
        order := order + [dep];
      }
    }
  }

  // ------------------------------------------------------ what the methods leave behind

  lemma AllPassTwo(a: Step, b: Step, env: Env)
    ensures AllPass([a, b], env) <==> Passes(a, env) && Passes(b, env)
  {
    assert [a, b][0] == a && [a, b][1] == b;
  }

  function IfChanged(c: Component, updated: map<Component, bool>): seq<Component> {
    if c in updated && updated[c] then [c] else []
  }

  /** Some order of the restarts exists. */
  lemma SomeOrder(updated: map<Component, bool>) returns (order: seq<Component>)
    ensures RestartOrder(order, updated)
  {
    order := IfChanged(IngestGateway, updated) + IfChanged(StreamingGateway, updated) + IfChanged(Operator, updated);
    forall c: Component
      ensures c in order <==> c in updated && updated[c]
    {
      match c
      case IngestGateway => assert c in order <==> c in IfChanged(c, updated);
      case StreamingGateway => assert c in order <==> c in IfChanged(c, updated);
      case Operator => assert c in order <==> c in IfChanged(c, updated);
    }
  }

  lemma SameButCluster(c: Config.Settings, clusterName: string, env: Env)
    ensures
      var d := c.deploy.(clusterName := clusterName);
      && ImageScript(d, env) == ImageScript(c.deploy, env)
      && Updated(d, env) == Updated(c.deploy, env)
      && Services(c.(deploy := d), env) == Services(c, env)
      && FinishScript(d) == FinishScript(c.deploy)
  {
  }

  /** The database section after generateValuesFile, whether it succeeds or not. */
  function AfterValues(db: Config.Database, env: Env): Config.Database {
    var after := HelmValues.WithPassword(db, env.random);
    if after.Some? then after.value else db
  }

  /** The database section after installHelmChart. */
  function AfterChart(db: Config.Database, env: Env): Config.Database {
    if env.ok(FindChart) && (NeedsPassword(db) ==> env.ok(NoStaleDisk)) then AfterValues(db, env) else db
  }

  lemma GuardPasses(db: Config.Database, env: Env)
    ensures AllPass([FindChart] + StaleGuard(db), env) <==> env.ok(FindChart) && (NeedsPassword(db) ==> env.ok(NoStaleDisk))
  {
    AllPassConcat([FindChart], StaleGuard(db), env);
    assert AllPass([FindChart], env) <==> env.ok(FindChart) by {
      assert [FindChart][0] == FindChart;
    }
    if NeedsPassword(db) {
      assert [NoStaleDisk][0] == NoStaleDisk;
    }
  }

  /** A passing chart installation has drawn the password it needed. */
  lemma ChartPasses(db: Config.Database, order: seq<Component>, env: Env)
    requires AllPass(ChartScript(db, order), env)
    ensures HelmValues.WithPassword(db, env.random) == Some(AfterChart(db, env))
  {
    var build := [EnsureHelmRepos, BuildDependencies];
    AllPassConcat(BeforeUpgrade(db), [UpgradeChart] + RestartScript(order), env);
    AllPassConcat([FindChart] + StaleGuard(db), ValuesScript(db) + build, env);
    AllPassConcat(ValuesScript(db), build, env);
    GuardPasses(db, env);
    if NeedsPassword(db) {
      assert ValuesScript(db)[0] == DrawPassword;
      assert Passes(DrawPassword, env);
    }
  }

  // -------------------------------------------------------------------- the manager

  class KubernetesManager {
    const config: Config.FrkrupConfig
    /** The steps made so far. */
    var log: seq<Step>

    constructor (config: Config.FrkrupConfig)
      ensures this.config == config && log == []
    {
      this.config := config;
      log := [];
    }

    method Do(s: Step, env: Env) returns (ok: bool)
      modifies this
      ensures log == old(log) + [s]
      ensures Ran(old(log), log, [s], env, ok || !Fatal(s))
      ensures ok == Succeeds(s, env)
    {
      log := log + [s];
      ok := Succeeds(s, env);
    }

    /** A step whose failure does not matter. */
    method Try(s: Step, env: Env)
      requires !Fatal(s)
      modifies this
      ensures Ran(old(log), log, [s], env, true)
    {
      var _ := Do(s, env);
    }

    /** Two fatal steps in a row. */
    method Two(a: Step, b: Step, env: Env) returns (ok: bool)
      requires Fatal(a) && Fatal(b)
      modifies this
      ensures Ran(old(log), log, [a, b], env, ok)
    {
      ghost var l0 := log;
      assert [a] + [b] == [a, b];
      ok := Do(a, env);
      if !ok {
        RanStops(l0, log, [a], [b], env);
        return;
      }
      ghost var l1 := log;
      ok := Do(b, env);
      RanThen(l0, l1, log, [a], [b], env, ok);
    }

    method CheckPrerequisites(env: Env) returns (ok: bool)
      modifies this
      ensures Ran(old(log), log, PREREQUISITES, env, ok)
    {
      ghost var l0 := log;
      assert [FindKubectl, FindHelm] + [ClusterInfo] == PREREQUISITES;
      ok := Two(FindKubectl, FindHelm, env);
      if !ok {
        RanStops(l0, log, [FindKubectl, FindHelm], [ClusterInfo], env);
        return;
      }
      ghost var l1 := log;
      ok := Do(ClusterInfo, env);
      RanThen(l0, l1, log, [FindKubectl, FindHelm], [ClusterInfo], env, ok);
    }

    method DetermineClusterName(env: Env) returns (ok: bool)
      modifies this, config`deploy
      ensures Ran(old(log), log, ClusterScript(old(config.deploy), env), env, ok)
      ensures config.deploy == old(config.deploy).(clusterName := config.deploy.clusterName)
      ensures ok ==> env.context == Some(config.deploy.clusterName)
    {
      var active := if env.context.Some? then env.context.value else "";
      ok := Two(CurrentContext, MatchContext(config.deploy.clusterName, active), env);
      AllPassTwo(CurrentContext, MatchContext(config.deploy.clusterName, active), env);
      var named := config.DetermineClusterName(env.context);
      assert named == ok;
    }

    // ------------------------------------------------------------------------ images

    method BuildAndLoadImage(c: Component, env: Env) returns (ok: bool, hasChanged: bool)
      modifies this
      ensures Ran(old(log), log, [Build(c), Load(BuiltImage(c))], env, ok)
      ensures hasChanged <==> env.oldId(c) != env.newId(c)
    {
      var oldID := env.oldId(c);
      ok := Two(Build(c), Load(BuiltImage(c)), env);
      hasChanged := oldID != env.newId(c);
    }

    /** One of the three components of buildAndLoadImages. */
    method LoadComponent(c: Component, env: Env, updated0: map<Component, bool>) returns (ok: bool, updated: map<Component, bool>)
      modifies this
      ensures Ran(old(log), log, LoadScript(c, env), env, ok)
      ensures ok ==> updated == Marked(c, env, updated0)
    {
      ghost var l0 := log;
      updated := updated0;
      var found := Do(FindRepo(c, false), env);
      ok := true;
      if found {
        ghost var l1 := log;
        var hasChanged;
        ok, hasChanged := BuildAndLoadImage(c, env);
        updated := updated[c := hasChanged];
        RanThen(l0, l1, log, [FindRepo(c, false)], [Build(c), Load(BuiltImage(c))], env, ok);
      } else {
        assert LoadScript(c, env) == [FindRepo(c, false)];
      }
    }

    method PullAndLoadImages(images: seq<string>, env: Env) returns (ok: bool)
      modifies this
      ensures Ran(old(log), log, PullScript(images), env, ok)
    {
      ghost var l0, done := log, [];
      var i := 0;
      while i < |images|
        invariant 0 <= i <= |images|
        invariant Ran(l0, log, done, env, true)
        invariant done + PullScript(images[i..]) == PullScript(images)
      {
        ghost var l1, rest := log, images[i..];
        ghost var here := [Pull(images[i]), Load(InfraImage(images[i]))];
        assert rest[0] == images[i] && rest[1..] == images[i + 1..];
        assert done + (here + PullScript(images[i + 1..])) == done + here + PullScript(images[i + 1..]);
        ok := Two(Pull(images[i]), Load(InfraImage(images[i])), env);
        RanThen(l0, l1, log, done, here, env, ok);
        if !ok {
          RanStops(l0, log, done + here, PullScript(images[i + 1..]), env);
          return;
        }
        done := done + here;
        i := i + 1;
      }
      assert images[i..] == [];
      assert done == PullScript(images);
      ok := true;
    }

    method BuildAndLoadImages(env: Env) returns (ok: bool, updated: map<Component, bool>)
      requires config.deploy.imageLoadCommand != ""
      modifies this
      ensures Ran(old(log), log, LoadAllScript(env), env, ok)
      ensures ok ==> updated == Updated(old(config.deploy), env)
    {
      ghost var l0 := log;
      ghost var s3 := PullScript(INFRA_IMAGES);
      ghost var s2 := LoadScript(Operator, env) + s3;
      ghost var s1 := LoadScript(StreamingGateway, env) + s2;
      updated := map[];
      ok, updated := LoadComponent(IngestGateway, env, updated);
      if !ok {
        RanStops(l0, log, LoadScript(IngestGateway, env), s1, env);
        return;
      }
      ghost var l1 := log;
      ok, updated := LoadComponent(StreamingGateway, env, updated);
      if !ok {
        RanStops(l1, log, LoadScript(StreamingGateway, env), s2, env);
        RanThen(l0, l1, log, LoadScript(IngestGateway, env), s1, env, false);
        return;
      }
      ghost var l2 := log;
      ok, updated := LoadComponent(Operator, env, updated);
      if !ok {
        RanStops(l2, log, LoadScript(Operator, env), s3, env);
        RanThen(l1, l2, log, LoadScript(StreamingGateway, env), s2, env, false);
        RanThen(l0, l1, log, LoadScript(IngestGateway, env), s1, env, false);
        return;
      }
      MarkedAll(config.deploy, env);
      ghost var l3 := log;
      ok := PullAndLoadImages(INFRA_IMAGES, env);
      RanThen(l2, l3, log, LoadScript(Operator, env), s3, env, ok);
      RanThen(l1, l2, log, LoadScript(StreamingGateway, env), s2, env, ok);
      RanThen(l0, l1, log, LoadScript(IngestGateway, env), s1, env, ok);
    }

    method PushOne(c: Component, env: Env) returns (ok: bool)
      modifies this
      ensures Ran(old(log), log, PushScript([c]), env, ok)
    {
      PushScriptOne(c);
      ghost var l0 := log;
      assert [FindRepo(c, true), Build(c)] + [Push(c)] == [FindRepo(c, true), Build(c), Push(c)];
      ok := Two(FindRepo(c, true), Build(c), env);
      if !ok {
        RanStops(l0, log, [FindRepo(c, true), Build(c)], [Push(c)], env);
        return;
      }
      ghost var l1 := log;
      ok := Do(Push(c), env);
      RanThen(l0, l1, log, [FindRepo(c, true), Build(c)], [Push(c)], env, ok);
    }

    method PushImages(env: Env) returns (ok: bool, updated: map<Component, bool>)
      modifies this
      ensures Ran(old(log), log, PushAllScript(old(config.deploy)), env, ok)
      ensures ok ==> updated == map c: Component | c in COMPONENTS :: true
    {
      ghost var l0 := log;
      var start := NeedRegistry(config.deploy.imageRegistry);
      updated := map[];
      ok := Do(start, env);
      if !ok {
        RanStops(l0, log, [start], PushScript(COMPONENTS), env);
        return;
      }
      ghost var done := [start];
      var i := 0;
      while i < |COMPONENTS|
        invariant 0 <= i <= |COMPONENTS|
        invariant Ran(l0, log, done, env, true)
        invariant done + PushScript(COMPONENTS[i..]) == [start] + PushScript(COMPONENTS)
        invariant updated == map c: Component | c in COMPONENTS[..i] :: true
      {
        ghost var l1, c := log, COMPONENTS[i];
        ghost var here := PushScript([c]);
        PushScriptNext(COMPONENTS, i, done);
        ok := PushOne(COMPONENTS[i], env);
        RanThen(l0, l1, log, done, here, env, ok);
        if !ok {
          RanStops(l0, log, done + here, PushScript(COMPONENTS[i + 1..]), env);
          return;
        }
        done := done + here;
        assert COMPONENTS[..i + 1] == COMPONENTS[..i] + [c];
        updated := updated[COMPONENTS[i] := true];
        i := i + 1;
      }
      PushScriptEnd(COMPONENTS);
      assert COMPONENTS[..i] == COMPONENTS;
      assert done == [start] + PushScript(COMPONENTS);
      ok := true;
    }

    /** Step 3 of Setup. */
    method HandleImages(env: Env) returns (ok: bool, updated: map<Component, bool>)
      modifies this
      ensures Ran(old(log), log, ImageScript(old(config.deploy), env), env, ok)
      ensures ok ==> updated == Updated(old(config.deploy), env)
    {
      updated := map[];
      if config.deploy.imageLoadCommand != "" {
        ok, updated := BuildAndLoadImages(env);
      } else if config.deploy.imageRegistry != "" && config.deploy.rebuild {
        ok, updated := PushImages(env);
      } else {
        ok := true;
        RanNothing(log, env);
      }
    }

    // ------------------------------------------------------------- cluster services

    method InstallGatewayAPICRDs(env: Env) returns (ok: bool)
      modifies this
      ensures Ran(old(log), log, CRD_SCRIPT, env, ok)
    {
      ghost var l0 := log;
      assert [ApplyCRDs] + [AwaitCRDs] == CRD_SCRIPT;
      ok := Do(ApplyCRDs, env);
      if !ok {
        RanStops(l0, log, [ApplyCRDs], [AwaitCRDs], env);
        return;
      }
      ghost var l1 := log;
      Try(AwaitCRDs, env);
      RanThen(l0, l1, log, [ApplyCRDs], [AwaitCRDs], env, true);
    }

    method InstallEnvoyGateway(env: Env) returns (ok: bool)
      requires config.deploy.externalAccess == "ingress"
      modifies this
      ensures Ran(old(log), log, EnvoyScript(old(config.deploy), env), env, ok)
    {
      if env.envoyInstalled {
        RanNothing(log, env);
        return true;
      }
      ok := Do(InstallEnvoy, env);
    }

    method InstallCertManagerChart(env: Env) returns (ok: bool)
      requires config.certs.install
      modifies this
      ensures Ran(old(log), log, CertScript(old(config.certs), env), env, ok)
    {
      if env.certManagerInstalled {
        RanNothing(log, env);
        return true;
      }
      ghost var l0 := log;
      Try(AdoptCertManagerCRDs, env);
      ghost var l1 := log;
      Try(AddJetstackRepo, env);
      RanThen(l0, l1, log, [AdoptCertManagerCRDs], [AddJetstackRepo], env, true);
      assert [AdoptCertManagerCRDs] + [AddJetstackRepo] == [AdoptCertManagerCRDs, AddJetstackRepo];
      l1 := log;
      ok := Do(InstallCertManager, env);
      RanThen(l0, l1, log, [AdoptCertManagerCRDs, AddJetstackRepo], [InstallCertManager], env, ok);
      assert [AdoptCertManagerCRDs, AddJetstackRepo] + [InstallCertManager] == [AdoptCertManagerCRDs, AddJetstackRepo, InstallCertManager];
    }

    // ------------------------------------------------------------------ the chart

    /** generateValuesFile, as steps. */
    method GenerateValuesFile(env: Env) returns (ok: bool, values: map<HelmValues.Key, HelmValues.Value>)
      requires Draw(env.random, 16)
      modifies this, config`db
      ensures Ran(old(log), log, ValuesScript(old(config.db)), env, ok)
      ensures config.db == AfterValues(old(config.db), env)
      ensures ok ==> HelmValues.Agrees(values, config.Snapshot())
    {
      var needs := config.db.host == "frkr-db" && config.db.password == "";
      var r;
      values, r := HelmValues.GenerateValues(config, env.random, env.ok(WriteValues));
      if !needs {
        assert ValuesScript(old(config.db)) == [WriteValues];
        ok := Do(WriteValues, env);
      } else {
        assert ValuesScript(old(config.db)) == [DrawPassword, WriteValues];
        ok := Two(DrawPassword, WriteValues, env);
        AllPassTwo(DrawPassword, WriteValues, env);
      }
    }

    method RestartAll(order: seq<Component>, env: Env)
      modifies this
      ensures Ran(old(log), log, RestartScript(order), env, true)
    {
      ghost var l0 := log;
      RanNothing(l0, env);
      for i := 0 to |order|
        invariant Ran(l0, log, RestartScript(order[..i]), env, true)
      {
        ghost var l1 := log;
        Try(Restart(order[i]), env);
        RanThen(l0, l1, log, RestartScript(order[..i]), [Restart(order[i])], env, true);
        assert RestartScript(order[..i + 1]) == RestartScript(order[..i]) + [Restart(order[i])];
      }
      assert order[..|order|] == order;
    }

    /** The chart is found and no old disk would reject a new password. */
    method CheckChart(env: Env) returns (ok: bool)
      modifies this
      ensures Ran(old(log), log, [FindChart] + StaleGuard(old(config.db)), env, ok)
    {
      ghost var l0 := log;
      ok := Do(FindChart, env);
      if !ok {
        RanStops(l0, log, [FindChart], StaleGuard(config.db), env);
        return;
      }
      ghost var l1 := log;
      if config.db.host == "frkr-db" && config.db.password == "" {
        ok := Do(NoStaleDisk, env);
      } else {
        RanNothing(log, env);
      }
      RanThen(l0, l1, log, [FindChart], StaleGuard(config.db), env, ok);
    }

    method BuildChart(env: Env)
      modifies this
      ensures Ran(old(log), log, [EnsureHelmRepos, BuildDependencies], env, true)
    {
      ghost var l0 := log;
      Try(EnsureHelmRepos, env);
      ghost var l1 := log;
      Try(BuildDependencies, env);
      RanThen(l0, l1, log, [EnsureHelmRepos], [BuildDependencies], env, true);
      assert [EnsureHelmRepos] + [BuildDependencies] == [EnsureHelmRepos, BuildDependencies];
    }

    /** installHelmChart up to "helm upgrade". */
    method PrepareChart(env: Env) returns (ok: bool, values: map<HelmValues.Key, HelmValues.Value>)
      requires Draw(env.random, 16)
      modifies this, config`db
      ensures Ran(old(log), log, BeforeUpgrade(old(config.db)), env, ok)
      ensures config.db == AfterChart(old(config.db), env)
      ensures ok ==> HelmValues.Agrees(values, config.Snapshot())
    {
      ghost var l0, db := log, config.db;
      ghost var build := [EnsureHelmRepos, BuildDependencies];
      values := map[];
      ok := CheckChart(env);
      GuardPasses(db, env);
      if !ok {
        RanStops(l0, log, [FindChart] + StaleGuard(db), ValuesScript(db) + build, env);
        return;
      }
      ghost var l1 := log;
      ok, values := GenerateValuesFile(env);
      if !ok {
        RanStops(l1, log, ValuesScript(db), build, env);
      } else {
        ghost var l2 := log;
        BuildChart(env);
        RanThen(l1, l2, log, ValuesScript(db), build, env, true);
      }
      RanThen(l0, l1, log, [FindChart] + StaleGuard(db), ValuesScript(db) + build, env, ok);
    }

    /**
     installHelmChart: it runs its script, draws a password exactly if one is
     needed and no stale disk was found, and restarts each changed component once.
     */
    method InstallHelmChart(updated: map<Component, bool>, env: Env)
      returns (ok: bool, values: map<HelmValues.Key, HelmValues.Value>, ghost order: seq<Component>)
      requires Draw(env.random, 16)
      modifies this, config`db
      ensures RestartOrder(order, updated) && Ran(old(log), log, ChartScript(old(config.db), order), env, ok)
      ensures config.db == AfterChart(old(config.db), env)
      ensures ok ==> HelmValues.Agrees(values, config.Snapshot())
    {
      ghost var l0, db := log, config.db;
      order := SomeOrder(updated);
      ok, values := PrepareChart(env);
      if !ok {
        RanStops(l0, log, BeforeUpgrade(db), [UpgradeChart] + RestartScript(order), env);
        return;
      }
      ghost var l1 := log;
      ok := Do(UpgradeChart, env);
      if !ok {
        RanStops(l1, log, [UpgradeChart], RestartScript(order), env);
      } else {
        ghost var l2 := log;
        var toRestart := ToRestart(updated);
        order := toRestart;
        RestartAll(toRestart, env);
        RanThen(l1, l2, log, [UpgradeChart], RestartScript(order), env, true);
      }
      RanThen(l0, l1, log, BeforeUpgrade(db), [UpgradeChart] + RestartScript(order), env, ok);
    }

    method WaitForReadiness(env: Env) returns (ok: bool)
      modifies this
      ensures Ran(old(log), log, READINESS, env, ok)
    {
      ghost var l0, first := log, [AwaitOperator, AwaitMigrations];
      assert first + [AwaitDataPlane] == READINESS;
      ok := Two(AwaitOperator, AwaitMigrations, env);
      if !ok {
        RanStops(l0, log, first, [AwaitDataPlane], env);
        return;
      }
      ghost var l1 := log;
      Try(AwaitDataPlane, env);
      RanThen(l0, l1, log, first, [AwaitDataPlane], env, true);
    }

    // --------------------------------------------------------------------- the whole

    /** Setup, steps 1 and 2. */
    method Connect(env: Env) returns (ok: bool)
      modifies this, config`deploy
      ensures Ran(old(log), log, Connection(old(config.deploy), env), env, ok)
      ensures config.deploy == old(config.deploy).(clusterName := config.deploy.clusterName)
      ensures ok ==> env.context == Some(config.deploy.clusterName)
    {
      ghost var l0, d := log, config.deploy;
      ok := CheckPrerequisites(env);
      if !ok {
        RanStops(l0, log, PREREQUISITES, ClusterScript(d, env), env);
        return;
      }
      ghost var l1 := log;
      ok := DetermineClusterName(env);
      RanThen(l0, l1, log, PREREQUISITES, ClusterScript(d, env), env, ok);
    }

    /** Setup, steps 4 to 5b. */
    method InstallServices(env: Env) returns (ok: bool)
      modifies this
      ensures Ran(old(log), log, Services(old(config.Snapshot()), env), env, ok)
    {
      ghost var l0 := log;
      ghost var envoy, cert := EnvoyScript(config.deploy, env), CertScript(config.certs, env);
      ok := InstallGatewayAPICRDs(env);
      if !ok {
        RanStops(l0, log, CRD_SCRIPT, envoy + cert, env);
        return;
      }
      ghost var l1 := log;
      RanNothing(log, env);
      if config.deploy.externalAccess == "ingress" {
        ok := InstallEnvoyGateway(env);
      }
      if !ok {
        RanStops(l1, log, envoy, cert, env);
        RanThen(l0, l1, log, CRD_SCRIPT, envoy + cert, env, false);
        return;
      }
      ghost var l2 := log;
      RanNothing(log, env);
      if config.certs.install {
        ok := InstallCertManagerChart(env);
      }
      RanThen(l1, l2, log, envoy, cert, env, ok);
      RanThen(l0, l1, log, CRD_SCRIPT, envoy + cert, env, ok);
    }

    /** Setup, steps 1 to 5b; `updated` are the images handled. */
    method Prepare(env: Env) returns (ok: bool, updated: map<Component, bool>)
      modifies this, config`deploy
      ensures Ran(old(log), log, Preparation(old(config.Snapshot()), env), env, ok)
      ensures config.deploy == old(config.deploy).(clusterName := config.deploy.clusterName)
      ensures ok ==> updated == Updated(old(config.deploy), env) && env.context == Some(config.deploy.clusterName)
    {
      ghost var l0, c := log, config.Snapshot();
      ghost var images, services := ImageScript(c.deploy, env), Services(c, env);
      updated := map[];
      ok := Connect(env);
      if !ok {
        RanStops(l0, log, Connection(c.deploy, env), images + services, env);
        return;
      }
      ghost var l1 := log;
      SameButCluster(c, config.deploy.clusterName, env);
      ok, updated := HandleImages(env);
      if !ok {
        RanStops(l1, log, images, services, env);
      } else {
        ghost var l2 := log;
        ok := InstallServices(env);
        RanThen(l1, l2, log, images, services, env, ok);
      }
      RanThen(l0, l1, log, Connection(c.deploy, env), images + services, env, ok);
    }

    /** Setup, steps 6 to 8. */
    method Finish(env: Env) returns (ok: bool)
      modifies this
      ensures Ran(old(log), log, READINESS + FinishScript(old(config.deploy)), env, ok)
    {
      ghost var l0 := log;
      ok := WaitForReadiness(env);
      if !ok {
        RanStops(l0, log, READINESS, FinishScript(config.deploy), env);
        return;
      }
      ghost var l1 := log;
      if !config.deploy.skipPortForward {
        Try(PortForward, env);
      } else {
        Try(Announce, env);
      }
      RanThen(l0, l1, log, READINESS, FinishScript(config.deploy), env, true);
    }

    /**
     Setup: what it does is its plan up to the first fatal failure, and it succeeds
     exactly if there is none; then the cluster is known and the values written
     are those of the configuration.
     */
    method Setup(env: Env)
      returns (ok: bool, values: map<HelmValues.Key, HelmValues.Value>, ghost order: seq<Component>)
      requires Draw(env.random, 16)
      modifies this, config`deploy, config`db
      ensures config.deploy == old(config.deploy).(clusterName := config.deploy.clusterName)
      ensures config.db == old(config.db) || config.db == AfterChart(old(config.db), env)
      ensures RestartOrder(order, Updated(old(config.deploy), env))
      ensures Ran(old(log), log, Plan(old(config.Snapshot()), env, order), env, ok)
      ensures ok ==>
        && env.context == Some(config.deploy.clusterName)
        && HelmValues.WithPassword(old(config.db), env.random) == Some(config.db)
        && HelmValues.Agrees(values, config.Snapshot())
    {
      ghost var l0, c := log, config.Snapshot();
      order := SomeOrder(Updated(c.deploy, env));
      values := map[];
      var updated;
      ok, updated := Prepare(env);
      if !ok {
        RanStops(l0, log, Preparation(c, env), ChartScript(c.db, order) + (READINESS + FinishScript(c.deploy)), env);
        return;
      }
      ghost var l1 := log;
      ok, values, order := InstallHelmChart(updated, env);
      ghost var end := READINESS + FinishScript(c.deploy);
      if !ok {
        RanStops(l1, log, ChartScript(c.db, order), end, env);
      } else {
        ChartPasses(c.db, order, env);
        ghost var l2 := log;
        ok := Finish(env);
        RanThen(l1, l2, log, ChartScript(c.db, order), end, env, ok);
      }
      RanThen(l0, l1, log, Preparation(c, env), ChartScript(c.db, order) + end, env, ok);
    }
  }
}
