/**
 The configuration of frkrup (cmd/frkrup/frkrup_config.go) and its pipeline:
 load, defaults, validation, command-line overrides (cmd/frkrup/main.go), and
 the addresses read off the result.
 */
module Config {
  import opened Wrappers

  // The sections of the struct FrkrupConfig.

  datatype Deployment = Deployment(
    target: string, k8s: bool, clusterName: string, skipPortForward: bool,
    externalAccess: string, ingressHost: string, ingestIngressHost: string, streamingIngressHost: string,
    ingressTLSSecret: string, portForwardAddress: string,
    imageRegistry: string, imageLoadCommand: string, rebuild: bool)

  datatype Certificates = Certificates(install: bool, email: string, issuerName: string, issuerServer: string)

  datatype Database = Database(host: string, port: string, user: string, password: string, name: string)

  datatype Broker = Broker(host: string, port: string)

  datatype Gateways = Gateways(ingestPort: int, streamingPort: int, ingestHost: string, streamingHost: string)

  datatype Oidc = Oidc(test: bool, issuer: string, clientId: string, clientSecret: string)

  /** The whole configuration as a value. */
  datatype Settings = Settings(
    deploy: Deployment, provider: string, certs: Certificates,
    db: Database, broker: Broker, gateways: Gateways, oidc: Oidc, migrationsPath: string)

  /** What applyDefaults finds on the disk: the module's migrations, and the fallback candidates in order. */
  datatype Disk = Disk(modulePath: Option<string>, candidates: seq<Candidate>)
  datatype Candidate = Candidate(absPath: Option<string>, exists_: bool)

  function OrElse(s: string, default_: string): string { if s == "" then default_ else s }

  function OrElsePort(n: int, default_: int): int { if n == 0 then default_ else n }

  /** The first candidate that resolves and exists; "" when there is none. */
  function FirstExisting(cs: seq<Candidate>): string {
    if cs == [] then ""
    else if cs[0].absPath.Some? && cs[0].exists_ then cs[0].absPath.value
    else FirstExisting(cs[1..])
  }

  function Migrations(disk: Disk): string {
    match disk.modulePath
    case Some(p) => p
    case None => FirstExisting(disk.candidates)
  }

  function DefaultDeployment(d: Deployment): Deployment {
    var target := if d.target != "" then d.target else if d.k8s then "k8s" else "local";
    d.(target := target, k8s := target == "k8s",
       skipPortForward := d.skipPortForward || d.imageRegistry != "",
       portForwardAddress := OrElse(d.portForwardAddress, "localhost"))
  }

  function DefaultHost(k8s: bool, host: string, default_: string): string {
    if k8s then OrElse(host, default_) else host
  }

  /** The configuration after applyDefaults. */
  function Defaults(c: Settings, disk: Disk): Settings {
    var deploy := DefaultDeployment(c.deploy);
    c.(deploy := deploy,
       db := c.db.(host := DefaultHost(deploy.k8s, c.db.host, "frkr-db"), port := OrElse(c.db.port, "5432"),
                   user := OrElse(c.db.user, "root"), name := OrElse(c.db.name, "frkr")),
       broker := Broker(DefaultHost(deploy.k8s, c.broker.host, "frkr-redpanda"), OrElse(c.broker.port, "19092")),
       gateways := c.gateways.(ingestPort := OrElsePort(c.gateways.ingestPort, 8082),
                               streamingPort := OrElsePort(c.gateways.streamingPort, 8081)),
       certs := c.certs.(issuerName := OrElse(c.certs.issuerName, "letsencrypt-prod"),
                         issuerServer := OrElse(c.certs.issuerServer, ACME_DIRECTORY)),
       migrationsPath := if c.migrationsPath == "" then Migrations(disk) else c.migrationsPath)
  }

  const ACME_DIRECTORY := "https://acme-v02.api.letsencrypt.org/directory"

  datatype ConfigError = DbHostMissing | BrokerHostMissing | HostsExclusive | HostsNotPaired

  function Validate(c: Settings): Outcome<ConfigError> {
    var d := c.deploy;
    if !d.k8s && c.db.host == "" then Fail(DbHostMissing)
    else if !d.k8s && c.broker.host == "" then Fail(BrokerHostMissing)
    else if d.ingressHost != "" && (d.ingestIngressHost != "" || d.streamingIngressHost != "") then Fail(HostsExclusive)
    else if (d.ingestIngressHost != "") != (d.streamingIngressHost != "") then Fail(HostsNotPaired)
    else Pass
  }

  /** Command-line flags; "" and false mean not given. */
  datatype Flags = Flags(rebuild: bool, target: string, cluster: string, registry: string, noPortForward: bool)

  function Override(c: Settings, f: Flags): Settings {
    var d := c.deploy;
    c.(deploy := d.(rebuild := d.rebuild || f.rebuild,
                    target := OrElse(f.target, d.target), k8s := if f.target != "" then f.target == "k8s" else d.k8s,
                    clusterName := OrElse(f.cluster, d.clusterName),
                    imageRegistry := OrElse(f.registry, d.imageRegistry),
                    skipPortForward := d.skipPortForward || f.noPortForward))
  }

  // -------------------------------------------------------------- the mutable object

  /** FrkrupConfig itself: one field per section of the struct, updated in place. */
  class FrkrupConfig {
    var deploy: Deployment
    var provider: string
    var certs: Certificates
    var db: Database
    var broker: Broker
    var gateways: Gateways
    var oidc: Oidc
    var migrationsPath: string

    ghost function Snapshot(): Settings
      reads this
    {
      Settings(deploy, provider, certs, db, broker, gateways, oidc, migrationsPath)
    }

    constructor (c: Settings)
      ensures Snapshot() == c
    {
      deploy, provider, certs, db := c.deploy, c.provider, c.certs, c.db;
      broker, gateways, oidc, migrationsPath := c.broker, c.gateways, c.oidc, c.migrationsPath;
    }

    method DefaultTarget()
      modifies this`deploy
      ensures deploy == DefaultDeployment(old(deploy)).(portForwardAddress := old(deploy.portForwardAddress))
    {
      if deploy.target == "" {
        if deploy.k8s {
          deploy := deploy.(target := "k8s");
        } else {
          deploy := deploy.(target := "local");
        }
      }
      deploy := deploy.(k8s := deploy.target == "k8s");
      var isRemote := deploy.imageRegistry != "";
      if isRemote && !deploy.skipPortForward {
        deploy := deploy.(skipPortForward := true);
      }
    }

    method DefaultServers()
      modifies this`db, this`broker
      ensures db == old(db.(host := DefaultHost(deploy.k8s, db.host, "frkr-db"), port := OrElse(db.port, "5432"),
                            user := OrElse(db.user, "root"), name := OrElse(db.name, "frkr")))
      ensures broker == old(Broker(DefaultHost(deploy.k8s, broker.host, "frkr-redpanda"), OrElse(broker.port, "19092")))
    {
      if db.host == "" && deploy.k8s {
        db := db.(host := "frkr-db");
      }
      if broker.host == "" && deploy.k8s {
        broker := broker.(host := "frkr-redpanda");
      }
      if db.port == "" {
        db := db.(port := "5432");
      }
      if db.user == "" {
        db := db.(user := "root");
      }
      if db.name == "" {
        db := db.(name := "frkr");
      }
      if broker.port == "" {
        broker := broker.(port := "19092");
      }
    }

    method DefaultAddresses()
      modifies this`gateways, this`deploy, this`certs
      ensures gateways == old(gateways.(ingestPort := OrElsePort(gateways.ingestPort, 8082),
                                        streamingPort := OrElsePort(gateways.streamingPort, 8081)))
      ensures deploy == old(deploy.(portForwardAddress := OrElse(deploy.portForwardAddress, "localhost")))
      ensures certs == old(certs.(issuerName := OrElse(certs.issuerName, "letsencrypt-prod"),
                                  issuerServer := OrElse(certs.issuerServer, ACME_DIRECTORY)))
    {
      if gateways.ingestPort == 0 {
        gateways := gateways.(ingestPort := 8082);
      }
      if gateways.streamingPort == 0 {
        gateways := gateways.(streamingPort := 8081);
      }
      if deploy.portForwardAddress == "" {
        deploy := deploy.(portForwardAddress := "localhost");
      }
      if certs.issuerName == "" {
        certs := certs.(issuerName := "letsencrypt-prod");
      }
      if certs.issuerServer == "" {
        certs := certs.(issuerServer := ACME_DIRECTORY);
      }
    }

    method FindMigrations(disk: Disk)
      requires migrationsPath == ""
      modifies this`migrationsPath
      ensures migrationsPath == Migrations(disk)
    {
      if disk.modulePath.Some? {
        migrationsPath := disk.modulePath.value;
        return;
      }
      var i := 0;
      while i < |disk.candidates|
        invariant 0 <= i <= |disk.candidates|
        invariant migrationsPath == ""
        invariant FirstExisting(disk.candidates) == FirstExisting(disk.candidates[i..])
      {
        var c := disk.candidates[i];
        assert disk.candidates[i..][1..] == disk.candidates[i + 1..];
        if c.absPath.Some? && c.exists_ {
          migrationsPath := c.absPath.value;
          return;
        }
        i := i + 1;
      }
    }

    method ApplyDefaults(disk: Disk)
      modifies this
      ensures Snapshot() == Defaults(old(Snapshot()), disk)
    {
      DefaultTarget();
      DefaultServers();
      DefaultAddresses();
      if migrationsPath == "" {
        FindMigrations(disk);
      }
    }

    method ApplyTargetFlags(f: Flags)
      modifies this`deploy
      ensures
        var d := old(deploy);
        deploy == d.(rebuild := d.rebuild || f.rebuild, skipPortForward := d.skipPortForward || f.noPortForward,
                     target := OrElse(f.target, d.target), k8s := if f.target != "" then f.target == "k8s" else d.k8s)
    {
      if f.rebuild {
        deploy := deploy.(rebuild := true);
      }
      if f.target != "" {
        deploy := deploy.(target := f.target, k8s := f.target == "k8s");
      }
      if f.noPortForward {
        deploy := deploy.(skipPortForward := true);
      }
    }

    method ApplyFlags(f: Flags)
      modifies this`deploy
      ensures Snapshot() == Override(old(Snapshot()), f)
    {
      ApplyTargetFlags(f);
      if f.cluster != "" {
        deploy := deploy.(clusterName := f.cluster);
      }
      if f.registry != "" {
        deploy := deploy.(imageRegistry := f.registry);
      }
    }

    /** determineClusterName; None when kubectl has no current context. */
    method DetermineClusterName(currentContext: Option<string>) returns (ok: bool)
      modifies this`deploy
      ensures ok <==> currentContext.Some? && old(deploy).clusterName in ["", currentContext.value]
      ensures deploy == if ok then old(deploy).(clusterName := currentContext.value) else old(deploy)
    {
      if currentContext.None? {
        return false;
      }
      if deploy.clusterName != "" {
        return currentContext.value == deploy.clusterName;
      }
      deploy := deploy.(clusterName := currentContext.value);
      ok := true;
    }
  }

  // ------------------------------------------------------------------- the pipeline

  /** Applying the defaults again changes nothing, and K8s is set exactly for the target "k8s". */
  lemma DefaultsIdempotent(c: Settings, disk: Disk)
    ensures Defaults(Defaults(c, disk), disk) == Defaults(c, disk)
    ensures Defaults(c, disk).deploy.k8s <==> Defaults(c, disk).deploy.target == "k8s"
  {
  }

  /** A given value wins over its default, and the defaults leave no required field empty. */
  lemma DefaultsKeepGivenValues(c: Settings, disk: Disk)
    ensures
      var d := Defaults(c, disk);
      && (c.deploy.target != "" ==> d.deploy.target == c.deploy.target) && d.deploy.target != ""
      && (c.db.host != "" ==> d.db.host == c.db.host)
      && (c.broker.host != "" ==> d.broker.host == c.broker.host)
      && (d.deploy.k8s ==> d.db.host != "" && d.broker.host != "")
      && d.db.port != "" && d.db.user != "" && d.db.name != "" && d.broker.port != ""
      && d.gateways.ingestPort != 0 && d.gateways.streamingPort != 0
      && (c.deploy.imageRegistry != "" ==> d.deploy.skipPortForward)
  {
  }

  /** The target of each pair of target and k8s, and the K8s flag it brings. */
  lemma TargetExactly(d: Deployment)
    ensures
      var r := DefaultDeployment(d);
      && (d.target != "" ==> r.target == d.target)
      && (d.target == "" && d.k8s ==> r.target == "k8s" && r.k8s)
      && (d.target == "" && !d.k8s ==> r.target == "local" && !r.k8s)
      && (r.k8s <==> r.target == "k8s")
      && (r.skipPortForward <==> d.skipPortForward || d.imageRegistry != "")
      && r.externalAccess == d.externalAccess && r.clusterName == d.clusterName && r.rebuild == d.rebuild
  {
  }

  /** A field after the defaults: the given value, or the default where none was given. */
  predicate Filled(given: string, default_: string, r: string) {
    (given != "" ==> r == given) && (given == "" ==> r == default_)
  }

  /** Every default, by value. */
  lemma DefaultsSpelledOut(c: Settings, disk: Disk)
    ensures
      var d := Defaults(c, disk);
      && Filled(c.db.port, "5432", d.db.port) && Filled(c.db.user, "root", d.db.user) && Filled(c.db.name, "frkr", d.db.name)
      && Filled(c.db.host, if d.deploy.k8s then "frkr-db" else "", d.db.host) && d.db.password == c.db.password
      && Filled(c.broker.host, if d.deploy.k8s then "frkr-redpanda" else "", d.broker.host)
      && Filled(c.broker.port, "19092", d.broker.port)
      && Filled(c.deploy.portForwardAddress, "localhost", d.deploy.portForwardAddress)
      && Filled(c.certs.issuerName, "letsencrypt-prod", d.certs.issuerName)
      && Filled(c.certs.issuerServer, "https://acme-v02.api.letsencrypt.org/directory", d.certs.issuerServer)
      && d.gateways.ingestPort == (if c.gateways.ingestPort == 0 then 8082 else c.gateways.ingestPort)
      && d.gateways.streamingPort == (if c.gateways.streamingPort == 0 then 8081 else c.gateways.streamingPort)
      && d.oidc == c.oidc && d.provider == c.provider
  {
  }

  /** The migrations: the module's; else the first candidate that resolves and exists; else none. */
  lemma {:induction false} FirstExistingIsFirst(cs: seq<Candidate>, i: nat)
    requires i < |cs| && cs[i].absPath.Some? && cs[i].exists_
    requires forall j: nat :: j < i ==> !(cs[j].absPath.Some? && cs[j].exists_)
    ensures FirstExisting(cs) == cs[i].absPath.value
  {
    if i > 0 {
      assert cs[1..][i - 1] == cs[i];
      forall j: nat | j < i - 1
        ensures !(cs[1..][j].absPath.Some? && cs[1..][j].exists_)
      {
        assert cs[1..][j] == cs[j + 1];
      }
      FirstExistingIsFirst(cs[1..], i - 1);
    }
  }

  /** A given flag wins over the configuration; one that is not given changes nothing. */
  lemma FlagsWin(c: Settings, f: Flags)
    ensures
      var d, r := c.deploy, Override(c, f).deploy;
      && (f.cluster != "" ==> r.clusterName == f.cluster) && (f.cluster == "" ==> r.clusterName == d.clusterName)
      && (f.registry != "" ==> r.imageRegistry == f.registry) && (f.registry == "" ==> r.imageRegistry == d.imageRegistry)
      && (f.target != "" ==> r.target == f.target && (r.k8s <==> f.target == "k8s"))
      && (f.target == "" ==> r.target == d.target && r.k8s == d.k8s)
      && (r.rebuild <==> d.rebuild || f.rebuild) && (r.skipPortForward <==> d.skipPortForward || f.noPortForward)
      && Override(c, f) == c.(deploy := r)
      && r == d.(target := r.target, k8s := r.k8s, clusterName := r.clusterName, imageRegistry := r.imageRegistry,
                 rebuild := r.rebuild, skipPortForward := r.skipPortForward)
  {
  }

  /** A loaded configuration: loadConfigFromFile has applied the defaults and validation has passed. */
  predicate Loaded(c: Settings, raw: Settings, disk: Disk) {
    c == Defaults(raw, disk) && Validate(c) == Pass
  }

  /** Whatever flags are given, including a switch of target either way, a loaded configuration stays valid. */
  lemma OverridesKeepValid(c: Settings, raw: Settings, disk: Disk, f: Flags)
    requires Loaded(c, raw, disk)
    ensures Validate(Override(c, f)) == Pass
    ensures Override(c, f).deploy.k8s <==> Override(c, f).deploy.target == "k8s"
  {
    DefaultsKeepGivenValues(raw, disk);
  }

  // -------------------------------------------------------------------- addresses

  function EffectiveIngestHost(d: Deployment): string {
    if d.ingestIngressHost != "" then d.ingestIngressHost else d.ingressHost
  }

  function EffectiveStreamingHost(d: Deployment): string {
    if d.streamingIngressHost != "" then d.streamingIngressHost else d.ingressHost
  }

  function IngressScheme(d: Deployment): string {
    if d.ingressTLSSecret != "" then "https" else "http"
  }

  function Digit(n: int): char
    requires 0 <= n < 10
  {
    ('0' as int + n) as char
  }

  /** %d */
  function Decimal(n: int): string
    decreases n < 0, if n < 0 then -n else n
  {
    if n < 0 then "-" + Decimal(-n)
    else if n < 10 then [Digit(n)]
    else Decimal(n / 10) + [Digit(n % 10)]
  }

  function HealthURL(scheme: string, authority: string): string {
    scheme + "://" + authority + "/health"
  }

  function HostPort(host: string, port: int): string {
    OrElse(host, "localhost") + ":" + Decimal(port)
  }

  function IngestGatewayURL(c: Settings): string {
    var d := c.deploy;
    if d.k8s && d.externalAccess == "ingress" && EffectiveIngestHost(d) != "" then
      HealthURL(IngressScheme(d), EffectiveIngestHost(d))
    else HealthURL("http", HostPort(c.gateways.ingestHost, c.gateways.ingestPort))
  }

  function StreamingGatewayURL(c: Settings): string {
    var d := c.deploy;
    if d.k8s && d.externalAccess == "ingress" && EffectiveIngestHost(d) != "" then
      HealthURL(IngressScheme(d), EffectiveIngestHost(d))
    else
      HealthURL("http", HostPort(c.gateways.streamingHost,
                                 if d.k8s then c.gateways.streamingPort else c.gateways.streamingPort + 1000))
  }

  /** A configuration is valid exactly when local mode has its hosts and the ingress hosts are shared, paired or absent. */
  lemma ValidExactly(c: Settings)
    ensures Validate(c) == Pass <==>
      && (c.deploy.k8s || (c.db.host != "" && c.broker.host != ""))
      && (c.deploy.ingestIngressHost == "" <==> c.deploy.streamingIngressHost == "")
      && (c.deploy.ingressHost == "" || c.deploy.ingestIngressHost == "")
  {
  }

  /** The error reported, the first that applies. */
  lemma FirstErrorReported(c: Settings)
    ensures
      var d := c.deploy;
      var mixed, unpaired := d.ingressHost != "" && (d.ingestIngressHost != "" || d.streamingIngressHost != ""),
                             (d.ingestIngressHost == "") != (d.streamingIngressHost == "");
      && (Validate(c) == Fail(DbHostMissing) <==> !d.k8s && c.db.host == "")
      && (Validate(c) == Fail(BrokerHostMissing) <==> !d.k8s && c.db.host != "" && c.broker.host == "")
      && (Validate(c) == Fail(HostsExclusive) ==> mixed)
      && (Validate(c) == Fail(HostsNotPaired) ==> unpaired && !mixed)
      && (d.k8s ==> (Validate(c) == Fail(HostsExclusive) <==> mixed) && (Validate(c) == Fail(HostsNotPaired) <==> unpaired && !mixed))
  {
  }

  /** A host of its own wins over the shared one, and TLS is spoken exactly with a secret. */
  lemma HostsAndScheme(d: Deployment)
    ensures d.ingestIngressHost != "" ==> EffectiveIngestHost(d) == d.ingestIngressHost
    ensures d.ingestIngressHost == "" ==> EffectiveIngestHost(d) == d.ingressHost
    ensures d.streamingIngressHost != "" ==> EffectiveStreamingHost(d) == d.streamingIngressHost
    ensures d.streamingIngressHost == "" ==> EffectiveStreamingHost(d) == d.ingressHost
    ensures d.ingressTLSSecret != "" ==> IngressScheme(d) == "https"
    ensures d.ingressTLSSecret == "" ==> IngressScheme(d) == "http"
  {
  }

  /** The effective hosts of a valid configuration come together, and are the shared host or the pair, never a mixture. */
  lemma EffectiveHostsTogether(c: Settings)
    requires Validate(c) == Pass
    ensures EffectiveIngestHost(c.deploy) == "" <==> EffectiveStreamingHost(c.deploy) == ""
    ensures (EffectiveIngestHost(c.deploy), EffectiveStreamingHost(c.deploy)) == (c.deploy.ingressHost, c.deploy.ingressHost)
         || (EffectiveIngestHost(c.deploy), EffectiveStreamingHost(c.deploy))
            == (c.deploy.ingestIngressHost, c.deploy.streamingIngressHost)
  {
  }

  // ------------------------------------------------- when the two health checks coincide

  function DigitValue(c: char): int {
    if '0' <= c <= '9' then c as int - '0' as int else 0
  }

  /** Reads a decimal numeral back. */
  function Parse(s: string): int {
    if s == "" then 0
    else if s[0] == '-' then -Parse(s[1..])
    else Parse(s[..|s| - 1]) * 10 + DigitValue(s[|s| - 1])
  }

  lemma DigitRoundTrip(n: int)
    requires 0 <= n < 10
    ensures DigitValue(Digit(n)) == n && Digit(n) != '-'
  {
  }

  lemma {:induction false} NaturalRoundTrip(n: nat)
    ensures Decimal(n) != "" && Decimal(n)[0] != '-' && Parse(Decimal(n)) == n
  {
    DigitRoundTrip(n % 10);
    var s := Decimal(n);
    if n >= 10 {
      NaturalRoundTrip(n / 10);
      assert s == Decimal(n / 10) + [Digit(n % 10)];
      assert s[..|s| - 1] == Decimal(n / 10);
    } else {
      assert s == [Digit(n)] && s[..0] == "";
    }
  }

  lemma DecimalRoundTrip(n: int)
    ensures Parse(Decimal(n)) == n
  {
    if n < 0 {
      NaturalRoundTrip(-n);
      assert Decimal(n)[1..] == Decimal(-n);
    } else {
      NaturalRoundTrip(n);
    }
  }

  lemma {:induction false} NoColon(n: int)
    ensures ':' !in Decimal(n)
    decreases n < 0, if n < 0 then -n else n
  {
    if n < 0 {
      NoColon(-n);
    } else if n >= 10 {
      NoColon(n / 10);
    }
  }

  /** The last colon separates host and port. */
  lemma LastColon(x: string, a: string, y: string, b: string)
    requires ':' !in a && ':' !in b
    ensures x + [':'] + a == y + [':'] + b <==> x == y && a == b
  {
    var s, t := x + [':'] + a, y + [':'] + b;
    if |s| == |t| && |a| < |b| {
      assert s[|x|] == ':' && t[|x|] == b[|x| - |y| - 1];
    } else if |s| == |t| && |b| < |a| {
      assert t[|y|] == ':' && s[|y|] == a[|y| - |x| - 1];
    } else if s == t {
      assert s[..|x|] == x && t[..|y|] == y && s[|x| + 1..] == a && t[|y| + 1..] == b;
    }
  }

  lemma AwayFromIngress(host: string, port: int)
    ensures HealthURL("http", HostPort(host, port)) ==
      "http://" + (if host == "" then "localhost" else host) + ":" + Decimal(port) + "/health"
  {
    var h := if host == "" then "localhost" else host;
    assert "http" + "://" == "http://";
    assert "http://" + (h + ":" + Decimal(port)) == "http://" + h + ":" + Decimal(port);
  }

  lemma BehindIngress(scheme: string, host: string)
    ensures HealthURL(scheme, host) == scheme + "://" + host + "/health"
  {
  }

  /** The health URLs: both at the ingest gateway's host behind an ingress; otherwise at each gateway's own host and port, the streaming gateway's plus 1000 outside Kubernetes. */
  lemma HealthURLForms(c: Settings)
    ensures
      if c.deploy.k8s && c.deploy.externalAccess == "ingress" && EffectiveIngestHost(c.deploy) != "" then
        IngestGatewayURL(c) == StreamingGatewayURL(c) ==
          (if c.deploy.ingressTLSSecret != "" then "https" else "http") + "://" + EffectiveIngestHost(c.deploy) + "/health"
      else
        && IngestGatewayURL(c) == "http://" + (if c.gateways.ingestHost == "" then "localhost" else c.gateways.ingestHost)
                                  + ":" + Decimal(c.gateways.ingestPort) + "/health"
        && StreamingGatewayURL(c) == "http://" + (if c.gateways.streamingHost == "" then "localhost" else c.gateways.streamingHost)
                                     + ":" + Decimal(c.gateways.streamingPort + if c.deploy.k8s then 0 else 1000) + "/health"
  {
    BehindIngress(IngressScheme(c.deploy), EffectiveIngestHost(c.deploy));
    AwayFromIngress(c.gateways.ingestHost, c.gateways.ingestPort);
    AwayFromIngress(c.gateways.streamingHost, c.gateways.streamingPort + if c.deploy.k8s then 0 else 1000);
  }

  lemma SameMiddle(pre: string, x: string, y: string, post: string)
    ensures pre + x + post == pre + y + post <==> x == y
  {
    if pre + x + post == pre + y + post {
      assert |x| == |y|;
      assert (pre + x + post)[|pre|..|pre| + |x|] == x;
      assert (pre + y + post)[|pre|..|pre| + |y|] == y;
    }
  }

  lemma SameHostPort(g: string, p: int, h: string, q: int)
    ensures HostPort(g, p) == HostPort(h, q) <==> OrElse(g, "localhost") == OrElse(h, "localhost") && p == q
  {
    NoColon(p);
    NoColon(q);
    LastColon(OrElse(g, "localhost"), Decimal(p), OrElse(h, "localhost"), Decimal(q));
    DecimalRoundTrip(p);
    DecimalRoundTrip(q);
  }

  /**
   Behind an ingress host both checks ask the same URL; otherwise they do exactly
   when the gateways share a host and the ports coincide, the streaming gateway's
   local health port being its own port plus 1000.
   */
  lemma HealthURLsCoincide(c: Settings)
    ensures IngestGatewayURL(c) == StreamingGatewayURL(c) <==>
      || (c.deploy.k8s && c.deploy.externalAccess == "ingress" && EffectiveIngestHost(c.deploy) != "")
      || (&& OrElse(c.gateways.ingestHost, "localhost") == OrElse(c.gateways.streamingHost, "localhost")
          && c.gateways.ingestPort == c.gateways.streamingPort + (if c.deploy.k8s then 0 else 1000))
  {
    var port := if c.deploy.k8s then c.gateways.streamingPort else c.gateways.streamingPort + 1000;
    var i, s := HostPort(c.gateways.ingestHost, c.gateways.ingestPort), HostPort(c.gateways.streamingHost, port);
    SameHostPort(c.gateways.ingestHost, c.gateways.ingestPort, c.gateways.streamingHost, port);
    SameMiddle("http" + "://", i, s, "/health");
  }
}
