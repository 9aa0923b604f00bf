/**
 The Helm values tree (cmd/frkrup/helm.go): built by changing nested maps in
 place, and the configuration's database password with it.
 */
module HelmValues {
  import opened Wrappers
  import opened Config
  import opened Passwords

  /** The keys of the tree, one per YAML key written by generateValuesFile. */
  datatype Key =
    | Global | ImageRegistry | ImagePullPolicy | Auth | Type | OidcKey | Issuer | ClientId | ClientSecret | Provider
    | Platform | K8sGatewayAPI | Install | CertManager | Email | IssuerName | IssuerServer
    | Infrastructure | Db | User | Password | Name | DatabaseKey | Port | HostKey | MockOIDC | Enabled
    | Postgres | Provision | Storage | Size | Redpanda
    | DataPlane | IngestGateway | StreamingGateway | ConfigKey | Audience
    | IngressKey | IngestHost | StreamingHost | Tls | SecretName

  datatype Value = Str(s: string) | Flag(b: bool) | Tree(m: map<Key, Value>)

  function At(m: map<Key, Value>, k: Key): Option<Value> {
    if k in m then Some(m[k]) else None
  }

  /** The map at a key; empty when there is none. */
  function Sub(m: map<Key, Value>, k: Key): map<Key, Value> {
    if k in m && m[k].Tree? then m[k].m else map[]
  }

  /** values[k][sub] = x */
  function Put2(m: map<Key, Value>, k: Key, sub: Key, x: Value): map<Key, Value>
    requires k in m && m[k].Tree?
  {
    m[k := Tree(m[k].m[sub := x])]
  }

  // ------------------------------------------------------------------ the pieces

  const MOCK_OIDC_ISSUER := "http://frkr-mock-oidc.default.svc.cluster.local:8080/default"

  /** The issuer the gateways will trust: a real one wins over the mock. */
  function EffectiveIssuer(o: Oidc): Option<string> {
    if o.issuer != "" then Some(o.issuer) else if o.test then Some(MOCK_OIDC_ISSUER) else None
  }

  function WhenSet(s: string): Option<Value> {
    if s != "" then Some(Str(s)) else None
  }

  /** A registry prefix ends in a slash or is empty. */
  function SlashEnded(registry: string): string {
    if registry != "" && registry[|registry| - 1] != '/' then registry + "/" else registry
  }

  method AuthConfig(o: Oidc) returns (auth: map<Key, Value>)
    ensures At(auth, Type) == Some(Str("oidc"))
    ensures At(Sub(auth, OidcKey), Issuer) == (if EffectiveIssuer(o).Some? then Some(Str(EffectiveIssuer(o).value)) else None)
    ensures At(Sub(auth, OidcKey), ClientId) == (if o.issuer != "" then Some(Str(o.clientId)) else None)
    ensures At(Sub(auth, OidcKey), ClientSecret) == (if o.issuer != "" then WhenSet(o.clientSecret) else None)
  {
    auth := map[Type := Str("oidc"), OidcKey := Tree(map[])];
    if o.issuer != "" {
      auth := auth[OidcKey := Tree(map[Issuer := Str(o.issuer), ClientId := Str(o.clientId)])];
      if o.clientSecret != "" {
        auth := Put2(auth, OidcKey, ClientSecret, Str(o.clientSecret));
      }
    } else if o.test {
      auth := auth[OidcKey := Tree(map[Issuer := Str(MOCK_OIDC_ISSUER)])];
    }
  }

  /** ingress: hosts and TLS as configured. */
  predicate IngressAgrees(ingress: map<Key, Value>, c: Settings) {
    var d := c.deploy;
    && At(ingress, HostKey) == WhenSet(d.ingressHost)
    && At(ingress, IngestHost) == WhenSet(d.ingestIngressHost)
    && At(ingress, StreamingHost) == WhenSet(d.streamingIngressHost)
    && (Tls in ingress <==> d.ingressTLSSecret != "" || c.certs.install)
    && At(Sub(ingress, Tls), Enabled) == (if Tls in ingress then Some(Flag(true)) else None)
    && At(Sub(ingress, Tls), SecretName) == WhenSet(d.ingressTLSSecret)
  }

  method IngressConfig(c: Settings) returns (ingress: map<Key, Value>)
    ensures IngressAgrees(ingress, c)
  {
    var d := c.deploy;
    ingress := map[];
    if d.ingressHost != "" {
      ingress := ingress[HostKey := Str(d.ingressHost)];
    }
    if d.ingestIngressHost != "" {
      ingress := ingress[IngestHost := Str(d.ingestIngressHost)];
    }
    if d.streamingIngressHost != "" {
      ingress := ingress[StreamingHost := Str(d.streamingIngressHost)];
    }
    if d.ingressTLSSecret != "" || c.certs.install {
      var tls := map[Enabled := Flag(true)];
      if d.ingressTLSSecret != "" {
        tls := tls[SecretName := Str(d.ingressTLSSecret)];
      }
      ingress := ingress[Tls := Tree(tls)];
    }
  }

  /** What the chart provisions, and the credentials. */
  predicate InfrastructureAgrees(infra: map<Key, Value>, c: Settings) {
    && At(Sub(infra, Db), Password) == Some(Str(c.db.password))
    && At(Sub(infra, Db), User) == Some(Str(c.db.user))
    && At(Sub(infra, Db), Name) == Some(Str(c.db.name))
    && At(Sub(infra, Db), HostKey) == (if c.db.host == "frkr-db" then Some(Str("frkr-db")) else None)
    && At(Sub(infra, MockOIDC), Enabled) == Some(Flag(c.oidc.test))
    && At(Sub(infra, Postgres), Provision) == (if c.db.host == "frkr-db" then Some(Flag(true)) else None)
    && At(Sub(Sub(infra, Postgres), Storage), Size) == (if c.db.host == "frkr-db" then Some(Str("10Gi")) else None)
    && At(Sub(infra, Redpanda), Provision) == (if c.broker.host == "frkr-redpanda" then Some(Flag(true)) else None)
  }

  /** The same credentials again, for the data plane. */
  predicate DataPlaneAgrees(plane: map<Key, Value>, c: Settings) {
    && At(Sub(plane, Db), Password) == Some(Str(c.db.password))
    && At(Sub(plane, Db), User) == Some(Str(c.db.user))
    && At(Sub(plane, Db), DatabaseKey) == Some(Str(c.db.name))
    && At(Sub(plane, Db), Port) == Some(Str(c.db.port))
  }

  method InfrastructureConfig(c: Settings) returns (infra: map<Key, Value>)
    ensures InfrastructureAgrees(infra, c)
  {
    var db := map[User := Str(c.db.user), Password := Str(c.db.password), Name := Str(c.db.name)];
    infra := map[Db := Tree(db), MockOIDC := Tree(map[Enabled := Flag(c.oidc.test)])];
    if c.db.host == "frkr-db" {
      infra := infra[Postgres := Tree(map[Provision := Flag(true), Storage := Tree(map[Size := Str("10Gi")])])];
      infra := Put2(infra, Db, HostKey, Str("frkr-db"));
    }
    if c.broker.host == "frkr-redpanda" {
      infra := infra[Redpanda := Tree(map[Provision := Flag(true)])];
    }
  }

  method BaseValues(c: Settings) returns (values: map<Key, Value>)
    ensures values.Keys == {Global, Platform, Infrastructure, DataPlane}
    ensures values[Global].Tree?
    ensures InfrastructureAgrees(Sub(values, Infrastructure), c) && DataPlaneAgrees(Sub(values, DataPlane), c)
    ensures Sub(values, Global).Keys <= {ImageRegistry, ImagePullPolicy}
    ensures At(Sub(values, Global), ImageRegistry) == Some(Str(SlashEnded(c.deploy.imageRegistry)))
    ensures At(Sub(values, Global), ImagePullPolicy) == (if c.deploy.rebuild then Some(Str("Always")) else None)
    ensures values[Platform] == Tree(map[K8sGatewayAPI := Tree(map[Install := Flag(false)])])
  {
    var global: map<Key, Value> := map[ImageRegistry := Str(SlashEnded(c.deploy.imageRegistry))];
    if c.deploy.rebuild {
      global := global[ImagePullPolicy := Str("Always")];
    }
    var infra := InfrastructureConfig(c);
    var db := map[User := Str(c.db.user), Password := Str(c.db.password), DatabaseKey := Str(c.db.name), Port := Str(c.db.port)];
    values := map[
      Global := Tree(global),
      Platform := Tree(map[K8sGatewayAPI := Tree(map[Install := Flag(false)])]),
      Infrastructure := Tree(infra),
      DataPlane := Tree(map[Db := Tree(db)])];
  }

  /** global: the registry and authentication, unless a provider is named, which replaces the whole section. */
  predicate GlobalAgrees(global: map<Key, Value>, c: Settings) {
    if c.provider != "" then global == map[Provider := Str(c.provider)]
    else
      && At(global, ImageRegistry) == Some(Str(SlashEnded(c.deploy.imageRegistry)))
      && At(global, ImagePullPolicy) == (if c.deploy.rebuild then Some(Str("Always")) else None)
      && (Auth in global <==> EffectiveIssuer(c.oidc).Some?)
      && (Auth in global ==>
            var oidc := Sub(Sub(global, Auth), OidcKey);
            && At(oidc, Issuer) == Some(Str(EffectiveIssuer(c.oidc).value))
            && At(oidc, ClientId) == (if c.oidc.issuer != "" then Some(Str(c.oidc.clientId)) else None)
            && At(oidc, ClientSecret) == (if c.oidc.issuer != "" then WhenSet(c.oidc.clientSecret) else None)
            && At(Sub(global, Auth), Type) == Some(Str("oidc")))
  }

  /** The audience a gateway checks. */
  function AudienceOf(values: map<Key, Value>, gateway: Key): Option<Value> {
    At(Sub(Sub(Sub(values, gateway), ConfigKey), Auth), Audience)
  }

  predicate GatewaysAgree(values: map<Key, Value>, c: Settings) {
    var wanted := if c.oidc.issuer != "" then WhenSet(c.oidc.clientId) else None;
    AudienceOf(values, IngestGateway) == wanted && AudienceOf(values, StreamingGateway) == wanted
  }

  predicate PlatformAgrees(platform: map<Key, Value>, c: Settings) {
    && At(Sub(platform, K8sGatewayAPI), Install) == Some(Flag(false))
    && (CertManager in platform <==> c.certs.install)
    && At(Sub(platform, CertManager), IssuerName) == (if c.certs.install then Some(Str(c.certs.issuerName)) else None)
    && At(Sub(platform, CertManager), IssuerServer) == (if c.certs.install then Some(Str(c.certs.issuerServer)) else None)
    && At(Sub(platform, CertManager), Email) == (if c.certs.install then Some(Str(c.certs.email)) else None)
    && At(Sub(platform, CertManager), Install) == (if c.certs.install then Some(Flag(true)) else None)
  }

  /** The sections that later steps leave alone. */
  predicate CoreAgrees(values: map<Key, Value>, c: Settings) {
    && InfrastructureAgrees(Sub(values, Infrastructure), c)
    && DataPlaneAgrees(Sub(values, DataPlane), c)
    && GatewaysAgree(values, c)
  }

  predicate IngressSectionAgrees(values: map<Key, Value>, c: Settings) {
    && (IngressKey in values <==> c.deploy.externalAccess == "ingress")
    && (IngressKey in values ==> IngressAgrees(Sub(values, IngressKey), c))
  }

  /** The tree says what the configuration says. */
  predicate Agrees(values: map<Key, Value>, c: Settings) {
    && CoreAgrees(values, c)
    && GlobalAgrees(Sub(values, Global), c)
    && PlatformAgrees(Sub(values, Platform), c)
    && IngressSectionAgrees(values, c)
  }

  /** The two trees have the same values under every other key. */
  ghost predicate SameBut(values: map<Key, Value>, values0: map<Key, Value>, keys: set<Key>) {
    forall k :: k !in keys ==> At(values, k) == At(values0, k)
  }

  /** values["global"]["auth"] */
  method AddAuth(global0: map<Key, Value>, c: Settings) returns (global: map<Key, Value>)
    requires Auth !in global0 && c.provider == ""
    requires At(global0, ImageRegistry) == Some(Str(SlashEnded(c.deploy.imageRegistry)))
    requires At(global0, ImagePullPolicy) == (if c.deploy.rebuild then Some(Str("Always")) else None)
    ensures GlobalAgrees(global, c)
  {
    global := global0;
    var auth := AuthConfig(c.oidc);
    if c.oidc.issuer != "" || c.oidc.test {
      global := global[Auth := Tree(auth)];
    }
  }

  /** The gateways verify the audience of a real provider's client. */
  method AddAudience(values0: map<Key, Value>, c: Settings) returns (values: map<Key, Value>)
    requires IngestGateway !in values0 && StreamingGateway !in values0
    ensures GatewaysAgree(values, c) && SameBut(values, values0, {IngestGateway, StreamingGateway})
  {
    values := values0;
    if c.oidc.issuer != "" && c.oidc.clientId != "" {
      var gatewayConfig := Tree(map[ConfigKey := Tree(map[Auth := Tree(map[Audience := Str(c.oidc.clientId)])])]);
      values := values[IngestGateway := gatewayConfig];
      values := values[StreamingGateway := gatewayConfig];
    }
  }

  method AddIngress(values0: map<Key, Value>, c: Settings) returns (values: map<Key, Value>)
    requires IngressKey !in values0
    ensures IngressSectionAgrees(values, c) && SameBut(values, values0, {IngressKey})
  {
    values := values0;
    if c.deploy.externalAccess == "ingress" {
      var ingress := IngressConfig(c);
      values := values[IngressKey := Tree(ingress)];
    }
  }

  /** A named provider replaces the whole global section, authentication included. */
  method AddProvider(values0: map<Key, Value>, c: Settings) returns (values: map<Key, Value>)
    requires GlobalAgrees(Sub(values0, Global), c.(provider := ""))
    ensures GlobalAgrees(Sub(values, Global), c) && SameBut(values, values0, {Global})
  {
    values := values0;
    if c.provider != "" {
      values := values[Global := Tree(map[Provider := Str(c.provider)])];
    } else {
      assert c == c.(provider := "");
    }
  }

  method AddCertManager(values0: map<Key, Value>, c: Settings) returns (values: map<Key, Value>)
    requires Platform in values0 && values0[Platform] == BASE_PLATFORM
    ensures PlatformAgrees(Sub(values, Platform), c) && SameBut(values, values0, {Platform})
  {
    values := values0;
    if c.certs.install {
      values := Put2(values, Platform, CertManager,
                     Tree(map[Install := Flag(true), Email := Str(c.certs.email),
                              IssuerName := Str(c.certs.issuerName), IssuerServer := Str(c.certs.issuerServer)]));
    }
  }

  lemma CoreUntouched(values: map<Key, Value>, values0: map<Key, Value>, keys: set<Key>, c: Settings)
    requires CoreAgrees(values0, c) && SameBut(values, values0, keys)
    requires keys !! {Infrastructure, DataPlane, IngestGateway, StreamingGateway}
    ensures CoreAgrees(values, c)
  {
    assert At(values, Infrastructure) == At(values0, Infrastructure) && At(values, DataPlane) == At(values0, DataPlane);
    assert At(values, IngestGateway) == At(values0, IngestGateway);
    assert At(values, StreamingGateway) == At(values0, StreamingGateway);
  }

  const BASE_PLATFORM := Tree(map[K8sGatewayAPI := Tree(map[Install := Flag(false)])])

  method AssembleAuth(c: Settings) returns (values: map<Key, Value>)
    ensures InfrastructureAgrees(Sub(values, Infrastructure), c) && DataPlaneAgrees(Sub(values, DataPlane), c)
    ensures GlobalAgrees(Sub(values, Global), c.(provider := "")) && At(values, Platform) == Some(BASE_PLATFORM)
    ensures IngestGateway !in values && StreamingGateway !in values && IngressKey !in values
  {
    values := BaseValues(c);
    var global := AddAuth(values[Global].m, c.(provider := ""));
    values := values[Global := Tree(global)];
  }

  method AssembleCore(c: Settings) returns (values: map<Key, Value>)
    ensures CoreAgrees(values, c) && GlobalAgrees(Sub(values, Global), c.(provider := ""))
    ensures At(values, Platform) == Some(BASE_PLATFORM) && IngressKey !in values
  {
    var v := AssembleAuth(c);
    values := AddAudience(v, c);
    assert At(values, Infrastructure) == At(v, Infrastructure) && At(values, DataPlane) == At(v, DataPlane);
    assert At(values, Global) == At(v, Global) && At(values, Platform) == At(v, Platform);
    assert At(values, IngressKey) == At(v, IngressKey);
  }

  method AssembleRouting(c: Settings) returns (values: map<Key, Value>)
    ensures CoreAgrees(values, c) && GlobalAgrees(Sub(values, Global), c.(provider := ""))
    ensures At(values, Platform) == Some(BASE_PLATFORM) && IngressSectionAgrees(values, c)
  {
    var v := AssembleCore(c);
    values := AddIngress(v, c);
    CoreUntouched(values, v, {IngressKey}, c);
    assert At(values, Global) == At(v, Global) && At(values, Platform) == At(v, Platform);
  }

  method AssembleGlobal(c: Settings) returns (values: map<Key, Value>)
    ensures CoreAgrees(values, c) && GlobalAgrees(Sub(values, Global), c)
    ensures At(values, Platform) == Some(BASE_PLATFORM) && IngressSectionAgrees(values, c)
  {
    var v := AssembleRouting(c);
    values := AddProvider(v, c);
    CoreUntouched(values, v, {Global}, c);
    assert At(values, Platform) == At(v, Platform) && At(values, IngressKey) == At(v, IngressKey);
  }

  /** The whole tree. */
  method Assemble(c: Settings) returns (values: map<Key, Value>)
    ensures Agrees(values, c)
  {
    var v := AssembleGlobal(c);
    values := AddCertManager(v, c);
    CoreUntouched(values, v, {Platform}, c);
    assert At(values, Global) == At(v, Global) && At(values, IngressKey) == At(v, IngressKey);
  }

  datatype ValuesError = NoRandomness | WriteFailed

  function ProvisionsPostgres(db: Database): bool { db.host == "frkr-db" }

  /** The database section after generateValuesFile; None when it fails for lack of randomness. */
  function WithPassword(db: Database, random: Option<seq<Byte>>): Option<Database> {
    if ProvisionsPostgres(db) && db.password == "" then
      match SecurePassword(random)
      case None => None
      case Some(p) => Some(db.(password := p))
    else Some(db)
  }

  /** generateValuesFile. */
  method GenerateValues(config: FrkrupConfig, random: Option<seq<Byte>>, writeOk: bool)
    returns (values: map<Key, Value>, r: Outcome<ValuesError>)
    requires Draw(random, 16)
    modifies config`db
    ensures r == Fail(NoRandomness) <==> WithPassword(old(config.db), random).None?
    ensures config.db == if WithPassword(old(config.db), random).Some? then WithPassword(old(config.db), random).value else old(config.db)
    ensures r == Pass <==> WithPassword(old(config.db), random).Some? && writeOk
    ensures r == Pass ==> Agrees(values, config.Snapshot())
    ensures r == Pass && ProvisionsPostgres(config.db) ==> config.db.password != ""
  {
    values := map[];
    if config.db.host == "frkr-db" && config.db.password == "" {
      var newPass := SecurePassword(random);
      if newPass.None? {
        return map[], Fail(NoRandomness);
      }
      PasswordShape(16, random.value, random.value);
      config.db := config.db.(password := newPass.value);
    }
    var c := Settings(config.deploy, config.provider, config.certs, config.db, config.broker, config.gateways,
                      config.oidc, config.migrationsPath);
    values := Assemble(c);
    r := if writeOk then Pass else Fail(WriteFailed);
  }

  // ---------------------------------------------------------- agreement across functions

  /** For a valid configuration the tree never mixes routing styles, and its hosts and TLS are those of the health URLs. */
  lemma IngressRoutingIsConsistent(values: map<Key, Value>, c: Settings)
    requires Agrees(values, c) && Validate(c) == Pass && IngressKey in values
    ensures
      var ingress := Sub(values, IngressKey);
      && !(HostKey in ingress && (IngestHost in ingress || StreamingHost in ingress))
      && (IngestHost in ingress <==> StreamingHost in ingress)
      && WhenSet(EffectiveIngestHost(c.deploy)) == (if IngestHost in ingress then At(ingress, IngestHost) else At(ingress, HostKey))
      && WhenSet(EffectiveStreamingHost(c.deploy)) == (if StreamingHost in ingress then At(ingress, StreamingHost) else At(ingress, HostKey))
      && (IngressScheme(c.deploy) == "https" ==> At(Sub(ingress, Tls), Enabled) == Some(Flag(true)))
  {
  }

  /** Authentication is configured exactly when an issuer is known and no provider is named; a real issuer wins over the mock. */
  lemma AuthPresentExactly(values: map<Key, Value>, c: Settings)
    requires Agrees(values, c)
    ensures Auth in Sub(values, Global) <==> c.provider == "" && (c.oidc.issuer != "" || c.oidc.test)
    ensures Auth in Sub(values, Global) && c.oidc.issuer != "" ==>
      At(Sub(Sub(Sub(values, Global), Auth), OidcKey), Issuer) == Some(Str(c.oidc.issuer))
  {
  }

  /** The registry in the tree: empty for none, otherwise with one slash added exactly where the given one ends in none. */
  lemma RegistryEndsInSlash(values: map<Key, Value>, c: Settings)
    requires Agrees(values, c) && c.provider == ""
    ensures
      var given := c.deploy.imageRegistry;
      At(Sub(values, Global), ImageRegistry) ==
        Some(Str(if given == "" then "" else if given[|given| - 1] == '/' then given else given + "/"))
  {
  }

  /** Where the gateways find their issuer, the mock's address written out. */
  lemma IssuerInTree(values: map<Key, Value>, c: Settings)
    requires Agrees(values, c) && c.provider == ""
    ensures At(Sub(Sub(Sub(values, Global), Auth), OidcKey), Issuer) ==
      if c.oidc.issuer != "" then Some(Str(c.oidc.issuer))
      else if c.oidc.test then Some(Str("http://frkr-mock-oidc.default.svc.cluster.local:8080/default"))
      else None
  {
  }

  /** When a password is drawn, and what it is; nothing else of the section changes. */
  lemma PasswordDrawnExactly(db: Database, random: Option<seq<Byte>>)
    requires Draw(random, 16)
    ensures db.host != "frkr-db" || db.password != "" ==> WithPassword(db, random) == Some(db)
    ensures db.host == "frkr-db" && db.password == "" ==>
      if random.None? then WithPassword(db, random) == None
      else WithPassword(db, random) == Some(db.(password := HexEncode(random.value))) && |HexEncode(random.value)| == 16
  {
    if random.Some? {
      HexRoundTrip(random.value);
    }
  }

  /** A second generation keeps the password of the first, whatever randomness it is offered. */
  lemma PasswordIsStable(db: Database, r1: seq<Byte>, r2: Option<seq<Byte>>)
    requires Draw(Some(r1), 16)
    ensures
      var first := WithPassword(db, Some(r1));
      && first.Some? && WithPassword(first.value, r2) == first
      && (ProvisionsPostgres(db) ==> first.value.password != "")
      && (db.password != "" ==> first.value == db)
  {
    PasswordShape(16, r1, r1);
  }

  /** Naming a provider leaves the gateways checking an audience without any authentication configured: exactly when there is also a real issuer with a client. */
  lemma AudienceWithoutAuth(values: map<Key, Value>, c: Settings)
    requires Agrees(values, c)
    ensures (AudienceOf(values, IngestGateway).Some? || AudienceOf(values, StreamingGateway).Some?) && Auth !in Sub(values, Global)
       <==> c.provider != "" && c.oidc.issuer != "" && c.oidc.clientId != ""
    ensures AudienceOf(values, IngestGateway).Some? && Auth in Sub(values, Global) ==>
      AudienceOf(values, IngestGateway) == AudienceOf(values, StreamingGateway)
        == At(Sub(Sub(Sub(values, Global), Auth), OidcKey), ClientId)
  {
  }

  /** Both sections that need the credentials hold these. */
  predicate CredentialsAre(values: map<Key, Value>, db: Database) {
    var infra, plane := Sub(Sub(values, Infrastructure), Db), Sub(Sub(values, DataPlane), Db);
    && At(infra, Password) == At(plane, Password) == Some(Str(db.password))
    && At(infra, User) == At(plane, User) == Some(Str(db.user))
    && At(infra, Name) == At(plane, DatabaseKey) == Some(Str(db.name))
  }

  /**
   Two generations in a row, the second from the configuration the first left:
   both trees hold the same credentials in both sections that need them, with a
   password where Postgres is provisioned, the given one if one was given.
   */
  lemma CredentialsAgree(c: Settings, r1: seq<Byte>, r2: Option<seq<Byte>>, values1: map<Key, Value>, values2: map<Key, Value>)
    requires Draw(Some(r1), 16)
    requires Agrees(values1, c.(db := WithPassword(c.db, Some(r1)).value))
    requires WithPassword(WithPassword(c.db, Some(r1)).value, r2).Some?
    requires Agrees(values2, c.(db := WithPassword(WithPassword(c.db, Some(r1)).value, r2).value))
    ensures
      var db := WithPassword(c.db, Some(r1)).value;
      && CredentialsAre(values1, db) && CredentialsAre(values2, db)
      && (ProvisionsPostgres(c.db) ==> db.password != "")
      && (c.db.password != "" ==> db == c.db)
  {
    PasswordIsStable(c.db, r1, r2);
  }
}
