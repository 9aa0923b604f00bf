/**
 The steps of a Kubernetes deployment (cmd/frkrup/kubernetes.go and helm.go) and
 what it means to run a script of them: in order, until the first fatal failure.
 */
module Scripts {
  import opened Wrappers
  import opened Passwords

  datatype Component = IngestGateway | StreamingGateway | Operator

  datatype Image = BuiltImage(c: Component) | InfraImage(name: string)

  datatype Step =
    | FindKubectl | FindHelm | ClusterInfo
    | CurrentContext | MatchContext(configured: string, active: string)
    | NeedRegistry(registry: string) | FindRepo(c: Component, needed: bool)
    | Build(c: Component) | Push(c: Component) | Pull(name: string) | Load(image: Image)
    | ApplyCRDs | AwaitCRDs
    | InstallEnvoy
    | AdoptCertManagerCRDs | AddJetstackRepo | InstallCertManager
    | FindChart | NoStaleDisk | DrawPassword | WriteValues | EnsureHelmRepos | BuildDependencies
    | UpgradeChart
    | Restart(c: Component)
    | AwaitOperator | AwaitMigrations | AwaitDataPlane
    | PortForward | Announce

  /**
   The answers of one deployment: `ok` for commands that just succeed or fail, the
   rest for those whose output matters.  ok(NoStaleDisk) says that no old Postgres
   disk was found.
   */
  datatype Env = Env(
    ok: Step -> bool, context: Option<string>,
    oldId: Component -> string, newId: Component -> string,
    envoyInstalled: bool, certManagerInstalled: bool,
    random: Option<seq<Byte>>)

  predicate Succeeds(s: Step, env: Env) {
    match s
    case CurrentContext => env.context.Some?
    case MatchContext(configured, active) => configured == "" || configured == active
    case NeedRegistry(registry) => registry != ""
    case DrawPassword => env.random.Some?
    case _ => env.ok(s)
  }

  /** Failures of the other steps are ignored or only reported. */
  predicate Fatal(s: Step) {
    match s
    case FindRepo(_, needed) => needed
    case AwaitCRDs => false
    case AdoptCertManagerCRDs => false
    case AddJetstackRepo => false
    case EnsureHelmRepos => false
    case BuildDependencies => false
    case Restart(_) => false
    case AwaitDataPlane => false
    case PortForward => false
    case Announce => false
    case _ => true
  }

  predicate Passes(s: Step, env: Env) {
    Fatal(s) ==> Succeeds(s, env)
  }

  predicate AllPass(script: seq<Step>, env: Env) {
    forall i :: 0 <= i < |script| ==> Passes(script[i], env)
  }

  /** The steps of the script that are made. */
  function Cut(script: seq<Step>, env: Env): seq<Step> {
    if script == [] then []
    else if Passes(script[0], env) then [script[0]] + Cut(script[1..], env)
    else [script[0]]
  }

  /** One run of a script, appending to a log. */
  predicate Ran(before: seq<Step>, after: seq<Step>, script: seq<Step>, env: Env, ok: bool) {
    after == before + Cut(script, env) && (ok <==> AllPass(script, env))
  }

  lemma AllPassConcat(a: seq<Step>, b: seq<Step>, env: Env)
    ensures AllPass(a + b, env) <==> AllPass(a, env) && AllPass(b, env)
  {
    if AllPass(a + b, env) {
      assert forall i :: 0 <= i < |a| ==> (a + b)[i] == a[i];
      assert forall i :: 0 <= i < |b| ==> (a + b)[|a| + i] == b[i];
    }
  }

  lemma {:induction false} CutConcat(a: seq<Step>, b: seq<Step>, env: Env)
    ensures Cut(a + b, env) == if AllPass(a, env) then a + Cut(b, env) else Cut(a, env)
    ensures AllPass(a, env) ==> Cut(a, env) == a
    ensures AllPass(a + b, env) <==> AllPass(a, env) && AllPass(b, env)
  {
    if a == [] {
      assert a + b == b;
    } else {
      assert (a + b)[1..] == a[1..] + b;
      CutConcat(a[1..], b, env);
      assert a == [a[0]] + a[1..];
      AllPassConcat([a[0]], a[1..], env);
      AllPassConcat(a, b, env);
      if Passes(a[0], env) {
        assert AllPass([a[0]], env);
      } else {
        assert !AllPass(a, env);
      }
    }
  }

  /** A script goes on where the first part passed ... */
  lemma RanThen(l0: seq<Step>, l1: seq<Step>, l2: seq<Step>, a: seq<Step>, b: seq<Step>, env: Env, ok: bool)
    requires Ran(l0, l1, a, env, true) && Ran(l1, l2, b, env, ok)
    ensures Ran(l0, l2, a + b, env, ok)
  {
    CutConcat(a, b, env);
    assert l0 + a + Cut(b, env) == l0 + (a + Cut(b, env));
  }

  /** ... and ends where it failed. */
  lemma RanStops(l0: seq<Step>, l1: seq<Step>, a: seq<Step>, b: seq<Step>, env: Env)
    requires Ran(l0, l1, a, env, false)
    ensures Ran(l0, l1, a + b, env, false)
  {
    CutConcat(a, b, env);
  }

  lemma RanNothing(l: seq<Step>, env: Env)
    ensures Ran(l, l, [], env, true)
  {
  }

  /** A run is a prefix of its script: every step but the last passed, and it is the whole script exactly if that last one was reached. */
  lemma {:induction false} RunIsPrefix(script: seq<Step>, env: Env)
    ensures var run := Cut(script, env);
      && run <= script
      && (forall i :: 0 <= i < |run| - 1 ==> Passes(run[i], env))
      && (AllPass(script, env) ==> run == script)
      && (!AllPass(script, env) ==> run != [] && !Passes(run[|run| - 1], env))
  {
    if script != [] {
      RunIsPrefix(script[1..], env);
      assert script == [script[0]] + script[1..];
      AllPassConcat([script[0]], script[1..], env);
      if !Passes(script[0], env) {
        assert !AllPass(script, env);
      } else {
        assert AllPass([script[0]], env);
        var rest := Cut(script[1..], env);
        assert forall i :: 1 <= i < |rest| + 1 ==> ([script[0]] + rest)[i] == rest[i - 1];
      }
    }
  }
}
