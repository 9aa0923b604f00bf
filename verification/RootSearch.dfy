/**
 Finding the repositories (cmd/frkrup/frkrup_paths.go): an upward walk to the
 directory that holds .gitmodules, then a submodule below it.  A path is the
 sequence of its components; paths are absolute and [] is the file system's root.
 */
module RootSearch {
  import opened Wrappers

  type Path = seq<string>

  /** filepath.Dir; the root is its own parent. */
  function Dir(p: Path): Path {
    if p == [] then [] else p[..|p| - 1]
  }

  /** What os.Stat finds, before and after "git submodule update", and whether that command succeeds. */
  datatype Disk = Disk(before: Path -> bool, gitOk: bool, after: Path -> bool)

  predicate Marked(disk: Disk, p: Path) {
    disk.before(p + [".gitmodules"])
  }

  datatype PathError = NoWorkingDirectory | NoRoot | UnknownType | SubmoduleInit | StillMissing

  datatype Found = Found(path: Path) | NotFound(error: PathError)

  /** The result of the walk. */
  function NearestRoot(cwd: Path, disk: Disk): Option<Path> {
    if Marked(disk, cwd) then Some(cwd)
    else if cwd == [] then None
    else NearestRoot(Dir(cwd), disk)
  }

  /** root is cwd or an ancestor of it, is marked, and no directory from cwd up to it is. */
  ghost predicate IsNearest(root: Path, cwd: Path, disk: Disk) {
    && root <= cwd && Marked(disk, root)
    && forall p: Path :: root < p <= cwd ==> !Marked(disk, p)
  }

  /** The walk yields the nearest marked directory, and nothing exactly when there is no marked one. */
  lemma {:induction false} NearestRootIsNearest(cwd: Path, disk: Disk)
    ensures forall root: Path :: NearestRoot(cwd, disk) == Some(root) <==> IsNearest(root, cwd, disk)
    ensures NearestRoot(cwd, disk).None? <==> forall p: Path :: p <= cwd ==> !Marked(disk, p)
  {
    forall p: Path | Marked(disk, p)
      ensures p <= cwd <==> p == cwd || (cwd != [] && p <= Dir(cwd))
    {
      if p <= cwd && p != cwd {
        assert |p| < |cwd|;
      }
    }
    if !Marked(disk, cwd) && cwd != [] {
      NearestRootIsNearest(Dir(cwd), disk);
      forall root: Path
        ensures IsNearest(root, cwd, disk) <==> IsNearest(root, Dir(cwd), disk)
      {
        if IsNearest(root, Dir(cwd), disk) {
          assert root <= cwd;
        }
        if IsNearest(root, cwd, disk) {
          assert root != cwd;
        }
      }
    }
  }

  function GatewayRepo(gatewayType: string): Option<string> {
    match gatewayType
    case "ingest" => Some("frkr-ingest-gateway")
    case "streaming" => Some("frkr-streaming-gateway")
    case "operator" => Some("frkr-operator")
    case _ => None
  }

  function InfraRepo(infraType: string): Option<string> {
    match infraType
    case "helm" => Some("frkr-infra-helm")
    case "docker" => Some("frkr-infra-docker")
    case _ => None
  }

  /** The repositories by name; every other type is unknown. */
  lemma Repositories(t: string)
    ensures GatewayRepo("ingest") == Some("frkr-ingest-gateway")
    ensures GatewayRepo("streaming") == Some("frkr-streaming-gateway")
    ensures GatewayRepo("operator") == Some("frkr-operator")
    ensures GatewayRepo(t).None? <==> t != "ingest" && t != "streaming" && t != "operator"
    ensures InfraRepo("helm") == Some("frkr-infra-helm") && InfraRepo("docker") == Some("frkr-infra-docker")
    ensures InfraRepo(t).None? <==> t != "helm" && t != "docker"
  {
  }

  /** There already, or fetched by git. */
  predicate Available(p: Path, disk: Disk) {
    disk.before(p) || (disk.gitOk && disk.after(p))
  }

  /**
   What both searches promise: the submodule of the nearest root, exactly when the
   working directory is known, a root exists, the type is known and the submodule
   is there or can be fetched.
   */
  ghost predicate Located(r: Found, cwd: Option<Path>, repo: Option<string>, marker: Path, disk: Disk) {
    && (r == NotFound(NoWorkingDirectory) <==> cwd.None?)
    && (cwd.Some? ==>
          var root := NearestRoot(cwd.value, disk);
          && (r == NotFound(NoRoot) <==> root.None?)
          && (root.Some? ==>
                && (r == NotFound(UnknownType) <==> repo.None?)
                && (repo.Some? ==>
                      var sub := root.value + [repo.value];
                      && (r == Found(sub) <==> Available(sub + marker, disk))
                      && (r.Found? ==> r.path == sub)
                      && (r == NotFound(SubmoduleInit) <==> !disk.before(sub + marker) && !disk.gitOk))))
  }

  method FindGatewayRepoPath(cwd: Option<Path>, gatewayType: string, disk: Disk) returns (r: Found)
    ensures Located(r, cwd, GatewayRepo(gatewayType), ["go.mod"], disk)
  {
    if cwd.None? {
      return NotFound(NoWorkingDirectory);
    }
    var toolsRoot := cwd.value;
    while !Marked(disk, toolsRoot)
      invariant NearestRoot(toolsRoot, disk) == NearestRoot(cwd.value, disk)
      decreases |toolsRoot|
    {
      var parent := Dir(toolsRoot);
      if parent == toolsRoot {
        return NotFound(NoRoot);
      }
      toolsRoot := parent;
    }
    var repoName;
    if gatewayType == "ingest" {
      repoName := "frkr-ingest-gateway";
    } else if gatewayType == "streaming" {
      repoName := "frkr-streaming-gateway";
    } else if gatewayType == "operator" {
      repoName := "frkr-operator";
    } else {
      return NotFound(UnknownType);
    }
    var submodulePath := toolsRoot + [repoName];
    var goModPath := submodulePath + ["go.mod"];
    var exists_ := disk.before(goModPath);
    if !exists_ {
      if !disk.gitOk {
        return NotFound(SubmoduleInit);
      }
      exists_ := disk.after(goModPath);
    }
    if !exists_ {
      return NotFound(StillMissing);
    }
    r := Found(submodulePath);
  }

  method FindInfraRepoPath(cwd: Option<Path>, infraType: string, disk: Disk) returns (r: Found)
    ensures Located(r, cwd, InfraRepo(infraType), [], disk)
  {
    if cwd.None? {
      return NotFound(NoWorkingDirectory);
    }
    var toolsRoot := cwd.value;
    while !Marked(disk, toolsRoot)
      invariant NearestRoot(toolsRoot, disk) == NearestRoot(cwd.value, disk)
      decreases |toolsRoot|
    {
      var parent := Dir(toolsRoot);
      if parent == toolsRoot {
        return NotFound(NoRoot);
      }
      toolsRoot := parent;
    }
    var repoName;
    match infraType {
      case "helm" => repoName := "frkr-infra-helm";
      case "docker" => repoName := "frkr-infra-docker";
      case _ => return NotFound(UnknownType);
    }
    var submodulePath := toolsRoot + [repoName];
    assert submodulePath + [] == submodulePath;
    var exists_ := disk.before(submodulePath);
    if !exists_ {
      if !disk.gitOk {
        return NotFound(SubmoduleInit);
      }
      exists_ := disk.after(submodulePath);
    }
    if !exists_ {
      return NotFound(StillMissing);
    }
    r := Found(submodulePath);
  }

  /** From one working directory the two searches see the same root: what they find are siblings below it, and a missing root fails both. */
  lemma SearchesAgree(cwd: Path, disk: Disk, gatewayType: string, infraType: string, g: Found, i: Found)
    requires Located(g, Some(cwd), GatewayRepo(gatewayType), ["go.mod"], disk)
    requires Located(i, Some(cwd), InfraRepo(infraType), [], disk)
    ensures g == NotFound(NoRoot) <==> i == NotFound(NoRoot)
    ensures g.Found? && i.Found? ==> Dir(g.path) == Dir(i.path) && IsNearest(Dir(g.path), cwd, disk)
  {
    NearestRootIsNearest(cwd, disk);
    var root := NearestRoot(cwd, disk);
    if g.Found? && i.Found? {
      assert Dir(g.path) == root.value && Dir(i.path) == root.value;
    }
  }

  /** Starting deeper, below directories that hold no marker, finds the same root. */
  lemma {:induction false} SameRootFromBelow(cwd: Path, below: Path, disk: Disk)
    requires forall p: Path :: cwd < p <= cwd + below ==> !Marked(disk, p)
    ensures NearestRoot(cwd + below, disk) == NearestRoot(cwd, disk)
    decreases |below|
  {
    if below == [] {
      assert cwd + below == cwd;
    } else {
      var shorter := below[..|below| - 1];
      assert Dir(cwd + below) == cwd + shorter;
      forall p: Path | cwd < p <= cwd + shorter
        ensures !Marked(disk, p)
      {
        assert cwd + shorter <= cwd + below;
      }
      SameRootFromBelow(cwd, shorter, disk);
    }
  }
}
