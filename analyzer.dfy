/**
 * The project analyzer: what the generator learns about the project tree
 * (frontend, backend, infrastructure, Docker and git facets) before it writes
 * anything.
 */
module Analyzer {
  import opened Wrappers
  import opened Text
  import opened Files
  import opened PortScan

  // ----- frameworks -----

  datatype Framework = FastApi | Flask | Django | UnknownFramework

  function FrameworkName(f: Framework): string {
    match f
    case FastApi => "fastapi"
    case Flask => "flask"
    case Django => "django"
    case UnknownFramework => "unknown"
  }

  /** The framework `main.py` names, case-insensitively; FastAPI before Flask before Django. */
  function FrameworkOf(content: string): (f: Framework)
    ensures f == FastApi <==> Contains(Lower(content), "fastapi")
    ensures f == Flask <==> !Contains(Lower(content), "fastapi") && Contains(Lower(content), "flask")
    ensures f == Django <==>
      !Contains(Lower(content), "fastapi") && !Contains(Lower(content), "flask") && Contains(Lower(content), "django")
  {
    var low := Lower(content);
    if Contains(low, "fastapi") then FastApi
    else if Contains(low, "flask") then Flask
    else if Contains(low, "django") then Django
    else UnknownFramework
  }

  /** A file whose read raised; the exception leaves the analysis. */
  datatype AnalysisError = ReadFailed(path: Path)

  const BackendDir: Path := ["backend"]
  const MainPy: Path := ["backend", "main.py"]
  const RequirementsTxt: Path := ["backend", "requirements.txt"]
  const FrontendDir: Path := ["frontend"]
  const PackageJson: Path := ["frontend", "package.json"]
  const IndexHtml: Path := ["frontend", "index.html"]

  /** `_detect_python_framework`: `unknown` without `main.py`; a `main.py` that cannot be read raises. */
  function DetectPythonFramework(fs: FileSystem): (r: Result<Framework, AnalysisError>)
    ensures !fs.Exists(MainPy) ==> r == Ok(UnknownFramework)
    ensures r.Err? <==> fs.ReadText(MainPy).Unreadable?
    ensures fs.ReadText(MainPy).Text? ==> r == Ok(FrameworkOf(fs.text[MainPy]))
  {
    match fs.ReadText(MainPy)
    case Absent => Ok(UnknownFramework)
    case Unreadable => Err(ReadFailed(MainPy))
    case Text(content) => Ok(FrameworkOf(content))
  }

  /** A word that lower-cases to `fastapi`, anywhere in `main.py`, makes it a FastAPI backend. */
  lemma FastApiMention(a: string, word: string, b: string)
    requires Lower(word) == "fastapi"
    ensures FrameworkOf(a + word + b) == FastApi
  {
    LowerConcat(a, word);
    LowerConcat(a + word, b);
    ContainsInfix(Lower(a), "fastapi", Lower(b));
  }

  /** A mention of the framework in any letter case is enough. */
  lemma FrameworkMentionAnyCase(a: string, b: string)
    ensures FrameworkOf(a + "FastAPI" + b) == FastApi
    ensures FrameworkOf(a + "FASTAPI" + b) == FastApi
  {
    assert Lower("FastAPI") == "fastapi";
    FastApiMention(a, "FastAPI", b);
    assert Lower("FASTAPI") == "fastapi";
    FastApiMention(a, "FASTAPI", b);
  }

  // ----- requirements -----

  /** Each piece stripped, the empty ones dropped. */
  function KeepStripped(ps: seq<string>): (r: seq<string>)
    ensures |r| <= |ps|
    ensures forall k :: 0 <= k < |r| ==> r[k] != [] && Trim(r[k]) == r[k]
  {
    if ps == [] then []
    else
      var t := Trim(ps[0]);
      TrimIdempotent(ps[0]);
      (if t != [] then [t] else []) + KeepStripped(ps[1..])
  }

  /** One piece contributes its stripped text, or nothing when that is empty. */
  lemma KeepStrippedSingle(p: string)
    ensures KeepStripped([p]) == if Trim(p) == [] then [] else [Trim(p)]
  {
    assert [p][1..] == [];
  }

  /** Pieces are kept one at a time: the result for a concatenation is the concatenation of the results. */
  lemma {:induction false} KeepStrippedAppend(xs: seq<string>, ys: seq<string>)
    ensures KeepStripped(xs + ys) == KeepStripped(xs) + KeepStripped(ys)
    decreases |xs|
  {
    if xs == [] {
      assert xs + ys == ys;
    } else {
      assert (xs + ys)[0] == xs[0];
      assert (xs + ys)[1..] == xs[1..] + ys;
      KeepStrippedAppend(xs[1..], ys);
    }
  }

  /** The dependency list read from `requirements.txt`: its stripped non-blank lines. */
  function Requirements(text: string): (r: seq<string>)
    ensures forall k :: 0 <= k < |r| ==> r[k] != [] && Trim(r[k]) == r[k] && '\n' !in r[k]
  {
    var lines := Split(Trim(text), '\n');
    KeepStrippedAvoids(lines, '\n');
    KeepStripped(lines)
  }

  /** Stripping adds no character: pieces free of `c` stay free of it. */
  lemma {:induction false} KeepStrippedAvoids(ps: seq<string>, c: char)
    requires forall j :: 0 <= j < |ps| ==> c !in ps[j]
    ensures forall k :: 0 <= k < |KeepStripped(ps)| ==> c !in KeepStripped(ps)[k]
    decreases |ps|
  {
    if ps != [] {
      TrimNoNewChar(ps[0], c);
      KeepStrippedAvoids(ps[1..], c);
    }
  }

  predicate IsRequirement(r: string) {
    r != [] && '\n' !in r && Trim(r) == r
  }

  lemma {:induction false} JoinFirstLast(names: seq<string>)
    requires |names| >= 1 && forall k :: 0 <= k < |names| ==> names[k] != []
    ensures Join(names, '\n') != []
    ensures Join(names, '\n')[0] == names[0][0]
    ensures Join(names, '\n')[|Join(names, '\n')| - 1] == names[|names| - 1][|names[|names| - 1]| - 1]
    decreases |names|
  {
    if |names| > 1 {
      JoinFirstLast(names[1..]);
      assert names[1..][|names[1..]| - 1] == names[|names| - 1];
    }
  }

  /** One clean requirement per line: the joined text has no white space to strip at either end. */
  lemma JoinedRequirementsTrimmed(names: seq<string>)
    requires |names| >= 1 && forall k :: 0 <= k < |names| ==> IsRequirement(names[k])
    ensures Trim(Join(names, '\n')) == Join(names, '\n')
  {
    var text := Join(names, '\n');
    JoinFirstLast(names);
    var first, last := names[0], names[|names| - 1];
    assert IsRequirement(first) && IsRequirement(last);
    assert !IsSpace(text[0]) && !IsSpace(text[|text| - 1]);
    TrimOfTrimmed(text);
  }

  lemma {:induction false} KeepStrippedOfClean(names: seq<string>)
    requires forall k :: 0 <= k < |names| ==> IsRequirement(names[k])
    ensures KeepStripped(names) == names
    decreases |names|
  {
    if names != [] {
      KeepStrippedOfClean(names[1..]);
    }
  }

  /** A list of clean requirement lines, one per line, reads back as itself. */
  lemma RequirementsRoundTrip(names: seq<string>)
    requires forall k :: 0 <= k < |names| ==> IsRequirement(names[k])
    ensures Requirements(Join(names, '\n')) == names
  {
    if names == [] {
      assert Split(Trim(""), '\n') == [""] by {
        TrimOfTrimmed("");
      }
      TrimOfTrimmed("");
    } else {
      assert Split(Trim(Join(names, '\n')), '\n') == names by {
        JoinedRequirementsTrimmed(names);
        SplitJoin(names, '\n');
      }
      KeepStrippedOfClean(names);
    }
  }

  // ----- frontend -----

  /** The two maps read out of a decoded `package.json` object. */
  datatype Manifest = Manifest(dependencies: Json, scripts: Json)

  /**
   * What the frontend is built with: Node when `package.json` decodes (with
   * its manifest only when it decodes to an object: `.get` on anything else
   * raises after the framework is already recorded, and the warning is
   * swallowed); plain JavaScript when there is no `package.json` but an
   * `index.html`; nothing recorded otherwise.
   */
  datatype FrontendStack = Node(manifest: Option<Manifest>) | VanillaJs | Undetected

  datatype FrontendFacet = NoFrontend | Frontend(stack: FrontendStack, port: nat)

  /** The shell commands the analysis records for a frontend stack. */
  datatype Commands = Commands(install: string, lint: string, test: string, build: Option<string>)

  function FrontendCommands(stack: FrontendStack): Option<Commands> {
    match stack
    case Node(Some(_)) => Some(Commands("npm install", "npm run lint", "npm test", Some("npm run build")))
    case VanillaJs => Some(Commands(
      "echo \"No dependencies to install\"", "echo \"No linting configured\"",
      "echo \"No tests defined for vanilla JS\"", Some("echo \"No build step needed\"")))
    case _ => None
  }

  function ManifestOf(j: Json): (r: Option<Manifest>)
    ensures r.Some? <==> j.JObject?
  {
    match j
    case JObject(members) => Some(Manifest(Get(members, "dependencies", JObject([])), Get(members, "scripts", JObject([]))))
    case _ => None
  }

  function FrontendStackOf(fs: FileSystem): (stack: FrontendStack)
    ensures stack.Node? <==> fs.Exists(PackageJson) && PackageJson in fs.json
    ensures stack.VanillaJs? <==> !fs.Exists(PackageJson) && fs.Exists(IndexHtml)
  {
    if fs.Exists(PackageJson) then
      if PackageJson in fs.json then Node(ManifestOf(fs.json[PackageJson])) else Undetected
    else if fs.Exists(IndexHtml) then VanillaJs
    else Undetected
  }

  /** `_analyze_frontend`: the stack and the port, found in the top-level `.js` files or 3000. */
  function AnalyzeFrontend(fs: FileSystem): (r: FrontendFacet)
    ensures r.NoFrontend? <==> !fs.Exists(FrontendDir)
    ensures r.Frontend? ==> r.port == PortFromFiles(fs, fs.Glob(FrontendDir, ".js"), 3000)
  {
    if !fs.Exists(FrontendDir) then NoFrontend
    else Frontend(FrontendStackOf(fs), PortFromFiles(fs, fs.Glob(FrontendDir, ".js"), 3000))
  }

  /** A `package.json` shadows an `index.html`: with one present the frontend is never plain JavaScript. */
  lemma PackageJsonShadowsIndexHtml(fs: FileSystem)
    requires fs.Exists(FrontendDir) && fs.Exists(PackageJson)
    ensures AnalyzeFrontend(fs).stack != VanillaJs
    ensures AnalyzeFrontend(fs).stack.Node? <==> PackageJson in fs.json
  {
  }

  /** The frontend has commands exactly when it is plain JavaScript or a Node project whose manifest is an object. */
  lemma FrontendCommandsPresent(fs: FileSystem)
    requires AnalyzeFrontend(fs).Frontend?
    ensures FrontendCommands(AnalyzeFrontend(fs).stack).Some? <==>
      (!fs.Exists(PackageJson) && fs.Exists(IndexHtml))
      || (fs.Exists(PackageJson) && PackageJson in fs.json && fs.json[PackageJson].JObject?)
  {
  }

  // ----- backend -----

  /** The commands every Python backend is given. */
  const PythonCommands: Commands := Commands("pip install -r requirements.txt", "flake8", "pytest", None)

  datatype PythonBackend = PythonBackend(framework: Framework, dependencies: Option<seq<string>>, port: nat)

  /** A backend directory, with its Python details when it holds `requirements.txt` or `main.py`. */
  datatype BackendFacet = NoBackend | Backend(python: Option<PythonBackend>)

  /** The dependency list: absent without `requirements.txt`; a file that cannot be read raises. */
  function BackendDependencies(fs: FileSystem): (r: Result<Option<seq<string>>, AnalysisError>)
    ensures r == Ok(None) <==> !fs.Exists(RequirementsTxt)
    ensures r.Err? <==> fs.ReadText(RequirementsTxt).Unreadable?
    ensures fs.ReadText(RequirementsTxt).Text? ==> r == Ok(Some(Requirements(fs.text[RequirementsTxt])))
  {
    match fs.ReadText(RequirementsTxt)
    case Absent => Ok(None)
    case Unreadable => Err(ReadFailed(RequirementsTxt))
    case Text(content) => Ok(Some(Requirements(content)))
  }

  /** `_analyze_backend`: framework first, then requirements, then the port from the top-level `.py` files or 8000. */
  function AnalyzeBackend(fs: FileSystem): (r: Result<BackendFacet, AnalysisError>)
    ensures r == Ok(NoBackend) <==> !fs.Exists(BackendDir)
    ensures r == Ok(Backend(None)) <==> fs.Exists(BackendDir) && !fs.Exists(RequirementsTxt) && !fs.Exists(MainPy)
    ensures r.Ok? && r.value.Backend? && r.value.python.Some? ==>
      r.value.python.value.port == PortFromFiles(fs, fs.Glob(BackendDir, ".py"), 8000)
    ensures r.Ok? && r.value.Backend? && r.value.python.Some? ==>
      DetectPythonFramework(fs) == Ok(r.value.python.value.framework)
      && BackendDependencies(fs) == Ok(r.value.python.value.dependencies)
  {
    if !fs.Exists(BackendDir) then Ok(NoBackend)
    else if !fs.Exists(RequirementsTxt) && !fs.Exists(MainPy) then Ok(Backend(None))
    else
      match DetectPythonFramework(fs)
      case Err(e) => Err(e)
      case Ok(framework) =>
        match BackendDependencies(fs)
        case Err(e) => Err(e)
        case Ok(deps) => Ok(Backend(Some(PythonBackend(framework, deps, PortFromFiles(fs, fs.Glob(BackendDir, ".py"), 8000)))))
  }

  /** The backend analysis fails exactly when a Python backend has a `main.py` or `requirements.txt` that cannot be read. */
  lemma BackendFailsOnUnreadable(fs: FileSystem)
    ensures AnalyzeBackend(fs).Err? <==>
      fs.Exists(BackendDir) && (fs.ReadText(MainPy).Unreadable? || fs.ReadText(RequirementsTxt).Unreadable?)
  {
  }

  // ----- infrastructure, Docker, git -----

  const TerraformDir: Path := ["terraform"]

  /** Whether `terraform/` exists, and its top-level `.tf` files when it does. */
  datatype InfrastructureFacet = Infrastructure(terraformExists: bool, terraformFiles: Option<seq<Path>>)

  function AnalyzeInfrastructure(fs: FileSystem): (r: InfrastructureFacet)
    ensures r.terraformExists <==> fs.Exists(TerraformDir)
    ensures r.terraformFiles.Some? <==> r.terraformExists
    ensures r.terraformFiles.Some? ==> forall p :: p in r.terraformFiles.value <==>
      p in fs.entries && |p| == 2 && p[0] == "terraform" && EndsWith(p[1], ".tf")
  {
    if fs.Exists(TerraformDir) then
      var files := fs.Glob(TerraformDir, ".tf");
      assert forall p: Path :: |p| == 2 ==> (p[..1] == TerraformDir <==> p[0] == "terraform") by {
        forall p: Path | |p| == 2
          ensures p[..1] == TerraformDir <==> p[0] == "terraform"
        {
          assert p[..1] == [p[0]];
        }
      }
      Infrastructure(true, Some(files))
    else Infrastructure(false, None)
  }

  datatype DockerFacet = Docker(composeExists: bool, dockerfiles: seq<Path>)

  predicate IsDockerfile(p: Path) {
    p != [] && Name(p) == "Dockerfile"
  }

  /** The paths named `Dockerfile`, at any depth, in walk order. */
  function Dockerfiles(ps: seq<Path>): (r: seq<Path>)
    ensures forall p :: p in r <==> p in ps && IsDockerfile(p)
    ensures |r| <= |ps|
  {
    if ps == [] then []
    else
      var init := ps[..|ps| - 1];
      var last := ps[|ps| - 1];
      assert ps == init + [last];
      Dockerfiles(init) + (if IsDockerfile(last) then [last] else [])
  }

  function DockerFacetOf(fs: FileSystem): DockerFacet {
    Docker(fs.Exists(["docker-compose.yml"]), Dockerfiles(fs.entries))
  }

  /** `_analyze_docker`: the compose file flag, then every `Dockerfile` the walk meets, appended in turn. */
  method AnalyzeDocker(fs: FileSystem) returns (d: DockerFacet)
    ensures d == DockerFacetOf(fs)
  {
    var found: seq<Path> := [];
    for i := 0 to |fs.entries|
      invariant found == Dockerfiles(fs.entries[..i])
    {
      assert fs.entries[..i + 1][..i] == fs.entries[..i];
      if IsDockerfile(fs.entries[i]) {
        found := found + [fs.entries[i]];
      }
    }
    assert fs.entries[..|fs.entries|] == fs.entries;
    d := Docker(fs.Exists(["docker-compose.yml"]), found);
  }

  /** A Dockerfile listed before another is met before it in the walk. */
  lemma {:induction false} DockerfilesKeepWalkOrder(ps: seq<Path>, i: nat, j: nat)
    requires i < j < |Dockerfiles(ps)|
    ensures exists a, b :: 0 <= a < b < |ps| && ps[a] == Dockerfiles(ps)[i] && ps[b] == Dockerfiles(ps)[j]
    decreases |ps|
  {
    var init := ps[..|ps| - 1];
    var last := ps[|ps| - 1];
    var r := Dockerfiles(ps);
    assert r == Dockerfiles(init) + (if IsDockerfile(last) then [last] else []);
    if j < |Dockerfiles(init)| {
      DockerfilesKeepWalkOrder(init, i, j);
      var a, b :| 0 <= a < b < |init| && init[a] == Dockerfiles(init)[i] && init[b] == Dockerfiles(init)[j];
      assert ps[a] == r[i] && ps[b] == r[j];
    } else {
      assert r[j] == last;
      assert r[i] in Dockerfiles(init);
      var a :| 0 <= a < |init| && init[a] == r[i];
      assert ps[a] == r[i] && ps[|ps| - 1] == r[j];
    }
  }

  /** Whether `.git` exists; the branch and remote come from `git` and are not modelled. */
  datatype GitFacet = Git(isRepo: bool)

  // ----- the whole analysis -----

  datatype Analysis = Analysis(
    frontend: FrontendFacet,
    backend: BackendFacet,
    infrastructure: InfrastructureFacet,
    docker: DockerFacet,
    git: GitFacet)

  /** `analyze_project`: the five facets, failing only when the backend analysis raises. */
  function Analyze(fs: FileSystem): (r: Result<Analysis, AnalysisError>)
    ensures r.Err? <==> AnalyzeBackend(fs).Err?
    ensures r.Ok? ==> r.value.frontend == AnalyzeFrontend(fs) && r.value.backend == AnalyzeBackend(fs).value
    ensures r.Ok? ==> r.value.infrastructure == AnalyzeInfrastructure(fs) && r.value.docker == DockerFacetOf(fs)
    ensures r.Ok? ==> (r.value.infrastructure.terraformExists <==> fs.Exists(TerraformDir))
  {
    match AnalyzeBackend(fs)
    case Err(e) => Err(e)
    case Ok(backend) =>
      Ok(Analysis(AnalyzeFrontend(fs), backend, AnalyzeInfrastructure(fs), DockerFacetOf(fs), Git(fs.Exists([".git"]))))
  }
}
