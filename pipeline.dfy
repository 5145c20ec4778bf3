/**
 * A run of the pipeline generator: the analysis, the optional enrichment, and
 * then the generation steps in their fixed order.  The project tree is a
 * value the generator holds and updates as it writes; which writes raise
 * (permissions, a full disk) is an input.
 */
module Pipeline {
  import opened Wrappers
  import opened Text
  import opened Files
  import opened Config
  import opened Version
  import opened Analyzer
  import opened Jobs
  import opened Terraform
  import opened Enrichment

  const WorkflowDir: Path := [".github", "workflows"]
  const CiCdYml: Path := [".github", "workflows", "ci-cd.yml"]
  const TriggerYml: Path := [".github", "workflows", "ai-generate-workflow.yml"]
  const ReadmeMd: Path := ["README.md"]
  const VersionFile: Path := ["VERSION"]

  /** The values substituted into the README template; `None` prints as `Unknown` or `N/A`. */
  datatype ReadmeFacts = ReadmeFacts(
    frontendFramework: Option<string>,
    frontendPort: Option<nat>,
    backendFramework: Option<string>,
    backendPort: Option<nat>,
    version: string)

  /** A generated file, given by the values substituted into its template. */
  datatype Document =
    | CiCdWorkflow(workflow: Workflow)
    | AiTrigger
    | MainTfDoc(ports: (int, int))
    | UserData
    | VariablesDoc(variables: Variables)
    | OutputsDoc
    | TfvarsDoc(tfvars: Tfvars)
    | ReadmeDoc(facts: ReadmeFacts)
    | VersionDoc(version: string)

  /** An exception raised by a generation step. */
  datatype StepError =
    | JobFailed(jobError: JobError)
    | TerraformFailed(terraformError: TerraformError)
    | ReadError(path: Path)

  /** One thing a step does to the project tree, or the exception it raises before it can. */
  datatype Op = MakeDir(dir: Path) | WriteFile(path: Path, doc: Document) | Raise(error: StepError)

  /** An operation raises: a raise always, a directory or file exactly when its path is faulty. */
  predicate Fails(op: Op, faults: set<Path>) {
    match op
    case MakeDir(dir) => dir in faults
    case WriteFile(path, _) => path in faults
    case Raise(_) => true
  }

  /** The path an operation touches. */
  function Target(op: Op): Option<Path> {
    match op
    case MakeDir(dir) => Some(dir)
    case WriteFile(path, _) => Some(path)
    case Raise(_) => None
  }

  /** Every operation goes through. */
  predicate Completes(ops: seq<Op>, faults: set<Path>) {
    forall i :: 0 <= i < |ops| ==> !Fails(ops[i], faults)
  }

  /** The operations carried out: those before the first that raises. */
  function Executed(ops: seq<Op>, faults: set<Path>): (done: seq<Op>)
    ensures done <= ops
    ensures Completes(done, faults)
  {
    if ops == [] || Fails(ops[0], faults) then []
    else [ops[0]] + Executed(ops[1..], faults)
  }

  lemma ExecutedCons(op: Op, rest: seq<Op>, faults: set<Path>)
    ensures Executed([op] + rest, faults) == if Fails(op, faults) then [] else [op] + Executed(rest, faults)
  {
    assert ([op] + rest)[1..] == rest;
  }

  lemma ExecutedPair(first: Op, second: Op, faults: set<Path>)
    ensures Executed([first] + [second], faults) ==
      if Fails(first, faults) then [] else if Fails(second, faults) then [first] else [first] + [second]
  {
    ExecutedCons(first, [second], faults);
    ExecutedCons(second, [], faults);
  }

  /** The run stops exactly at the first operation that raises, and goes all the way when none does. */
  lemma {:induction false} ExecutedStopsAtFirstFailure(ops: seq<Op>, faults: set<Path>)
    ensures Executed(ops, faults) == ops <==> Completes(ops, faults)
    ensures !Completes(ops, faults) ==>
      |Executed(ops, faults)| < |ops| && Fails(ops[|Executed(ops, faults)|], faults)
  {
    if ops != [] && !Fails(ops[0], faults) {
      ExecutedStopsAtFirstFailure(ops[1..], faults);
      assert Completes(ops, faults) <==> Completes(ops[1..], faults) by {
        forall i | 0 < i < |ops|
          ensures ops[i] == ops[1..][i - 1]
        {
        }
      }
    }
  }

  /** Running two lists one after the other: the second starts only when the first completes. */
  lemma {:induction false} ExecutedAppend(xs: seq<Op>, ys: seq<Op>, faults: set<Path>)
    ensures Completes(xs + ys, faults) <==> Completes(xs, faults) && Completes(ys, faults)
    ensures Executed(xs + ys, faults) == if Completes(xs, faults) then xs + Executed(ys, faults) else Executed(xs, faults)
  {
    assert forall i :: 0 <= i < |xs| ==> (xs + ys)[i] == xs[i];
    assert forall i :: 0 <= i < |ys| ==> (xs + ys)[|xs| + i] == ys[i];
    if xs != [] {
      assert (xs + ys)[1..] == xs[1..] + ys;
      ExecutedAppend(xs[1..], ys, faults);
      if !Fails(xs[0], faults) {
        assert Completes(xs, faults) <==> Completes(xs[1..], faults) by {
          forall i | 0 < i < |xs|
            ensures xs[i] == xs[1..][i - 1]
          {
          }
        }
      }
    } else {
      assert xs + ys == ys;
    }
  }

  /** A step that follows others runs only when they all went through. */
  lemma Then(xs: seq<Op>, ys: seq<Op>, faults: set<Path>)
    ensures Completes(xs + ys, faults) == (Completes(xs, faults) && Completes(ys, faults))
    ensures !Completes(xs, faults) ==> Executed(xs + ys, faults) == Executed(xs, faults)
    ensures Completes(xs, faults) ==> Executed(xs + ys, faults) == Executed(xs, faults) + Executed(ys, faults)
  {
    ExecutedAppend(xs, ys, faults);
    ExecutedStopsAtFirstFailure(xs, faults);
  }

  lemma CompletesAppend(xs: seq<Op>, ys: seq<Op>, faults: set<Path>)
    ensures Completes(xs + ys, faults) == (Completes(xs, faults) && Completes(ys, faults))
  {
    assert forall i :: 0 <= i < |xs| ==> (xs + ys)[i] == xs[i];
    assert forall i :: 0 <= i < |ys| ==> (xs + ys)[|xs| + i] == ys[i];
  }

  lemma ExecutedSingle(op: Op, faults: set<Path>)
    ensures Executed([op], faults) == if Fails(op, faults) then [] else [op]
    ensures Completes([op], faults) == !Fails(op, faults)
  {
    ExecutedCons(op, [], faults);
    assert [op] + [] == [op];
  }

  lemma AppendAssociates<T>(xs: seq<T>, ys: seq<T>, zs: seq<T>)
    ensures xs + ys + zs == xs + (ys + zs)
  {
  }

  /** `entries` with `p` added at the end of the walk when it is new. */
  function Add(entries: seq<Path>, p: Path): (r: seq<Path>)
    ensures forall q :: q in r <==> q in entries || q == p
  {
    if p in entries then entries else entries + [p]
  }

  /**
   * The tree after an operation that goes through.  Only the text of VERSION
   * is recorded; the text of the other generated files is not modelled.
   */
  function Apply(fs: FileSystem, op: Op): FileSystem {
    match op
    case MakeDir(dir) => fs.(entries := Add(fs.entries, dir))
    case WriteFile(path, doc) =>
      fs.(entries := Add(fs.entries, path),
          text := if doc.VersionDoc? then fs.text[path := doc.version] else fs.text - {path},
          json := fs.json - {path})
    case Raise(_) => fs
  }

  function ApplyAll(fs: FileSystem, ops: seq<Op>): FileSystem
    decreases |ops|
  {
    if ops == [] then fs else ApplyAll(Apply(fs, ops[0]), ops[1..])
  }

  lemma {:induction false} ApplyAllAppend(fs: FileSystem, xs: seq<Op>, ys: seq<Op>)
    ensures ApplyAll(fs, xs + ys) == ApplyAll(ApplyAll(fs, xs), ys)
    decreases |xs|
  {
    if xs == [] {
      assert xs + ys == ys;
    } else {
      assert (xs + ys)[1..] == xs[1..] + ys;
      ApplyAllAppend(Apply(fs, xs[0]), xs[1..], ys);
    }
  }

  /** No operation touches `p`. */
  predicate Avoids(ops: seq<Op>, p: Path) {
    forall i :: 0 <= i < |ops| ==> Target(ops[i]) != Some(p)
  }

  lemma AvoidsAppend(xs: seq<Op>, ys: seq<Op>, p: Path)
    requires Avoids(xs, p) && Avoids(ys, p)
    ensures Avoids(xs + ys, p)
  {
    forall i | 0 <= i < |xs + ys|
      ensures (xs + ys)[i] == if i < |xs| then xs[i] else ys[i - |xs|]
    {
    }
  }

  /** Operations on other paths leave a path's existence and text as they were. */
  lemma {:induction false} ApplyAllFrame(fs: FileSystem, ops: seq<Op>, p: Path)
    requires Avoids(ops, p)
    ensures ApplyAll(fs, ops).Exists(p) == fs.Exists(p)
    ensures ApplyAll(fs, ops).ReadText(p) == fs.ReadText(p)
    decreases |ops|
  {
    if ops != [] {
      assert Target(ops[0]) != Some(p);
      assert Avoids(ops[1..], p) by {
        forall i | 0 <= i < |ops| - 1
          ensures ops[1..][i] == ops[i + 1]
        {
        }
      }
      ApplyAllFrame(Apply(fs, ops[0]), ops[1..], p);
      assert Apply(fs, ops[0]).Exists(p) == fs.Exists(p);
    }
  }

  // ----- the steps -----

  /** `_generate_github_workflow`: the directory, then the jobs (which may raise), then `ci-cd.yml`. */
  function WorkflowOps(built: Result<Workflow, JobError>): seq<Op> {
    [MakeDir(WorkflowDir)] + [WorkflowWrite(built)]
  }

  function WorkflowWrite(built: Result<Workflow, JobError>): Op {
    match built
    case Ok(w) => WriteFile(CiCdYml, CiCdWorkflow(w))
    case Err(e) => Raise(JobFailed(e))
  }

  /** `_generate_ai_workflow_trigger`. */
  function TriggerOps(): seq<Op> {
    [MakeDir(WorkflowDir)] + [WriteFile(TriggerYml, AiTrigger)]
  }

  /** `_create_terraform_main`: `main.tf` with the resolved ports, then `user_data.sh`. */
  function MainOps(ports: (int, int)): seq<Op> {
    [WriteFile(MainTf, MainTfDoc(ports))] + [WriteFile(UserDataSh, UserData)]
  }

  /** `_create_terraform_variables`, or the exception building its values raises. */
  function VariablesOps(built: Result<Variables, TerraformError>): seq<Op> {
    match built
    case Ok(v) => [WriteFile(VariablesTf, VariablesDoc(v))]
    case Err(e) => [Raise(TerraformFailed(e))]
  }

  /** `_create_terraform_outputs`: a fixed `outputs.tf`; the ports it reads from the settings are never used. */
  function OutputsOps(): seq<Op> {
    [WriteFile(OutputsTf, OutputsDoc)]
  }

  /** `_create_terraform_tfvars`: `terraform.tfvars` and its example, or the exception building their values raises. */
  function TfvarsOps(built: Result<Tfvars, TerraformError>): seq<Op> {
    match built
    case Ok(t) => [WriteFile(TerraformTfvars, TfvarsDoc(t))] + [WriteFile(TfvarsExample, TfvarsDoc(ExampleOf(t)))]
    case Err(e) => [Raise(TerraformFailed(e))]
  }

  /** The Terraform directory and the files of the four generating steps, from the values they are written with. */
  function TerraformFiles(
    ports: (int, int),
    variables: Result<Variables, TerraformError>,
    tfvars: Result<Tfvars, TerraformError>): seq<Op>
  {
    [MakeDir(TerraformDir)] + MainOps(ports) + VariablesOps(variables) + OutputsOps() + TfvarsOps(tfvars)
  }

  /** `_ensure_terraform_infrastructure`: nothing when it is complete, else the directory and the files in order. */
  function TerraformOps(fs: FileSystem, config: Config, a: Analysis): (ops: seq<Op>)
    ensures ops == [] <==> InfrastructureComplete(fs)
    ensures ops != [] ==> ops[0] == MakeDir(TerraformDir)
  {
    if InfrastructureComplete(fs) then []
    else TerraformFiles(ResolvePorts(config, a), VariablesOf(config), TfvarsOf(config))
  }

  /** Reading VERSION: `None` when it does not exist, an exception when it does not read as text. */
  function VersionOnDisk(fs: FileSystem): Result<Option<string>, StepError> {
    match fs.ReadText(VersionFile)
    case Absent => Ok(None)
    case Unreadable => Err(ReadError(VersionFile))
    case Text(content) => Ok(Some(content))
  }

  /** The values the README reports: framework and port of each component, and the current version. */
  function ReadmeFactsOf(a: Analysis, version: string): (r: ReadmeFacts)
    ensures r.frontendFramework == Some("node") <==> a.frontend.Frontend? && a.frontend.stack.Node?
    ensures r.frontendFramework.None? <==> a.frontend.NoFrontend? || a.frontend.stack.Undetected?
    ensures r.frontendFramework == Some("vanilla-js") <==> a.frontend.Frontend? && a.frontend.stack.VanillaJs?
    ensures r.frontendPort.Some? <==> a.frontend.Frontend?
    ensures a.frontend.Frontend? ==> r.frontendPort == Some(a.frontend.port)
    ensures r.backendFramework.Some? <==> r.backendPort.Some?
    ensures r.backendPort.Some? <==> a.backend.Backend? && a.backend.python.Some?
    ensures r.backendPort.Some? ==>
      r.backendPort.value == a.backend.python.value.port
      && r.backendFramework.value == FrameworkName(a.backend.python.value.framework)
    ensures r.version == version
  {
    ReadmeFacts(
      match a.frontend
      case Frontend(Node(_), _) => Some("node")
      case Frontend(VanillaJs, _) => Some("vanilla-js")
      case _ => None,
      if a.frontend.Frontend? then Some(a.frontend.port) else None,
      if a.backend.Backend? && a.backend.python.Some? then Some(FrameworkName(a.backend.python.value.framework)) else None,
      if a.backend.Backend? && a.backend.python.Some? then Some(a.backend.python.value.port) else None,
      version)
  }

  /** `_update_readme`: the version is read while the text is built, before the file is opened. */
  function ReadmeOps(onDisk: Result<Option<string>, StepError>, a: Analysis): seq<Op> {
    match onDisk
    case Ok(file) => [WriteFile(ReadmeMd, ReadmeDoc(ReadmeFactsOf(a, CurrentVersion(file))))]
    case Err(e) => [Raise(e)]
  }

  /** `_increment_version`. */
  function VersionOps(onDisk: Result<Option<string>, StepError>): seq<Op> {
    match onDisk
    case Ok(file) => [WriteFile(VersionFile, VersionDoc(Bump(CurrentVersion(file))))]
    case Err(e) => [Raise(e)]
  }

  /** The operations of the steps in order: the two workflows, then the Terraform, README and VERSION operations. */
  function Steps(workflow: Result<Workflow, JobError>, terraform: seq<Op>, readme: seq<Op>, version: seq<Op>): seq<Op> {
    WorkflowOps(workflow) + TriggerOps() + terraform + readme + version
  }

  /**
   * The operations the steps attempt, in order, computed from the tree
   * before the run (no step writes a path a later step reads); the run
   * carries out those before the first that raises.
   */
  function Plan(fs: FileSystem, config: Config, a: Analysis): (ops: seq<Op>)
    ensures |ops| >= 5
    ensures ops[..2] == WorkflowOps(BuildWorkflow(config, a))
    ensures ops[|ops| - 1] == VersionOps(VersionOnDisk(fs))[0]
  {
    Steps(BuildWorkflow(config, a), TerraformOps(fs, config, a), ReadmeOps(VersionOnDisk(fs), a), VersionOps(VersionOnDisk(fs)))
  }

  /** Why a run raised instead of returning. */
  datatype RunError = AnalysisFailed(analysisError: AnalysisError) | EnrichmentFailed(enhanceError: EnhanceError)

  /** A run raises (outside the generator's `try`) or returns whether generation succeeded. */
  datatype RunOutcome = Raised(error: RunError) | Finished(success: bool)

  /** The analysis and its enrichment, which run before the `try`: their exceptions escape the run. */
  function Prepare(fs: FileSystem, token: Option<string>, api: ApiOutcome): (r: Result<Enriched, RunError>)
    ensures r.Ok? ==> Analyze(fs).Ok? && r.value.analysis == Analyze(fs).value
  {
    match Analyze(fs)
    case Err(e) => Err(AnalysisFailed(e))
    case Ok(a) =>
      match Enhance(token, AiMode(token), a, api)
      case Err(e) => Err(EnrichmentFailed(e))
      case Ok(enriched) => Ok(enriched)
  }

  /** Operations outside the three Terraform files checked leave the infrastructure as complete as it was. */
  lemma InfrastructureUnaffected(fs: FileSystem, ops: seq<Op>)
    requires Avoids(ops, MainTf) && Avoids(ops, VariablesTf) && Avoids(ops, OutputsTf)
    ensures InfrastructureComplete(ApplyAll(fs, ops)) == InfrastructureComplete(fs)
  {
    ApplyAllFrame(fs, ops, MainTf);
    ApplyAllFrame(fs, ops, VariablesTf);
    ApplyAllFrame(fs, ops, OutputsTf);
  }

  /** Operations outside VERSION leave the version on disk as it was. */
  lemma VersionUnaffected(fs: FileSystem, ops: seq<Op>)
    requires Avoids(ops, VersionFile)
    ensures VersionOnDisk(ApplyAll(fs, ops)) == VersionOnDisk(fs)
  {
    ApplyAllFrame(fs, ops, VersionFile);
  }

  /** The workflow steps touch no Terraform file and not VERSION. */
  lemma WorkflowStepsAvoid(built: Result<Workflow, JobError>)
    ensures Avoids(WorkflowOps(built) + TriggerOps(), MainTf)
    ensures Avoids(WorkflowOps(built) + TriggerOps(), VariablesTf)
    ensures Avoids(WorkflowOps(built) + TriggerOps(), OutputsTf)
    ensures Avoids(WorkflowOps(built) + TriggerOps(), VersionFile)
  {
    var ops := WorkflowOps(built) + TriggerOps();
    assert |ops| == 4;
    assert |MainTf| == |VariablesTf| == |OutputsTf| == |WorkflowDir| == 2 && |VersionFile| == 1;
    assert |MainTf[0]| != |WorkflowDir[0]| && |CiCdYml| == |TriggerYml| == 3;
  }

  lemma AvoidsSingle(op: Op, p: Path)
    requires Target(op) != Some(p)
    ensures Avoids([op], p)
  {
  }

  /** The Terraform files are two levels down, VERSION one. */
  lemma TerraformFilesAvoid(
    ports: (int, int),
    variables: Result<Variables, TerraformError>,
    tfvars: Result<Tfvars, TerraformError>)
    ensures Avoids(TerraformFiles(ports, variables, tfvars), VersionFile)
  {
    assert TerraformDir != VersionFile by {
      assert |VersionFile[0]| != |TerraformDir[0]|;
    }
    var dir, main, vs, os, ts := [MakeDir(TerraformDir)], MainOps(ports), VariablesOps(variables), OutputsOps(), TfvarsOps(tfvars);
    AvoidsSingle(MakeDir(TerraformDir), VersionFile);
    AvoidsAppend(dir, main, VersionFile);
    AvoidsAppend(dir + main, vs, VersionFile);
    AvoidsAppend(dir + main + vs, os, VersionFile);
    AvoidsAppend(dir + main + vs + os, ts, VersionFile);
  }

  /** The Terraform step does not touch VERSION. */
  lemma TerraformStepAvoids(fs: FileSystem, config: Config, a: Analysis)
    ensures Avoids(TerraformOps(fs, config, a), VersionFile)
  {
    TerraformFilesAvoid(ResolvePorts(config, a), VariablesOf(config), TfvarsOf(config));
  }

  /** The README step does not touch VERSION. */
  lemma ReadmeStepAvoids(onDisk: Result<Option<string>, StepError>, a: Analysis)
    ensures Avoids(ReadmeOps(onDisk, a), VersionFile)
  {
    assert ReadmeMd[0] != VersionFile[0] by {
      assert |ReadmeMd[0]| != |VersionFile[0]|;
    }
  }

  // ----- what a run does -----

  /** With a token, a reply without usable recommendations raises before any step; without one, the analysis goes on unchanged. */
  lemma EnrichmentGate(fs: FileSystem, token: Option<string>, api: ApiOutcome)
    requires Analyze(fs).Ok?
    ensures !AiMode(token) ==> Prepare(fs, token, api) == Ok(Enriched(Analyze(fs).value, None))
    ensures AiMode(token) && !Usable(api) ==> Prepare(fs, token, api).Err? && Prepare(fs, token, api).error.EnrichmentFailed?
    ensures AiMode(token) && Usable(api) ==> Prepare(fs, token, api).Ok? && Prepare(fs, token, api).value.recommendations.Some?
  {
    AiModeMakesFailureFatal(token, Analyze(fs).value, api);
  }

  /** The files the operations write, in order. */
  function Written(ops: seq<Op>): seq<Path> {
    if ops == [] then []
    else (if ops[0].WriteFile? then [ops[0].path] else []) + Written(ops[1..])
  }

  lemma {:induction false} WrittenAppend(xs: seq<Op>, ys: seq<Op>)
    ensures Written(xs + ys) == Written(xs) + Written(ys)
  {
    if xs == [] {
      assert xs + ys == ys;
    } else {
      assert (xs + ys)[1..] == xs[1..] + ys;
      WrittenAppend(xs[1..], ys);
    }
  }

  lemma WrittenSingle(op: Op)
    ensures Written([op]) == if op.WriteFile? then [op.path] else []
  {
    assert [op][1..] == [];
  }

  lemma WrittenPair(first: Op, second: Op)
    ensures Written([first] + [second]) == Written([first]) + Written([second])
  {
    WrittenAppend([first], [second]);
  }

  lemma CompletesPair(first: Op, second: Op, faults: set<Path>)
    ensures Completes([first] + [second], faults) == (!Fails(first, faults) && !Fails(second, faults))
  {
    Then([first], [second], faults);
    ExecutedSingle(first, faults);
    ExecutedSingle(second, faults);
  }

  /** The Terraform files are written in their fixed order when their values can be built. */
  lemma TerraformFilesWritten(
    ports: (int, int),
    variables: Result<Variables, TerraformError>,
    tfvars: Result<Tfvars, TerraformError>)
    requires variables.Ok? && tfvars.Ok?
    ensures Written(TerraformFiles(ports, variables, tfvars)) == GeneratedFiles
  {
    var dir, main, vs, os, ts := [MakeDir(TerraformDir)], MainOps(ports), VariablesOps(variables), OutputsOps(), TfvarsOps(tfvars);
    assert Written(dir) == [] by {
      WrittenSingle(dir[0]);
    }
    assert Written(main) == [MainTf, UserDataSh] by {
      WrittenPair(main[0], main[1]);
      WrittenSingle(main[0]);
      WrittenSingle(main[1]);
    }
    assert Written(vs) == [VariablesTf] by {
      WrittenSingle(vs[0]);
    }
    assert Written(os) == [OutputsTf] by {
      WrittenSingle(os[0]);
    }
    assert Written(ts) == [TerraformTfvars, TfvarsExample] by {
      WrittenPair(ts[0], ts[1]);
      WrittenSingle(ts[0]);
      WrittenSingle(ts[1]);
    }
    WrittenAppend(dir, main);
    WrittenAppend(dir + main, vs);
    WrittenAppend(dir + main + vs, os);
    WrittenAppend(dir + main + vs + os, ts);
    assert [] + [MainTf, UserDataSh] + [VariablesTf] + [OutputsTf] + [TerraformTfvars, TfvarsExample] == GeneratedFiles;
  }

  /** When the values cannot be built, `variables.tf` raises after `main.tf` and `user_data.sh` are written. */
  lemma TerraformFilesStop(
    ports: (int, int),
    variables: Result<Variables, TerraformError>,
    tfvars: Result<Tfvars, TerraformError>)
    requires variables.Err?
    ensures Executed(TerraformFiles(ports, variables, tfvars), {}) == [MakeDir(TerraformDir)] + MainOps(ports)
    ensures Written(Executed(TerraformFiles(ports, variables, tfvars), {})) == [MainTf, UserDataSh]
  {
    var dir, main, vs, os, ts := [MakeDir(TerraformDir)], MainOps(ports), VariablesOps(variables), OutputsOps(), TfvarsOps(tfvars);
    assert Completes(dir + main, {});
    ExecutedStopsAtFirstFailure(dir + main, {});
    ExecutedSingle(vs[0], {});
    Then(dir + main, vs, {});
    Then(dir + main + vs, os, {});
    Then(dir + main + vs + os, ts, {});
    assert Written(main) == [MainTf, UserDataSh] by {
      WrittenPair(main[0], main[1]);
      WrittenSingle(main[0]);
      WrittenSingle(main[1]);
    }
    WrittenSingle(dir[0]);
    WrittenAppend(dir, main);
  }

  /** Where no write raises, the Terraform files go through exactly when their values can be built. */
  lemma TerraformFilesComplete(
    ports: (int, int),
    variables: Result<Variables, TerraformError>,
    tfvars: Result<Tfvars, TerraformError>)
    ensures Completes(TerraformFiles(ports, variables, tfvars), {}) <==> variables.Ok? && tfvars.Ok?
  {
    var dir, main, vs, os, ts := [MakeDir(TerraformDir)], MainOps(ports), VariablesOps(variables), OutputsOps(), TfvarsOps(tfvars);
    ExecutedSingle(vs[0], {});
    if tfvars.Ok? {
      CompletesPair(ts[0], ts[1], {});
    } else {
      ExecutedSingle(ts[0], {});
    }
    assert Completes(dir + main, {});
    CompletesAppend(dir + main, vs, {});
    CompletesAppend(dir + main + vs, os, {});
    CompletesAppend(dir + main + vs + os, ts, {});
  }

  /**
   * On an incomplete infrastructure the six files are written in their fixed
   * order; a configuration the values cannot be built from stops the run
   * with `main.tf` and `user_data.sh` written.
   */
  lemma TerraformWrites(fs: FileSystem, config: Config, a: Analysis)
    requires !InfrastructureComplete(fs)
    ensures VariablesOf(config).Ok? ==> Written(TerraformOps(fs, config, a)) == GeneratedFiles
    ensures VariablesOf(config).Err? ==> Written(Executed(TerraformOps(fs, config, a), {})) == [MainTf, UserDataSh]
    ensures Completes(TerraformOps(fs, config, a), {}) <==> VariablesOf(config).Ok?
  {
    var ports, variables, tfvars := ResolvePorts(config, a), VariablesOf(config), TfvarsOf(config);
    GeneratedValues(config);
    if variables.Ok? {
      TerraformFilesWritten(ports, variables, tfvars);
    } else {
      TerraformFilesStop(ports, variables, tfvars);
    }
    TerraformFilesComplete(ports, variables, tfvars);
  }

  /** The README and VERSION steps: one write each when VERSION reads, one exception each when it does not. */
  lemma ReadStepsFacts(onDisk: Result<Option<string>, StepError>, a: Analysis)
    ensures |ReadmeOps(onDisk, a)| == 1 && |VersionOps(onDisk)| == 1
    ensures Completes(ReadmeOps(onDisk, a), {}) == onDisk.Ok? && Completes(VersionOps(onDisk), {}) == onDisk.Ok?
    ensures onDisk.Ok? ==> Written(ReadmeOps(onDisk, a)) + Written(VersionOps(onDisk)) == [ReadmeMd, VersionFile]
  {
    ExecutedSingle(ReadmeOps(onDisk, a)[0], {});
    ExecutedSingle(VersionOps(onDisk)[0], {});
    WrittenSingle(ReadmeOps(onDisk, a)[0]);
    WrittenSingle(VersionOps(onDisk)[0]);
  }

  /** What the steps write when the jobs can be built. */
  lemma StepsWritten(workflow: Result<Workflow, JobError>, terraform: seq<Op>, readme: seq<Op>, version: seq<Op>)
    requires workflow.Ok?
    ensures Written(Steps(workflow, terraform, readme, version)) ==
      [CiCdYml, TriggerYml] + Written(terraform) + (Written(readme) + Written(version))
  {
    var head := WorkflowOps(workflow) + TriggerOps();
    WorkflowFilesWritten(workflow);
    WrittenAppend(head, terraform);
    WrittenAppend(head + terraform, readme);
    WrittenAppend(head + terraform + readme, version);
    AppendAssociates([CiCdYml, TriggerYml] + Written(terraform), Written(readme), Written(version));
  }

  /** The two workflow steps write the workflow file and then the trigger. */
  lemma WorkflowFilesWritten(workflow: Result<Workflow, JobError>)
    requires workflow.Ok?
    ensures Written(WorkflowOps(workflow) + TriggerOps()) == [CiCdYml, TriggerYml]
  {
    var ws, ts := WorkflowOps(workflow), TriggerOps();
    assert Written(ws) == [CiCdYml] by {
      WrittenPair(ws[0], ws[1]);
      WrittenSingle(ws[0]);
      WrittenSingle(ws[1]);
    }
    assert Written(ts) == [TriggerYml] by {
      WrittenPair(ts[0], ts[1]);
      WrittenSingle(ts[0]);
      WrittenSingle(ts[1]);
    }
    WrittenAppend(ws, ts);
  }

  /** Where no write raises, the steps go through exactly when the jobs can be built and every later step goes through. */
  lemma StepsComplete(workflow: Result<Workflow, JobError>, terraform: seq<Op>, readme: seq<Op>, version: seq<Op>)
    ensures Completes(Steps(workflow, terraform, readme, version), {}) <==>
      workflow.Ok? && Completes(terraform, {}) && Completes(readme, {}) && Completes(version, {})
  {
    var ws, ts := WorkflowOps(workflow), TriggerOps();
    assert Completes(ws, {}) == workflow.Ok? by {
      CompletesPair(ws[0], ws[1], {});
    }
    assert Completes(ts, {}) by {
      CompletesPair(ts[0], ts[1], {});
    }
    CompletesAppend(ws, ts, {});
    CompletesAppend(ws + ts, terraform, {});
    CompletesAppend(ws + ts + terraform, readme, {});
    CompletesAppend(ws + ts + terraform + readme, version, {});
  }

  /** A job error stops the steps right after the workflows directory. */
  lemma StepsStopAtJobError(workflow: Result<Workflow, JobError>, terraform: seq<Op>, readme: seq<Op>, version: seq<Op>, faults: set<Path>)
    requires workflow.Err?
    ensures !Completes(Steps(workflow, terraform, readme, version), faults)
    ensures Executed(Steps(workflow, terraform, readme, version), faults) == if WorkflowDir in faults then [] else [MakeDir(WorkflowDir)]
  {
    var ws, ts := WorkflowOps(workflow), TriggerOps();
    ExecutedPair(ws[0], ws[1], faults);
    CompletesPair(ws[0], ws[1], faults);
    Then(ws, ts, faults);
    Then(ws + ts, terraform, faults);
    Then(ws + ts + terraform, readme, faults);
    Then(ws + ts + terraform + readme, version, faults);
  }

  /**
   * When every value can be built and VERSION reads, the run writes, in
   * order, the two workflows, the Terraform files unless the infrastructure
   * is complete, the README and VERSION.
   */
  lemma PlanWrites(fs: FileSystem, config: Config, a: Analysis)
    requires BuildWorkflow(config, a).Ok? && VariablesOf(config).Ok? && VersionOnDisk(fs).Ok?
    ensures Written(Plan(fs, config, a)) ==
      [CiCdYml, TriggerYml] + (if InfrastructureComplete(fs) then [] else GeneratedFiles) + [ReadmeMd, VersionFile]
  {
    var terraform := TerraformOps(fs, config, a);
    var readme, version := ReadmeOps(VersionOnDisk(fs), a), VersionOps(VersionOnDisk(fs));
    TerraformWritten(fs, config, a);
    ReadStepsFacts(VersionOnDisk(fs), a);
    StepsWritten(BuildWorkflow(config, a), terraform, readme, version);
  }

  lemma TerraformWritten(fs: FileSystem, config: Config, a: Analysis)
    requires VariablesOf(config).Ok?
    ensures Written(TerraformOps(fs, config, a)) == if InfrastructureComplete(fs) then [] else GeneratedFiles
  {
    if !InfrastructureComplete(fs) {
      TerraformWrites(fs, config, a);
    }
  }

  /**
   * Where no write raises, the run succeeds exactly when the jobs can be
   * built, the Terraform values can be built or are not needed, and VERSION
   * reads as text.
   */
  lemma SucceedsWithoutFaults(fs: FileSystem, config: Config, a: Analysis)
    ensures Completes(Plan(fs, config, a), {}) <==>
      BuildWorkflow(config, a).Ok? && (InfrastructureComplete(fs) || VariablesOf(config).Ok?) && VersionOnDisk(fs).Ok?
  {
    StepsComplete(BuildWorkflow(config, a), TerraformOps(fs, config, a), ReadmeOps(VersionOnDisk(fs), a), VersionOps(VersionOnDisk(fs)));
    ReadStepsFacts(VersionOnDisk(fs), a);
    if !InfrastructureComplete(fs) {
      TerraformWrites(fs, config, a);
    }
  }

  /** An exception while building the jobs leaves only the workflows directory behind. */
  lemma JobErrorStopsEarly(fs: FileSystem, config: Config, a: Analysis, faults: set<Path>)
    requires BuildWorkflow(config, a).Err?
    ensures !Completes(Plan(fs, config, a), faults)
    ensures Executed(Plan(fs, config, a), faults) == if WorkflowDir in faults then [] else [MakeDir(WorkflowDir)]
  {
    StepsStopAtJobError(BuildWorkflow(config, a), TerraformOps(fs, config, a), ReadmeOps(VersionOnDisk(fs), a), VersionOps(VersionOnDisk(fs)), faults);
  }

  /** Steps that go through and end with the VERSION step leave VERSION holding the bumped version. */
  lemma StepsBumpVersion(fs: FileSystem, workflow: Result<Workflow, JobError>, terraform: seq<Op>, readme: seq<Op>, faults: set<Path>)
    requires Completes(Steps(workflow, terraform, readme, VersionOps(VersionOnDisk(fs))), faults)
    ensures VersionOnDisk(fs).Ok?
    ensures VersionOnDisk(ApplyAll(fs, Steps(workflow, terraform, readme, VersionOps(VersionOnDisk(fs))))) ==
      Ok(Some(Bump(CurrentVersion(VersionOnDisk(fs).value))))
  {
    var onDisk := VersionOnDisk(fs);
    var before := WorkflowOps(workflow) + TriggerOps() + terraform + readme;
    var version := VersionOps(onDisk);
    CompletesAppend(before, version, faults);
    ExecutedSingle(version[0], faults);
    var last := WriteFile(VersionFile, VersionDoc(Bump(CurrentVersion(onDisk.value))));
    ApplyAllAppend(fs, before, [last]);
    assert ApplyAll(ApplyAll(fs, before), [last]) == Apply(ApplyAll(fs, before), last) by {
      assert [last][1..] == [];
    }
  }

  /**
   * A run that goes through has read VERSION, written the README with the
   * version as it was, and left VERSION holding the bumped version.
   */
  lemma SuccessBumpsVersion(fs: FileSystem, config: Config, a: Analysis, faults: set<Path>)
    requires Completes(Plan(fs, config, a), faults)
    ensures VersionOnDisk(fs).Ok?
    ensures WriteFile(ReadmeMd, ReadmeDoc(ReadmeFactsOf(a, CurrentVersion(VersionOnDisk(fs).value)))) in Plan(fs, config, a)
    ensures VersionOnDisk(ApplyAll(fs, Plan(fs, config, a))) == Ok(Some(Bump(CurrentVersion(VersionOnDisk(fs).value))))
  {
    var workflow, terraform, readme := BuildWorkflow(config, a), TerraformOps(fs, config, a), ReadmeOps(VersionOnDisk(fs), a);
    StepsBumpVersion(fs, workflow, terraform, readme, faults);
    var before := WorkflowOps(workflow) + TriggerOps() + terraform;
    assert readme == [WriteFile(ReadmeMd, ReadmeDoc(ReadmeFactsOf(a, CurrentVersion(VersionOnDisk(fs).value))))];
    assert Plan(fs, config, a)[|before|] == readme[0];
  }

  /** A generator, as `PipelineGenerator` holds it: its configuration, its token, and the tree it writes into. */
  class Generator {
    const config: Config
    const token: Option<string>
    const aiModeRequested: bool
    /** The paths whose creation or writing raises. */
    const faults: set<Path>
    var fs: FileSystem
    /** Every operation carried out so far, in order. */
    var done: seq<Op>
    /** The tree before the first operation. */
    ghost const origin: FileSystem

    /** The tree is the original one with the operations carried out so far applied. */
    ghost predicate Valid()
      reads this
    {
      fs == ApplyAll(origin, done) && aiModeRequested == AiMode(token)
    }

    constructor (file: ConfigFile, rawToken: Option<string>, tree: FileSystem, faulty: set<Path>)
      ensures config == ConfigOf(file) && token == NormaliseToken(rawToken) && aiModeRequested == AiMode(token)
      ensures faults == faulty && fs == tree && done == [] && origin == tree
      ensures Valid()
    {
      token := NormaliseToken(rawToken);
      aiModeRequested := AiMode(NormaliseToken(rawToken));
      var loaded := LoadConfig(file);
      config := loaded;
      faults := faulty;
      fs := tree;
      done := [];
      origin := tree;
    }

    /** Carry out one operation, or raise. */
    method Perform(op: Op) returns (ok: bool)
      requires Valid()
      modifies this
      ensures Valid()
      ensures ok == !Fails(op, faults)
      ensures done == if ok then old(done) + [op] else old(done)
    {
      ok := !Fails(op, faults);
      if ok {
        ApplyAllAppend(origin, done, [op]);
        assert ApplyAll(fs, [op]) == Apply(fs, op) by {
          assert [op][1..] == [];
        }
        fs := Apply(fs, op);
        done := done + [op];
      }
    }

    method GenerateGithubWorkflow(a: Analysis) returns (ok: bool)
      requires Valid()
      modifies this
      ensures Valid()
      ensures ok == Completes(WorkflowOps(BuildWorkflow(config, a)), faults)
      ensures done == old(done) + Executed(WorkflowOps(BuildWorkflow(config, a)), faults)
    {
      var workflow := CreateWorkflow(config, a);
      ok := WriteWorkflow(workflow);
    }

    /** The workflow directory, then `ci-cd.yml`, or the exception building the jobs raised. */
    method WriteWorkflow(built: Result<Workflow, JobError>) returns (ok: bool)
      requires Valid()
      modifies this
      ensures Valid()
      ensures ok == Completes(WorkflowOps(built), faults)
      ensures done == old(done) + Executed(WorkflowOps(built), faults)
    {
      ExecutedPair(MakeDir(WorkflowDir), WorkflowWrite(built), faults);
      ExecutedStopsAtFirstFailure(WorkflowOps(built), faults);
      ok := Perform(MakeDir(WorkflowDir));
      if !ok {
        return;
      }
      match built
      case Err(e) =>
        ok := false;
      case Ok(w) =>
        ok := Perform(WriteFile(CiCdYml, CiCdWorkflow(w)));
    }

    method GenerateAiWorkflowTrigger() returns (ok: bool)
      requires Valid()
      modifies this
      ensures Valid()
      ensures ok == Completes(TriggerOps(), faults)
      ensures done == old(done) + Executed(TriggerOps(), faults)
    {
      ExecutedPair(MakeDir(WorkflowDir), WriteFile(TriggerYml, AiTrigger), faults);
      ExecutedStopsAtFirstFailure(TriggerOps(), faults);
      ok := Perform(MakeDir(WorkflowDir));
      if ok {
        ok := Perform(WriteFile(TriggerYml, AiTrigger));
      }
    }

    method CreateTerraformMain(a: Analysis) returns (ok: bool)
      requires Valid()
      modifies this
      ensures Valid()
      ensures ok == Completes(MainOps(ResolvePorts(config, a)), faults)
      ensures done == old(done) + Executed(MainOps(ResolvePorts(config, a)), faults)
    {
      var ports := ResolvePorts(config, a);
      ExecutedPair(WriteFile(MainTf, MainTfDoc(ports)), WriteFile(UserDataSh, UserData), faults);
      ExecutedStopsAtFirstFailure(MainOps(ports), faults);
      ok := Perform(WriteFile(MainTf, MainTfDoc(ports)));
      if ok {
        ok := Perform(WriteFile(UserDataSh, UserData));
      }
    }

    method CreateTerraformVariables() returns (ok: bool)
      requires Valid()
      modifies this
      ensures Valid()
      ensures ok == Completes(VariablesOps(VariablesOf(config)), faults)
      ensures done == old(done) + Executed(VariablesOps(VariablesOf(config)), faults)
    {
      var built := VariablesOf(config);
      ok := WriteVariablesOrRaise(built);
    }

    method WriteVariablesOrRaise(built: Result<Variables, TerraformError>) returns (ok: bool)
      requires Valid()
      modifies this
      ensures Valid()
      ensures ok == Completes(VariablesOps(built), faults)
      ensures done == old(done) + Executed(VariablesOps(built), faults)
    {
      var op := if built.Ok? then WriteFile(VariablesTf, VariablesDoc(built.value)) else Raise(TerraformFailed(built.error));
      assert VariablesOps(built) == [op];
      ExecutedSingle(op, faults);
      if built.Ok? {
        ok := Perform(op);
      } else {
        ok := false;
      }
    }

    method CreateTerraformOutputs() returns (ok: bool)
      requires Valid()
      modifies this
      ensures Valid()
      ensures ok == Completes(OutputsOps(), faults)
      ensures done == old(done) + Executed(OutputsOps(), faults)
    {
      ok := Perform(WriteFile(OutputsTf, OutputsDoc));
      ExecutedSingle(WriteFile(OutputsTf, OutputsDoc), faults);
    }

    method CreateTerraformTfvars() returns (ok: bool)
      requires Valid()
      modifies this
      ensures Valid()
      ensures ok == Completes(TfvarsOps(TfvarsOf(config)), faults)
      ensures done == old(done) + Executed(TfvarsOps(TfvarsOf(config)), faults)
    {
      var built := TfvarsOf(config);
      ok := WriteTfvarsOrRaise(built);
    }

    method WriteTfvarsOrRaise(built: Result<Tfvars, TerraformError>) returns (ok: bool)
      requires Valid()
      modifies this
      ensures Valid()
      ensures ok == Completes(TfvarsOps(built), faults)
      ensures done == old(done) + Executed(TfvarsOps(built), faults)
    {
      if built.Ok? {
        ok := WriteTfvars(built.value);
      } else {
        var op := Raise(TerraformFailed(built.error));
        assert TfvarsOps(built) == [op];
        ExecutedSingle(op, faults);
        ok := false;
      }
    }

    /** `terraform.tfvars`, then the example that differs from it in the key pair and the region. */
    method WriteTfvars(values: Tfvars) returns (ok: bool)
      requires Valid()
      modifies this
      ensures Valid()
      ensures ok == Completes(TfvarsOps(Ok(values)), faults)
      ensures done == old(done) + Executed(TfvarsOps(Ok(values)), faults)
    {
      ExecutedPair(WriteFile(TerraformTfvars, TfvarsDoc(values)), WriteFile(TfvarsExample, TfvarsDoc(ExampleOf(values))), faults);
      ExecutedStopsAtFirstFailure(TfvarsOps(Ok(values)), faults);
      ok := Perform(WriteFile(TerraformTfvars, TfvarsDoc(values)));
      if ok {
        ok := Perform(WriteFile(TfvarsExample, TfvarsDoc(ExampleOf(values))));
      }
    }

    method EnsureTerraformInfrastructure(a: Analysis) returns (ok: bool)
      requires Valid()
      modifies this
      ensures Valid()
      ensures ok == Completes(TerraformOps(old(fs), config, a), faults)
      ensures done == old(done) + Executed(TerraformOps(old(fs), config, a), faults)
    {
      if InfrastructureComplete(fs) {
        return true;
      }
      ghost var before := done;
      ok := Perform(MakeDir(TerraformDir));
      ExecutedSingle(MakeDir(TerraformDir), faults);
      ghost var attempted := [MakeDir(TerraformDir)];
      if ok {
        ok := CreateTerraformMain(a);
      }
      Then(attempted, MainOps(ResolvePorts(config, a)), faults);
      AppendAssociates(before, Executed(attempted, faults), Executed(MainOps(ResolvePorts(config, a)), faults));
      attempted := attempted + MainOps(ResolvePorts(config, a));
      if ok {
        ok := CreateTerraformVariables();
      }
      Then(attempted, VariablesOps(VariablesOf(config)), faults);
      AppendAssociates(before, Executed(attempted, faults), Executed(VariablesOps(VariablesOf(config)), faults));
      attempted := attempted + VariablesOps(VariablesOf(config));
      if ok {
        ok := CreateTerraformOutputs();
      }
      Then(attempted, OutputsOps(), faults);
      AppendAssociates(before, Executed(attempted, faults), Executed(OutputsOps(), faults));
      attempted := attempted + OutputsOps();
      if ok {
        ok := CreateTerraformTfvars();
      }
      Then(attempted, TfvarsOps(TfvarsOf(config)), faults);
      AppendAssociates(before, Executed(attempted, faults), Executed(TfvarsOps(TfvarsOf(config)), faults));
      attempted := attempted + TfvarsOps(TfvarsOf(config));
    }

    method UpdateReadme(a: Analysis) returns (ok: bool)
      requires Valid()
      modifies this
      ensures Valid()
      ensures ok == Completes(ReadmeOps(VersionOnDisk(old(fs)), a), faults)
      ensures done == old(done) + Executed(ReadmeOps(VersionOnDisk(old(fs)), a), faults)
    {
      match VersionOnDisk(fs)
      case Err(e) =>
        ok := false;
        ExecutedSingle(Raise(e), faults);
      case Ok(file) =>
        var doc := ReadmeDoc(ReadmeFactsOf(a, CurrentVersion(file)));
        ok := Perform(WriteFile(ReadmeMd, doc));
        ExecutedSingle(WriteFile(ReadmeMd, doc), faults);
    }

    method IncrementVersion() returns (ok: bool)
      requires Valid()
      modifies this
      ensures Valid()
      ensures ok == Completes(VersionOps(VersionOnDisk(old(fs))), faults)
      ensures done == old(done) + Executed(VersionOps(VersionOnDisk(old(fs))), faults)
    {
      match VersionOnDisk(fs)
      case Err(e) =>
        ok := false;
        ExecutedSingle(Raise(e), faults);
      case Ok(file) =>
        var doc := VersionDoc(Bump(CurrentVersion(file)));
        ok := Perform(WriteFile(VersionFile, doc));
        ExecutedSingle(WriteFile(VersionFile, doc), faults);
    }

    /**
     * `generate_pipeline`: the analysis and the enrichment run first and their
     * exceptions escape; the steps then run in order inside one `try`, the
     * first exception stops the rest, nothing written is undone, and the
     * result says whether every step went through.  The Docker step checks
     * nothing and writes nothing, so it has no operations.
     */
    method GeneratePipeline(api: ApiOutcome) returns (outcome: RunOutcome)
      requires Valid()
      modifies this
      ensures Valid()
      ensures Prepare(old(fs), token, api).Err? ==>
        outcome == Raised(Prepare(old(fs), token, api).error) && done == old(done)
      ensures Prepare(old(fs), token, api).Ok? ==>
        var ops := Plan(old(fs), config, Prepare(old(fs), token, api).value.analysis);
        outcome == Finished(Completes(ops, faults)) && done == old(done) + Executed(ops, faults)
    {
      var analyzed := Analyze(fs);
      if analyzed.Err? {
        return Raised(AnalysisFailed(analyzed.error));
      }
      var enriched := Enhance(token, aiModeRequested, analyzed.value, api);
      if enriched.Err? {
        return Raised(EnrichmentFailed(enriched.error));
      }
      var ok := RunSteps(enriched.value.analysis);
      outcome := Finished(ok);
    }

    /** The steps inside the `try`, in order, each only when those before it went through. */
    method RunSteps(a: Analysis) returns (ok: bool)
      requires Valid()
      modifies this
      ensures Valid()
      ensures ok == Completes(Plan(old(fs), config, a), faults)
      ensures done == old(done) + Executed(Plan(old(fs), config, a), faults)
    {
      ghost var fs0 := fs;
      ghost var before := done;

      ok := GenerateGithubWorkflow(a);
      ghost var attempted := WorkflowOps(BuildWorkflow(config, a));
      if ok {
        ok := GenerateAiWorkflowTrigger();
      }
      Then(attempted, TriggerOps(), faults);
      AppendAssociates(before, Executed(attempted, faults), Executed(TriggerOps(), faults));
      attempted := attempted + TriggerOps();
      WorkflowStepsAvoid(BuildWorkflow(config, a));

      if ok {
        OnlyAttemptedApplied(fs0, before, attempted);
        InfrastructureUnaffected(fs0, attempted);
        ok := EnsureTerraformInfrastructure(a);
      }
      Then(attempted, TerraformOps(fs0, config, a), faults);
      AppendAssociates(before, Executed(attempted, faults), Executed(TerraformOps(fs0, config, a), faults));
      TerraformStepAvoids(fs0, config, a);
      AvoidsAppend(attempted, TerraformOps(fs0, config, a), VersionFile);
      attempted := attempted + TerraformOps(fs0, config, a);

      if ok {
        OnlyAttemptedApplied(fs0, before, attempted);
        VersionUnaffected(fs0, attempted);
        ok := UpdateReadme(a);
      }
      Then(attempted, ReadmeOps(VersionOnDisk(fs0), a), faults);
      AppendAssociates(before, Executed(attempted, faults), Executed(ReadmeOps(VersionOnDisk(fs0), a), faults));
      ReadmeStepAvoids(VersionOnDisk(fs0), a);
      AvoidsAppend(attempted, ReadmeOps(VersionOnDisk(fs0), a), VersionFile);
      attempted := attempted + ReadmeOps(VersionOnDisk(fs0), a);

      if ok {
        OnlyAttemptedApplied(fs0, before, attempted);
        VersionUnaffected(fs0, attempted);
        ok := IncrementVersion();
      }
      Then(attempted, VersionOps(VersionOnDisk(fs0)), faults);
      AppendAssociates(before, Executed(attempted, faults), Executed(VersionOps(VersionOnDisk(fs0)), faults));
      attempted := attempted + VersionOps(VersionOnDisk(fs0));
    }

    /** When every operation attempted so far went through, the tree is the one before them with all of them applied. */
    lemma OnlyAttemptedApplied(fs0: FileSystem, before: seq<Op>, attempted: seq<Op>)
      requires Valid() && fs0 == ApplyAll(origin, before)
      requires Completes(attempted, faults) && done == before + Executed(attempted, faults)
      ensures fs == ApplyAll(fs0, attempted)
    {
      ExecutedStopsAtFirstFailure(attempted, faults);
      ApplyAllAppend(origin, before, attempted);
    }
  }
}
