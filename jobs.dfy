/**
 * The three jobs of the generated GitHub Actions workflow (validate, test,
 * deploy) and the workflow that holds them.  Each builder starts from its
 * fixed steps and extends them according to the analysis or the
 * configuration; a lookup the analysis cannot answer raises.
 */
module Jobs {
  import opened Wrappers
  import opened Text
  import opened Config
  import opened Analyzer

  /**
   * A shell script: one line, or a triple-quoted block of lines (which YAML
   * keeps verbatim as a newline, each line indented by twenty spaces and
   * ended, then the closing indentation).
   */
  datatype Script = Line(command: string) | Block(lines: seq<string>)

  /** What a step does: run an action with its `with` inputs, or run a shell script. */
  datatype Action = Uses(action: string, inputs: seq<(string, ConfigValue)>) | Run(script: Script)

  /** A step as the workflow file holds it. */
  datatype RenderedStep = RenderedStep(
    name: string, id: Option<string>, condition: Option<string>, action: Action, continueOnError: bool)

  /**
   * The steps the builders use.  The install, lint and test steps run a
   * command recorded by the analysis inside the component's directory; the
   * notification is sent to the configured recipient.
   */
  datatype Step =
    | Checkout | ValidateYaml | SetupTerraform | TerraformFormatCheck | TerraformValidate
    | SetupPython | SetupNode
    | Install(dir: string, command: string)
    | Lint(dir: string, command: string)
    | Test(dir: string, command: string)
    | ValidateFrontendFiles
    | TerraformInit | TerraformPlan | TerraformApply | DeploymentInfo | WaitForStartup
    | Notify(recipient: ConfigValue)

  datatype Job = Job(name: string, needs: seq<string>, condition: Option<string>, steps: seq<Step>)

  /** The exceptions a builder can raise: a missing analysis key, or `.lower()` on a list. */
  datatype JobError = KeyError(key: string) | AttributeError(typeName: string, attribute: string)

  // ----- rendering -----

  /** The indentation of the lines of a block script. */
  const Indent: string := "                    "

  function BlockLines(lines: seq<string>): string {
    if lines == [] then "" else Indent + lines[0] + "\n" + BlockLines(lines[1..])
  }

  /** The text of a script as the workflow file holds it. */
  function ScriptText(s: Script): string {
    match s
    case Line(command) => command
    case Block(lines) => "\n" + BlockLines(lines) + Indent
  }

  function Plain(name: string, action: Action): RenderedStep {
    RenderedStep(name, None, None, action, false)
  }

  function Tolerant(name: string, action: Action): RenderedStep {
    RenderedStep(name, None, None, action, true)
  }

  /** Each step's name, keys and script, as the builders write them. */
  function Render(step: Step): RenderedStep {
    match step
    case Checkout => Plain("Checkout code", Uses("actions/checkout@v4", []))
    case ValidateYaml => Plain("Validate YAML files", Run(Line(
      "find . -name \"*.yml\" -o -name \"*.yaml\" | xargs -I {} sh -c 'echo \"Validating {}\" && python -c \"import yaml; yaml.safe_load(open('{}'))\" || exit 1'")))
    case SetupTerraform => Plain("Setup Terraform",
      Uses("hashicorp/setup-terraform@v3", [("terraform_version", Str("${{ env.TERRAFORM_VERSION }}"))]))
    case TerraformFormatCheck => Tolerant("Terraform Format Check", Run(Line("terraform fmt -check -recursive terraform/")))
    case TerraformValidate => Plain("Terraform Validate",
      Run(Block(["cd terraform", "terraform init -backend=false", "terraform validate"])))
    case SetupPython => Plain("Set up Python", Uses("actions/setup-python@v4", [("python-version", Str("3.11"))]))
    case SetupNode => Plain("Set up Node.js", Uses("actions/setup-node@v4", [("node-version", Str("18"))]))
    case Install(dir, command) => Plain("Install " + dir + " dependencies", Run(Line("cd " + dir + " && " + command)))
    case Lint(dir, command) => Tolerant("Lint " + dir + " code",
      Run(Line("cd " + dir + " && " + command + " || echo 'Linting not configured'")))
    case Test(dir, command) => Tolerant("Test " + dir + " code",
      Run(Line("cd " + dir + " && " + command + " || echo 'Tests not configured'")))
    case ValidateFrontendFiles => Plain("Validate frontend files",
      Run(Line("echo \"Frontend validation: Static files detected, no additional tests needed\"")))
    case TerraformInit => Plain("Terraform Init", Run(Block(["cd terraform", "terraform init"])))
    case TerraformPlan => Plain("Terraform Plan", Run(Block(["cd terraform", "terraform plan -out=tfplan"])))
    case TerraformApply => Plain("Terraform Apply", Run(Block(["cd terraform", "terraform apply -auto-approve tfplan"])))
    case DeploymentInfo => RenderedStep("Get deployment info", Some("deployment"), None, Run(Block([
      "cd terraform",
      "echo \"public_ip=$(terraform output -raw public_ip)\" >> $GITHUB_OUTPUT",
      "echo \"frontend_url=$(terraform output -raw application_urls | jq -r .frontend)\" >> $GITHUB_OUTPUT",
      "echo \"backend_url=$(terraform output -raw application_urls | jq -r .backend_api)\" >> $GITHUB_OUTPUT"])), false)
    case WaitForStartup => Plain("Wait for application startup", Run(Block([
      "echo \"Waiting for application to start...\"",
      "sleep 60",
      "",
      "# Check application health",
      "curl -f ${{ steps.deployment.outputs.backend_url }}/health || echo \"Backend health check failed\"",
      "curl -f ${{ steps.deployment.outputs.frontend_url }} || echo \"Frontend health check failed\""])))
    case Notify(recipient) => RenderedStep("Send deployment notification", None, Some("always()"),
      Uses("dawidd6/action-send-mail@v3", [
        ("server_address", Str("smtp.gmail.com")),
        ("server_port", Str("587")),
        ("username", Str("${{ secrets.EMAIL_USERNAME }}")),
        ("password", Str("${{ secrets.EMAIL_PASSWORD }}")),
        ("subject", Str("QR Generator Deployment ${{ job.status }}")),
        ("to", recipient),
        ("from", Str("${{ secrets.EMAIL_USERNAME }}")),
        ("body", Str(ScriptText(Block([
          "Deployment Status: ${{ job.status }}",
          "",
          "Frontend URL: ${{ steps.deployment.outputs.frontend_url }}",
          "Backend API: ${{ steps.deployment.outputs.backend_url }}",
          "",
          "Commit: ${{ github.sha }}",
          "Repository: ${{ github.repository }}"]))))]),
      false)
  }

  /**
   * The install, lint and test steps each run one line that first changes
   * into their directory; a failing lint or test does not fail the job, a
   * failing install does.
   */
  lemma CommandStepsRunInTheirDirectory(step: Step)
    requires step.Install? || step.Lint? || step.Test?
    ensures Render(step).continueOnError <==> !step.Install?
    ensures Render(step).action.Run? && Render(step).action.script.Line?
    ensures StartsWith(Render(step).action.script.command, "cd " + step.dir + " && ")
  {
    var prefix := "cd " + step.dir + " && ";
    var command := Render(step).action.script.command;
    if step.Install? {
      assert command == prefix + step.command;
    } else if step.Lint? {
      assert command == prefix + (step.command + " || echo 'Linting not configured'");
    } else {
      assert command == prefix + (step.command + " || echo 'Tests not configured'");
    }
    assert command[..|prefix|] == prefix;
  }

  // ----- the validate job -----

  /** The steps added when the project already has a `terraform/` directory. */
  const TerraformChecks: seq<Step> := [SetupTerraform, TerraformFormatCheck, TerraformValidate]

  function ValidationSteps(terraformExists: bool): seq<Step> {
    [Checkout, ValidateYaml] + (if terraformExists then TerraformChecks else [])
  }

  function ValidationJob(a: Analysis): (job: Job)
    ensures job.needs == [] && job.condition.None?
    ensures |job.steps| >= 2 && job.steps[..2] == [Checkout, ValidateYaml]
    ensures job.steps[2..] == if a.infrastructure.terraformExists then TerraformChecks else []
  {
    Job("Validate Code and Infrastructure", [], None, ValidationSteps(a.infrastructure.terraformExists))
  }

  /** `_create_validation_job`: the two fixed steps, extended with the Terraform checks when `terraform/` exists. */
  method CreateValidationJob(a: Analysis) returns (job: Job)
    ensures job == ValidationJob(a)
    ensures job.steps[..2] == [Checkout, ValidateYaml]
    ensures |job.steps| == if a.infrastructure.terraformExists then 5 else 2
  {
    var steps := [Checkout, ValidateYaml];
    if a.infrastructure.terraformExists {
      steps := steps + TerraformChecks;
    }
    job := Job("Validate Code and Infrastructure", [], None, steps);
  }

  /** The Terraform configuration is validated exactly when `terraform/` exists. */
  lemma ValidationChecksTerraformIff(a: Analysis)
    ensures TerraformValidate in ValidationJob(a).steps <==> a.infrastructure.terraformExists
  {
    var steps := ValidationJob(a).steps;
    if a.infrastructure.terraformExists {
      assert steps[4] == TerraformValidate;
    } else {
      assert steps == [Checkout, ValidateYaml];
    }
  }

  // ----- the test job -----

  function PythonSteps(c: Commands): seq<Step> {
    [SetupPython, Install("backend", c.install), Lint("backend", c.lint), Test("backend", c.test)]
  }

  function NodeSteps(c: Commands): seq<Step> {
    [SetupNode, Install("frontend", c.install), Lint("frontend", c.lint), Test("frontend", c.test)]
  }

  /** The backend's steps: the Python ones for a Python backend, none otherwise. */
  function BackendTestSteps(b: BackendFacet): seq<Step> {
    if b.Backend? && b.python.Some? then PythonSteps(PythonCommands) else []
  }

  /**
   * The frontend's steps: the Node ones for a Node frontend (whose commands
   * must have been recorded, or the lookup raises), one static check for any
   * other frontend, none without a frontend.
   */
  function FrontendTestSteps(f: FrontendFacet): Result<seq<Step>, JobError> {
    match f
    case NoFrontend => Ok([])
    case Frontend(stack, _) =>
      if stack.Node? then
        match FrontendCommands(stack)
        case Some(c) => Ok(NodeSteps(c))
        case None => Err(KeyError("install_command"))
      else Ok([ValidateFrontendFiles])
  }

  function TestJob(a: Analysis): (r: Result<Job, JobError>)
    ensures r.Err? <==> a.frontend.Frontend? && a.frontend.stack == Node(None)
    ensures r.Ok? ==> r.value.needs == ["validate"] && r.value.condition.None? && |r.value.steps| >= 1 && r.value.steps[0] == Checkout
  {
    match FrontendTestSteps(a.frontend)
    case Err(e) => Err(e)
    case Ok(frontendSteps) =>
      Ok(Job("Run Tests", ["validate"], None, [Checkout] + BackendTestSteps(a.backend) + frontendSteps))
  }

  /** `_create_test_job`: checkout, then the backend's steps, then the frontend's. */
  method CreateTestJob(a: Analysis) returns (r: Result<Job, JobError>)
    ensures r == TestJob(a)
    ensures r.Err? <==> a.frontend.Frontend? && a.frontend.stack == Node(None)
  {
    var steps := [Checkout];
    if a.backend.Backend? {
      if a.backend.python.Some? {
        steps := steps + PythonSteps(PythonCommands);
      }
    }
    if a.frontend.Frontend? {
      if a.frontend.stack.Node? {
        var commands := FrontendCommands(a.frontend.stack);
        if commands.None? {
          return Err(KeyError("install_command"));
        }
        steps := steps + NodeSteps(commands.value);
      } else {
        steps := steps + [ValidateFrontendFiles];
      }
    }
    assert steps == [Checkout] + BackendTestSteps(a.backend) + FrontendTestSteps(a.frontend).value;
    r := Ok(Job("Run Tests", ["validate"], None, steps));
  }

  /** How many steps the test job has: one, four for a Python backend, four for Node or one for any other frontend. */
  lemma TestJobStepCount(a: Analysis)
    requires TestJob(a).Ok?
    ensures |TestJob(a).value.steps| ==
      1 + (if a.backend.Backend? && a.backend.python.Some? then 4 else 0)
        + (if a.frontend.NoFrontend? then 0 else if a.frontend.stack.Node? then 4 else 1)
  {
  }

  /** The test job's commands run where they belong: the backend's in `backend/`, the frontend's in `frontend/`. */
  lemma TestCommandsRunInTheirDirectory(a: Analysis)
    requires TestJob(a).Ok?
    ensures forall s :: s in BackendTestSteps(a.backend) && (s.Install? || s.Lint? || s.Test?) ==> s.dir == "backend"
    ensures forall s :: s in FrontendTestSteps(a.frontend).value && (s.Install? || s.Lint? || s.Test?) ==> s.dir == "frontend"
  {
  }

  /** The backend's steps come before the frontend's: a Python backend's setup is the test job's second step. */
  lemma BackendStepsComeFirst(a: Analysis)
    requires TestJob(a).Ok? && a.backend.Backend? && a.backend.python.Some?
    ensures TestJob(a).value.steps[1] == SetupPython
    ensures a.frontend.Frontend? && a.frontend.stack.Node? ==> TestJob(a).value.steps[5] == SetupNode
  {
  }

  // ----- the deploy job -----

  const DeploySteps: seq<Step> :=
    [Checkout, SetupTerraform, TerraformInit, TerraformPlan, TerraformApply, DeploymentInfo, WaitForStartup]

  /** `config.get('email_notification', 'false').lower() == 'true'`; a list has no `.lower()`. */
  function NotificationWanted(config: Config): (r: Result<bool, JobError>)
    ensures r.Err? <==> "email_notification" in config && config["email_notification"].List?
    ensures "email_notification" !in config ==> r == Ok(false)
  {
    LowerIsWord("false", "true");
    match ConfigGet(config, "email_notification", Str("false"))
    case Str(s) => Ok(Lower(s) == "true")
    case List(_) => Err(AttributeError("list", "lower"))
  }

  function Recipient(config: Config): ConfigValue {
    ConfigGet(config, "email_recipient", Str("demo@example.com"))
  }

  function DeployJob(config: Config): (r: Result<Job, JobError>)
    ensures r.Err? <==> NotificationWanted(config).Err?
    ensures r.Ok? ==> r.value.needs == ["validate", "test"] && r.value.condition == Some("github.ref == 'refs/heads/main'")
  {
    match NotificationWanted(config)
    case Err(e) => Err(e)
    case Ok(notify) =>
      var steps := if notify then DeploySteps + [Notify(Recipient(config))] else DeploySteps;
      Ok(Job("Deploy to AWS", ["validate", "test"], Some("github.ref == 'refs/heads/main'"), steps))
  }

  /** `_create_deploy_job`: the seven fixed steps, then the notification when e-mail is switched on. */
  method CreateDeployJob(config: Config) returns (r: Result<Job, JobError>)
    ensures r == DeployJob(config)
  {
    var steps := DeploySteps;
    var wanted := NotificationWanted(config);
    if wanted.Err? {
      return Err(wanted.error);
    }
    if wanted.value {
      steps := steps + [Notify(Recipient(config))];
    }
    r := Ok(Job("Deploy to AWS", ["validate", "test"], Some("github.ref == 'refs/heads/main'"), steps));
  }

  /** The deploy job raises exactly when `email_notification` is a list; otherwise it starts with the seven fixed steps. */
  lemma DeployJobShape(config: Config)
    ensures DeployJob(config).Err? <==> "email_notification" in config && config["email_notification"].List?
    ensures DeployJob(config).Ok? ==> |DeployJob(config).value.steps| >= 7 && DeployJob(config).value.steps[..7] == DeploySteps
  {
    if DeployJob(config).Ok? && |DeployJob(config).value.steps| == 8 {
      assert DeployJob(config).value.steps == DeploySteps + [Notify(Recipient(config))];
    }
  }

  /** `s` spells the ASCII lower-case word `w` in any letter case. */
  predicate SpellsInAnyCase(s: string, w: string) {
    |s| == |w| && forall k :: 0 <= k < |s| ==> s[k] == w[k] || s[k] as int == w[k] as int - 32
  }

  predicate PlainLowerWord(w: string) {
    forall k :: 0 <= k < |w| ==> 'a' <= w[k] <= 'z' && w[k] != 'k'
  }

  /**
   * For a word of ASCII lower-case letters other than `k` (which the Kelvin
   * sign also lower-cases to), `s.lower() == w` holds exactly when `s` spells
   * `w` in some letter case.
   */
  lemma {:induction false} LowerIsWord(s: string, w: string)
    requires PlainLowerWord(w)
    ensures Lower(s) == w <==> SpellsInAnyCase(s, w)
    decreases |s|
  {
    if s == [] {
    } else if w == [] {
      assert |LowerChar(s[0])| >= 1;
    } else {
      assert PlainLowerWord(w[1..]);
      LowerIsWord(s[1..], w[1..]);
      var head := LowerChar(s[0]);
      assert Lower(s) == head + Lower(s[1..]);
      if Lower(s) == w {
        assert |head| == 1 by {
          if s[0] == '\U{130}' {
            assert w[1] == (head + Lower(s[1..]))[1];
          }
        }
        assert w == head + w[1..];
        assert Lower(s[1..]) == w[1..];
        assert s[0] == w[0] || s[0] as int == w[0] as int - 32;
        assert SpellsInAnyCase(s, w) by {
          forall k | 0 <= k < |s|
            ensures s[k] == w[k] || s[k] as int == w[k] as int - 32
          {
            if k > 0 {
              assert s[k] == s[1..][k - 1] && w[k] == w[1..][k - 1];
            }
          }
        }
      }
      if SpellsInAnyCase(s, w) {
        assert SpellsInAnyCase(s[1..], w[1..]) by {
          forall k | 0 <= k < |s| - 1
            ensures s[1..][k] == w[1..][k] || s[1..][k] as int == w[1..][k] as int - 32
          {
            assert s[1..][k] == s[k + 1] && w[1..][k] == w[k + 1];
          }
        }
        assert head == [w[0]];
        assert w == [w[0]] + w[1..];
      }
    }
  }

  /** The notification step is there exactly when `email_notification` spells `true` in some letter case. */
  lemma NotificationIff(config: Config)
    requires DeployJob(config).Ok?
    ensures |DeployJob(config).value.steps| == 8 <==>
      ConfigGet(config, "email_notification", Str("false")).Str? &&
      SpellsInAnyCase(ConfigGet(config, "email_notification", Str("false")).s, "true")
    ensures |DeployJob(config).value.steps| == 8 ==>
      DeployJob(config).value.steps[7] == Notify(Recipient(config))
  {
    LowerIsWord(ConfigGet(config, "email_notification", Str("false")).s, "true");
  }

  /** The built-in configuration sends the notification, to `demo@example.com`. */
  lemma DefaultConfigNotifies()
    ensures DeployJob(DefaultConfig()).Ok? && |DeployJob(DefaultConfig()).value.steps| == 8
    ensures DeployJob(DefaultConfig()).value.steps[7] == Notify(Str("demo@example.com"))
  {
    var config := DefaultConfig();
    assert ConfigGet(config, "email_notification", Str("false")) == Str("true");
    assert Recipient(config) == Str("demo@example.com");
    LowerIsWord("true", "true");
  }

  /** A configuration that does not mention e-mail sends no notification. */
  lemma NoSettingNoNotification(config: Config)
    requires "email_notification" !in config
    ensures DeployJob(config) == Ok(Job("Deploy to AWS", ["validate", "test"], Some("github.ref == 'refs/heads/main'"), DeploySteps))
  {
    LowerIsWord("false", "true");
    assert DeploySteps + [] == DeploySteps;
  }

  // ----- the workflow -----

  /** The workflow file's content: its name and its three jobs. */
  datatype Workflow = Workflow(name: ConfigValue, validate: Job, test: Job, deploy: Job)

  function WorkflowName(config: Config): ConfigValue {
    ConfigGet(config, "pipeline_name", Str("AI-Generated Pipeline"))
  }

  /** The jobs are built in the order validate, test, deploy; the first that raises decides the error. */
  function BuildWorkflow(config: Config, a: Analysis): (r: Result<Workflow, JobError>)
    ensures r.Err? <==> TestJob(a).Err? || DeployJob(config).Err?
    ensures TestJob(a).Err? ==> r == Err(TestJob(a).error)
  {
    match TestJob(a)
    case Err(e) => Err(e)
    case Ok(test) =>
      match DeployJob(config)
      case Err(e) => Err(e)
      case Ok(deploy) => Ok(Workflow(WorkflowName(config), ValidationJob(a), test, deploy))
  }

  /** `_generate_github_workflow`'s content: the three builders in order. */
  method CreateWorkflow(config: Config, a: Analysis) returns (r: Result<Workflow, JobError>)
    ensures r == BuildWorkflow(config, a)
  {
    var validate := CreateValidationJob(a);
    var test := CreateTestJob(a);
    if test.Err? {
      return Err(test.error);
    }
    var deploy := CreateDeployJob(config);
    if deploy.Err? {
      return Err(deploy.error);
    }
    r := Ok(Workflow(WorkflowName(config), validate, test.value, deploy.value));
  }
}
