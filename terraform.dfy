/**
 * The Terraform configuration the generator writes when the project lacks
 * one: when it is skipped, the ports it resolves, and the values it takes
 * from the pipeline configuration (each with its own default at each place
 * it is read).
 */
module Terraform {
  import opened Wrappers
  import opened Text
  import opened Files
  import opened Config
  import opened Analyzer

  const MainTf: Path := ["terraform", "main.tf"]
  const UserDataSh: Path := ["terraform", "user_data.sh"]
  const VariablesTf: Path := ["terraform", "variables.tf"]
  const OutputsTf: Path := ["terraform", "outputs.tf"]
  const TerraformTfvars: Path := ["terraform", "terraform.tfvars"]
  const TfvarsExample: Path := ["terraform", "terraform.tfvars.example"]

  /** Nothing is generated when `main.tf`, `variables.tf` and `outputs.tf` all exist; any one missing regenerates them all. */
  predicate InfrastructureComplete(fs: FileSystem) {
    fs.Exists(MainTf) && fs.Exists(VariablesTf) && fs.Exists(OutputsTf)
  }

  /** The files written, in order, when the configuration is generated. */
  const GeneratedFiles: seq<Path> := [MainTf, UserDataSh, VariablesTf, OutputsTf, TerraformTfvars, TfvarsExample]

  /** A Python exception raised while generating: a method the value's type lacks. */
  datatype TerraformError = AttributeError(typeName: string, attribute: string)

  // ----- ports -----

  /** A port before `int()`: a configured value, or a number from the analysis or a default. */
  datatype RawPort = FromConfig(value: ConfigValue) | Number(n: int)

  /** `config.get('backend_port', analysis['backend'].get('port', 8000))`. */
  function RawBackendPort(config: Config, a: Analysis): RawPort {
    if "backend_port" in config then FromConfig(config["backend_port"])
    else if a.backend.Backend? && a.backend.python.Some? then Number(a.backend.python.value.port)
    else Number(8000)
  }

  /** `config.get('frontend_port', analysis['frontend'].get('port', 3000))`. */
  function RawFrontendPort(config: Config, a: Analysis): RawPort {
    if "frontend_port" in config then FromConfig(config["frontend_port"])
    else if a.frontend.Frontend? then Number(a.frontend.port)
    else Number(3000)
  }

  /** `int()` of a raw port: a number stays, a string must parse, a list is a `TypeError`. */
  function ToInt(p: RawPort): (r: Option<int>)
    ensures p.Number? ==> r == Some(p.n)
    ensures p.FromConfig? && p.value.Str? ==> r == ParseInt(p.value.s)
    ensures p.FromConfig? && p.value.List? ==> r.None?
  {
    match p
    case Number(n) => Some(n)
    case FromConfig(Str(s)) => ParseInt(s)
    case FromConfig(List(_)) => None
  }

  /**
   * The backend and frontend ports `main.tf` is generated with: both
   * converted, or, when either conversion raises, both defaults (8000, 3000).
   */
  function ResolvePorts(config: Config, a: Analysis): (ports: (int, int))
    ensures ports == (8000, 3000) ||
      (ToInt(RawBackendPort(config, a)) == Some(ports.0) && ToInt(RawFrontendPort(config, a)) == Some(ports.1))
  {
    match (ToInt(RawBackendPort(config, a)), ToInt(RawFrontendPort(config, a)))
    case (Some(backend), Some(frontend)) => (backend, frontend)
    case _ => (8000, 3000)
  }

  /** Either both ports are converted or both fall back: a bad frontend port also discards a good backend port. */
  lemma PortsAllOrNothing(config: Config, a: Analysis)
    ensures ToInt(RawBackendPort(config, a)).Some? && ToInt(RawFrontendPort(config, a)).Some? ==>
      ResolvePorts(config, a) == (ToInt(RawBackendPort(config, a)).value, ToInt(RawFrontendPort(config, a)).value)
    ensures ToInt(RawBackendPort(config, a)).None? || ToInt(RawFrontendPort(config, a)).None? ==>
      ResolvePorts(config, a) == (8000, 3000)
  {
  }

  /** Without port settings the ports come from the analysis, or from the defaults for a missing component. */
  lemma PortsFromAnalysis(config: Config, a: Analysis)
    requires "backend_port" !in config && "frontend_port" !in config
    ensures ResolvePorts(config, a).0 == if a.backend.Backend? && a.backend.python.Some? then a.backend.python.value.port else 8000
    ensures ResolvePorts(config, a).1 == if a.frontend.Frontend? then a.frontend.port else 3000
  {
  }

  /**
   * Configured ports written in decimal win over the analysis, as long as
   * `int()` accepts both; one of more than `MaxStrDigits` digits brings back
   * both defaults.
   */
  lemma ConfiguredPortsWin(config: Config, a: Analysis, backend: nat, frontend: nat)
    requires "backend_port" in config && config["backend_port"] == Str(NatToString(backend))
    requires "frontend_port" in config && config["frontend_port"] == Str(NatToString(frontend))
    ensures ResolvePorts(config, a) ==
      if |NatToString(backend)| <= MaxStrDigits && |NatToString(frontend)| <= MaxStrDigits then (backend, frontend)
      else (8000, 3000)
  {
    ParseIntOfNat(backend);
    ParseIntOfNat(frontend);
  }

  // ----- project name -----

  const AutoPipelineSuffix: string := "-auto-pipeline"

  /** `s` has no proper prefix that is also a suffix, so two occurrences of it never overlap. */
  predicate Unbordered(p: string) {
    forall k :: 0 < k < |p| ==> p[..k] != p[|p| - k..]
  }

  lemma AutoPipelineSuffixUnbordered()
    ensures Unbordered(AutoPipelineSuffix)
  {
    var p := AutoPipelineSuffix;
    forall k | 0 < k < |p|
      ensures p[..k] != p[|p| - k..]
    {
      if |p| - k == 5 {
        assert p[..k][1] != p[|p| - k..][1];
      } else {
        assert p[..k][0] != p[|p| - k..][0];
      }
    }
  }

  /** When `p` starts `s + p` and `s` is shorter than `p`, the end of `p` repeats its start. */
  lemma OverlapIsBorder(s: string, p: string)
    requires 0 < |s| < |p| && p <= s + p
    ensures p[..|p| - |s|] == p[|s|..]
  {
    forall i | 0 <= i < |p| - |s|
      ensures p[..|p| - |s|][i] == p[|s|..][i]
    {
      assert (s + p)[|s| + i] == p[i];
    }
  }

  /** Replacing an unbordered pattern in `s + p` replaces the final `p` and leaves `s` as `replace` alone makes it. */
  lemma {:induction false} ReplaceAppended(s: string, p: string, r: string)
    requires |p| > 0 && Unbordered(p)
    ensures Replace(s + p, p, r) == Replace(s, p, r) + r
    decreases |s|
  {
    if p <= s + p {
      if s == [] {
        assert s + p == p;
        assert p[|p|..] == [];
      } else if |s| >= |p| {
        assert p <= s by {
          assert s[..|p|] == (s + p)[..|p|];
        }
        assert (s + p)[|p|..] == s[|p|..] + p;
        ReplaceAppended(s[|p|..], p, r);
      } else {
        OverlapIsBorder(s, p);
        assert false;
      }
    } else {
      assert s != [];
      assert !(p <= s);
      assert (s + p)[1..] == s[1..] + p;
      ReplaceAppended(s[1..], p, r);
    }
  }

  /** `replace` changes nothing in a string without an occurrence of the pattern. */
  lemma {:induction false} ReplaceAbsent(s: string, p: string, r: string)
    requires |p| > 0 && !Contains(s, p)
    ensures Replace(s, p, r) == s
    decreases |s|
  {
    if s != [] {
      ReplaceAbsent(s[1..], p, r);
    }
  }

  /** `config.get('pipeline_name', 'qr-generator').replace('-auto-pipeline', '')`; a list has no `.replace`. */
  function ProjectName(config: Config): (r: Result<string, TerraformError>)
    ensures r.Err? <==> "pipeline_name" in config && config["pipeline_name"].List?
  {
    match ConfigGet(config, "pipeline_name", Str("qr-generator"))
    case Str(s) => Ok(Replace(s, AutoPipelineSuffix, ""))
    case List(_) => Err(AttributeError("list", "replace"))
  }

  /** A pipeline called `<base>-auto-pipeline` gives the project name `<base>`. */
  lemma ProjectNameDropsSuffix(config: Config, base: string)
    requires "pipeline_name" in config && config["pipeline_name"] == Str(base + AutoPipelineSuffix)
    requires !Contains(base, AutoPipelineSuffix)
    ensures ProjectName(config) == Ok(base)
  {
    AutoPipelineSuffixUnbordered();
    ReplaceAppended(base, AutoPipelineSuffix, "");
    ReplaceAbsent(base, AutoPipelineSuffix, "");
    assert base + "" == base;
  }

  lemma {:induction false} ContainsNeedsRoom(s: string, sub: string)
    requires Contains(s, sub)
    ensures |sub| <= |s|
    decreases |s|
  {
    if !(sub <= s) {
      ContainsNeedsRoom(s[1..], sub);
    }
  }

  /** Without a `pipeline_name` the project is called `qr-generator`. */
  lemma DefaultProjectName(config: Config)
    requires "pipeline_name" !in config
    ensures ProjectName(config) == Ok("qr-generator")
  {
    var name := "qr-generator";
    if Contains(name, AutoPipelineSuffix) {
      ContainsNeedsRoom(name, AutoPipelineSuffix);
    }
    ReplaceAbsent(name, AutoPipelineSuffix, "");
  }

  // ----- AMI -----

  const UbuntuAmi: string := "ami-0c7217cdde317cfec"
  const AmazonLinuxAmi: string := "ami-0c02fb55956c7d316"

  /** The AMI setting, `latest-ubuntu` when absent; a list has no `.lower()`. */
  function AmiSetting(config: Config): (r: Result<string, TerraformError>)
    ensures r.Err? <==> "ami" in config && config["ami"].List?
  {
    match ConfigGet(config, "ami", Str("latest-ubuntu"))
    case Str(s) => Ok(s)
    case List(_) => Err(AttributeError("list", "lower"))
  }

  /** The default AMI in `variables.tf`: Ubuntu when the setting mentions `ubuntu`, Amazon Linux otherwise. */
  function VariablesAmi(setting: string): string {
    if Contains(Lower(setting), "ubuntu") then UbuntuAmi else AmazonLinuxAmi
  }

  /** The AMI in `terraform.tfvars`: Ubuntu for `ubuntu`, Amazon Linux for `amazon` or `linux`, Ubuntu otherwise. */
  function TfvarsAmi(setting: string): string {
    var low := Lower(setting);
    if Contains(low, "ubuntu") then UbuntuAmi
    else if Contains(low, "amazon") || Contains(low, "linux") then AmazonLinuxAmi
    else UbuntuAmi
  }

  /**
   * The two files disagree exactly when the setting names none of `ubuntu`,
   * `amazon` and `linux`: `variables.tf` then defaults to Amazon Linux while
   * `terraform.tfvars` chooses Ubuntu.
   */
  lemma AmiMappingsDisagree(setting: string)
    ensures VariablesAmi(setting) != TfvarsAmi(setting) <==>
      !Contains(Lower(setting), "ubuntu") && !Contains(Lower(setting), "amazon") && !Contains(Lower(setting), "linux")
    ensures VariablesAmi(setting) != TfvarsAmi(setting) ==>
      VariablesAmi(setting) == AmazonLinuxAmi && TfvarsAmi(setting) == UbuntuAmi
  {
    assert UbuntuAmi != AmazonLinuxAmi by {
      assert UbuntuAmi[6] != AmazonLinuxAmi[6];
    }
  }

  /** A setting that mentions Ubuntu in any letter case selects Ubuntu in both files. */
  lemma UbuntuMentionSelectsUbuntu(a: string, word: string, b: string)
    requires Lower(word) == "ubuntu"
    ensures VariablesAmi(a + word + b) == UbuntuAmi && TfvarsAmi(a + word + b) == UbuntuAmi
  {
    LowerConcat(a, word);
    LowerConcat(a + word, b);
    ContainsInfix(Lower(a), "ubuntu", Lower(b));
  }

  // ----- the generated values -----

  /** The environment and instance type, defaulting to `dev` and `t3.micro` where the Terraform files read them. */
  function InstanceSettings(config: Config): (ConfigValue, ConfigValue) {
    (ConfigGet(config, "environment", Str("dev")), ConfigGet(config, "instance_type", Str("t3.micro")))
  }

  /** The values `variables.tf` is written with. */
  datatype Variables = Variables(
    environment: ConfigValue,
    instanceType: ConfigValue,
    projectName: string,
    ami: string,
    frontendPort: ConfigValue,
    backendPort: ConfigValue,
    deployUsing: ConfigValue,
    target: ConfigValue)

  /** `_create_terraform_variables`: defaults `dev` and `t3.micro`, the project name, the AMI, the ports and the deployment. */
  function VariablesOf(config: Config): (r: Result<Variables, TerraformError>)
    ensures r.Err? <==> ProjectName(config).Err? || AmiSetting(config).Err?
    ensures ProjectName(config).Err? ==> r == Err(ProjectName(config).error)
    ensures r.Ok? ==> r.value.projectName == ProjectName(config).value && r.value.ami == VariablesAmi(AmiSetting(config).value)
    ensures r.Ok? ==> (r.value.environment, r.value.instanceType) == InstanceSettings(config)
  {
    match (ProjectName(config), AmiSetting(config))
    case (Err(e), _) => Err(e)
    case (_, Err(e)) => Err(e)
    case (Ok(project), Ok(ami)) =>
      Ok(Variables(
        InstanceSettings(config).0,
        InstanceSettings(config).1,
        project,
        VariablesAmi(ami),
        ConfigGet(config, "frontend_port", Str("3000")),
        ConfigGet(config, "backend_port", Str("8000")),
        ConfigGet(config, "deploy_using", Str("docker-compose")),
        ConfigGet(config, "target", Str("aws_ec2"))))
  }

  /** `','.join(labels)`: a list joins its items; a string joins its characters. */
  function Labels(config: Config): (r: string)
    ensures "labels" !in config ==> r == "ai-generated"
    ensures "labels" in config && config["labels"].List? && config["labels"].items != [] && CommaFree(config["labels"].items) ==>
      Split(r, ',') == config["labels"].items
    ensures "labels" in config && config["labels"].Str? && config["labels"].s != [] && ',' !in config["labels"].s ==>
      Split(r, ',') == Characters(config["labels"].s)
  {
    match ConfigGet(config, "labels", List(["ai-generated"]))
    case List(items) =>
      if items != [] && CommaFree(items) then
        SplitJoin(items, ',');
        Join(items, ',')
      else Join(items, ',')
    case Str(s) =>
      var cs := Characters(s);
      if s != [] && ',' !in s then
        assert forall k :: 0 <= k < |cs| ==> cs[k] == [s[k]] && s[k] in s;
        SplitJoin(cs, ',');
        Join(cs, ',')
      else Join(cs, ',')
  }

  /** No item holds a comma. */
  predicate CommaFree(items: seq<string>) {
    forall k :: 0 <= k < |items| ==> ',' !in items[k]
  }

  /** The one-character strings iterating over a string yields. */
  function Characters(s: string): (r: seq<string>)
    ensures |r| == |s|
    ensures forall i :: 0 <= i < |s| ==> r[i] == [s[i]]
  {
    if s == [] then [] else [[s[0]]] + Characters(s[1..])
  }

  /** The values `terraform.tfvars` is written with; the example file uncomments the key pair and moves the region. */
  datatype Tfvars = Tfvars(
    environment: ConfigValue,
    instanceType: ConfigValue,
    amiId: string,
    projectName: string,
    labels: string,
    region: string,
    keyPairSet: bool,
    frontendPort: ConfigValue,
    backendPort: ConfigValue,
    deployMethod: ConfigValue,
    targetPlatform: ConfigValue)

  /** `_create_terraform_tfvars`: the same defaults as `variables.tf`, its own AMI mapping, region `us-west-2`. */
  function TfvarsOf(config: Config): (r: Result<Tfvars, TerraformError>)
    ensures r.Err? <==> ProjectName(config).Err? || AmiSetting(config).Err?
    ensures ProjectName(config).Err? ==> r == Err(ProjectName(config).error)
    ensures r.Ok? ==> r.value.projectName == ProjectName(config).value && r.value.amiId == TfvarsAmi(AmiSetting(config).value)
    ensures r.Ok? ==> r.value.labels == Labels(config) && !r.value.keyPairSet && r.value.region == "us-west-2"
  {
    match (ProjectName(config), AmiSetting(config))
    case (Err(e), _) => Err(e)
    case (_, Err(e)) => Err(e)
    case (Ok(project), Ok(ami)) =>
      Ok(Tfvars(
        InstanceSettings(config).0,
        InstanceSettings(config).1,
        TfvarsAmi(ami),
        project,
        Labels(config),
        "us-west-2",
        false,
        ConfigGet(config, "frontend_port", Str("3000")),
        ConfigGet(config, "backend_port", Str("8000")),
        ConfigGet(config, "deploy_using", Str("docker-compose")),
        ConfigGet(config, "target", Str("aws_ec2"))))
  }

  /**
   * Building either file's values raises exactly when the pipeline name or
   * the AMI setting is a list; otherwise each file carries its own AMI
   * mapping, the instance settings with their defaults, and the tfvars leave
   * the key pair commented out.
   */
  lemma GeneratedValues(config: Config)
    ensures VariablesOf(config).Err? <==> ProjectName(config).Err? || AmiSetting(config).Err?
    ensures TfvarsOf(config).Err? <==> ProjectName(config).Err? || AmiSetting(config).Err?
    ensures VariablesOf(config).Ok? ==> VariablesOf(config).value.ami == VariablesAmi(AmiSetting(config).value)
    ensures TfvarsOf(config).Ok? ==> TfvarsOf(config).value.amiId == TfvarsAmi(AmiSetting(config).value)
    ensures TfvarsOf(config).Ok? ==> !TfvarsOf(config).value.keyPairSet && TfvarsOf(config).value.region == "us-west-2"
    ensures VariablesOf(config).Ok? ==>
      (VariablesOf(config).value.environment, VariablesOf(config).value.instanceType) == InstanceSettings(config)
  {
  }

  /** `terraform.tfvars.example`: the same values with the key pair set and the region `us-east-1`. */
  function ExampleOf(t: Tfvars): Tfvars {
    t.(keyPairSet := true, region := "us-east-1")
  }

  /** Both files read the same settings with the same defaults, and differ only in the AMI mapping. */
  lemma VariablesAgreeWithTfvars(config: Config)
    requires VariablesOf(config).Ok?
    ensures TfvarsOf(config).Ok?
    ensures VariablesOf(config).value.environment == TfvarsOf(config).value.environment
    ensures VariablesOf(config).value.instanceType == TfvarsOf(config).value.instanceType
    ensures VariablesOf(config).value.projectName == TfvarsOf(config).value.projectName
    ensures VariablesOf(config).value.frontendPort == TfvarsOf(config).value.frontendPort
    ensures VariablesOf(config).value.backendPort == TfvarsOf(config).value.backendPort
  {
  }

  /**
   * Where the defaults come from decides the instance: without a
   * configuration file the built-in mapping gives `t2.micro` in `production`;
   * a configuration file that omits the keys gives `t3.micro` in `dev`.
   */
  lemma InstanceDefaultsDependOnSource(config: Config)
    requires "environment" !in config && "instance_type" !in config
    ensures InstanceSettings(DefaultConfig()) == (Str("production"), Str("t2.micro"))
    ensures InstanceSettings(config) == (Str("dev"), Str("t3.micro"))
  {
  }
}
