# Pipeline generator and QR payload formatter, modelled in Dafny

This project models two parts of the QR-generator demo repository.

**The CI/CD pipeline generator** (`generate_workflow.py`). It inspects a project tree and then writes the generated artifacts. The model covers:

- the pipeline configuration file, a `key: value` text with `[a, b]` lists, `#` comments and a built-in default mapping;
- the project analysis:
  - the frontend facet: a `package.json` or an `index.html`;
  - the backend facet: `main.py`, `requirements.txt` and the framework marker;
  - the Terraform and Docker facets;
  - the five-pattern port scan;
- the optional AI enrichment and its fatal-or-lenient error policy;
- the three CI jobs: validate, test and deploy, with the optional e-mail notification step;
- the Terraform rules:
  - the skip rule;
  - port resolution with its all-or-nothing fallback;
  - project-name derivation;
  - the two AMI mappings;
  - each call site's own defaults;
- the README facts and the VERSION bump;
- `generate_pipeline`: the steps in their fixed order, where the first exception stops the rest and nothing is rolled back.

**The QR payload formatter** (`format_data_for_qr` in `backend/main.py`). It validates and encodes email, phone, url and wifi data and passes every other kind through. A rejected input yields `Err(kind)` where the service raises an HTTP 400.

## Modules

**Support modules:**

- `Wrappers` holds `Option` and `Result`.
- `Text` models Python's string operations on `seq<char>`: `strip`, `split`, `join`, `lower`, `upper`, `replace`, `int()` and `str(int)`, and the `\s` and `\d` classes.
- `Files` is an abstract project tree:
  - the entries in walk order;
  - the text of the readable files;
  - the decoded JSON files.

**Model modules:**

- `Config` covers `_load_config` and `_default_config`. `LoadConfig` is the line loop.
- `Version` covers `_get_current_version` and `_increment_version`.
- `PortScan` covers `_detect_port_from_files`:
  - the five regular expressions are written out as recognisers, with `re.IGNORECASE`;
  - `DetectPortFromFiles` is the nested loop with early return.
- `Analyzer` covers `analyze_project` and the facet analyzers. `AnalyzeDocker` is the `rglob` loop.
- `Jobs` covers `_create_validation_job`, `_create_test_job`, `_create_deploy_job` and the workflow document. The `Create…` methods build the step lists by appending, as the source does.
- `Terraform` covers the values substituted into the Terraform files.
- `Enrichment` covers `_ai_enhance_analysis` and the outcome handling of `_call_openai_api`.
- `Pipeline` covers `generate_pipeline` and the generation steps.
  - The `Generator` class holds the configuration, the token and the project tree. Its methods carry out one step each.
  - The operations a step attempts are listed by a function. A set of faulty paths decides which of them raise.
  - Each method's `ensures` ties the new tree and the log of operations carried out to that list.
- `Qr` covers `format_data_for_qr`.

Where the documented behaviour of the system and the code disagree, the model follows the code:

- **Config lines:** a configuration line without `:` is ignored.
- **Backend facet:** the facet exists whenever `backend/` exists (`Backend(None)` when neither `main.py` nor `requirements.txt` is there).
- **Enrichment:** the "requested without a credential" error cannot happen. AI mode is `bool(token)`, and it is passed as the error flag.
- **`variables.tf` defaults:** a missing `instance_type` or `environment` takes the call site's own default (`t3.micro` and `dev`), not the default mapping's value (`t2.micro` and `production`).
- **Phone numbers:** the phone rule counts `+` as well as digits.

## Model

| member | source | states |
|---|---|---|
| Config.TrimAll | generate_workflow.py:254-255 | each list piece is the stripped piece at the same position |
| Config.ParseValue | generate_workflow.py:252-256 | a list exactly when the value starts with `[` and ends with `]`, else the value itself; a list has at least one item |
| Config.ListItemsClean | generate_workflow.py:253-255 | every list item is free of commas and already stripped |
| Config.ParseLine | generate_workflow.py:244-256 | a line is ignored exactly when, stripped, it is empty, starts with `#` or has no `:` |
| Config.AssembleSnoc | generate_workflow.py:256 | a binding line overwrites its key in the dictionary built so far; an ignored line leaves it unchanged |
| Config.Bindings | generate_workflow.py:242-256 | one parse result per line |
| Config.BindingAt | generate_workflow.py:242-256 | the k-th parse result is the k-th line parsed |
| Config.ParseLinesSnoc | generate_workflow.py:242-256 | one more line updates the dictionary only at its own key |
| Config.DefaultConfig | generate_workflow.py:267-278 | the default mapping sets no ports and no AMI, and `labels` is its only list |
| Config.LoadConfig | generate_workflow.py:232-265 | the loop builds the dictionary the lines define; a missing or unreadable file gives the default mapping of lines 267-278 |
| Config.AssembleUnbound | generate_workflow.py:256 | a key no binding names is absent |
| Config.AssembleLastWins | generate_workflow.py:256 | a key ends bound to its last binding |
| Config.UnboundKeyAbsent | generate_workflow.py:242-256 | a key no line binds is absent from the loaded configuration |
| Config.LastBindingWins | generate_workflow.py:242-256 | a later duplicate key overwrites the earlier one: the last line binding a key decides its value |
| Config.SplitsAtFirstColon | generate_workflow.py:247-250 | `key:value` with no colon in the key splits at that colon, so the value may hold colons |
| Config.ParseStrippedLine | generate_workflow.py:247-256 | a stripped line splits at its first colon, with key and value stripped |
| Config.ListRoundTrip | generate_workflow.py:252-255 | `[a, b, …]` written from clean items reads back as exactly those items |
| Config.EmptyBrackets | generate_workflow.py:252-255 | `[]` reads as the one-element list `['']` |
| Version.CurrentVersion | generate_workflow.py:1618-1623 | `0.1.0` without VERSION; otherwise exactly the stripped text of the file, which neither starts nor ends with whitespace |
| Version.FallbackParts | generate_workflow.py:1612-1613 | the fallback `0.1.1` is itself well formed with patch 1 |
| Version.Bump | generate_workflow.py:1598-1616 | the bumped version is always well formed with exactly three parts; a version that is not well formed becomes `0.1.1` |
| Version.BumpWellFormed | generate_workflow.py:1608-1613 | `A.B.C…` with an integer third part becomes `A.B.(C+1)`, unless `str()` raises on C+1 (more than 4300 digits), which gives `0.1.1` |
| Version.BumpIncrementsPatch | generate_workflow.py:1598-1616 | a bump is always well formed; a well-formed version whose patch+1 `str()` can print keeps major and minor and gets patch+1; anything else becomes `0.1.1` |
| Version.BumpTwice | generate_workflow.py:1598-1616 | two runs give a well-formed version; while patch+2 is printable they add 2 to the patch and keep major and minor |
| Version.BumpOfNat | generate_workflow.py:1609-1613 | `X.Y.n` becomes `X.Y.(n+1)` as text when n+1 has at most 4300 digits, else `0.1.1` |
| Version.FirstBump | generate_workflow.py:1602-1613 | a tree without VERSION is bumped to `0.1.1` |
| Version.InitialBump | generate_workflow.py:1608-1611 | `0.1.0` is bumped to `0.1.1` |
| Version.SecondBump | generate_workflow.py:1608-1611 | `0.1.1` is bumped to `0.1.2` |
| Text.ParseIntOfDecimals | generate_workflow.py:1610 | `int()` of a run of decimal digits is its value, and raises beyond 4300 digits |
| Text.ParseIntOfInt | generate_workflow.py:1610-1611 | `int(str(i)) == i` for every integer `str()` can print, and `int()` raises on longer texts |
| Text.ParsedIsPrintable | generate_workflow.py:1610-1611 | whatever `int()` returns, `str()` can print |
| Text.PrintableBetween | generate_workflow.py:1610-1611 | an integer between two printable ones is printable |
| PortScan.LiteralAt | generate_workflow.py:144-148 | a case-insensitive literal match fits inside the text |
| PortScan.SkipColonSpace | generate_workflow.py:144 | `[:\s]*` stops within the text, at a character that is neither a colon nor whitespace or at the end |
| PortScan.SkipColonSpaceAllSkipped | generate_workflow.py:144 | every character `[:\s]*` steps over is a colon or whitespace, so it stops at the first other character |
| PortScan.SkipSpace | generate_workflow.py:144-147 | `\s*` stops within the text, at a non-space character or at the end |
| PortScan.SkipSpaceAllSkipped | generate_workflow.py:144-147 | every character `\s*` steps over is whitespace, so it stops at the first non-space character |
| PortScan.DigitsEnd | generate_workflow.py:144-148 | `(\d+)` stops at the first non-decimal character |
| PortScan.DigitsEndAllDecimal | generate_workflow.py:144-148 | everything the digit group spans is a decimal digit |
| PortScan.LineEnd | generate_workflow.py:147 | `.*` stops within the text, at a newline or at the end |
| PortScan.LineEndNoNewline | generate_workflow.py:147 | no newline lies before where `.*` stops, so it stops at the first newline |
| PortScan.DigitsAt | generate_workflow.py:144-148 | a digit group exists exactly where a decimal digit starts, and it is the whole run of digits from there |
| PortScan.GroupValueIsInt | generate_workflow.py:153 | the value of a captured group is `int()` of it: a value for at most 4300 digits, a `ValueError` beyond |
| PortScan.Search | generate_workflow.py:152 | a match captures a non-empty run of decimal digits |
| PortScan.ScanWith | generate_workflow.py:151-154 | the patterns in order; what they capture is a non-empty run of decimal digits |
| PortScan.DetectPortFromFiles | generate_workflow.py:137-158 | the nested loop returns the value of the first match of the first file that has one, else the default; a file whose group `int()` rejects is skipped |
| PortScan.SearchFindsLeftmost | generate_workflow.py:152 | `re.search` reports the leftmost position where the pattern matches |
| PortScan.SearchFailsEverywhere | generate_workflow.py:152-154 | a search fails exactly when the pattern matches nowhere |
| PortScan.ScanFailsEverywhere | generate_workflow.py:151-154 | a file yields no match exactly when every pattern fails |
| PortScan.FirstPatternWins | generate_workflow.py:151-154 | within a file, the first pattern in list order that matches decides |
| PortScan.FirstFileWins | generate_workflow.py:139-156 | files are tried in order; the first that yields a port decides; unreadable files, files without a match and files whose group `int()` rejects are skipped |
| PortScan.DefaultWhenNothingFound | generate_workflow.py:156-158 | nothing found anywhere gives the default; any other result was found in some file |
| PortScan.FlagImpliesPortAssign | generate_workflow.py:144-147 | where `uvicorn … --port N` matches, `port[:\s]*=?\s*(\d+)` matches at `port` with the same N |
| PortScan.UvicornImpliesPortAssign | generate_workflow.py:144-147 | every text the uvicorn pattern matches is matched by the first pattern |
| PortScan.UvicornPatternIsShadowed | generate_workflow.py:143-149 | the scan is the same with the uvicorn pattern removed |
| PortScan.PortAssignExample | generate_workflow.py:144-153 | `port = 9090` captures `9090`, whose value is 9090 |
| Analyzer.FrameworkOf | generate_workflow.py:128-135 | `fastapi` beats `flask`, which beats `django`, all in the lower-cased text |
| Analyzer.DetectPythonFramework | generate_workflow.py:124-135 | no `main.py` gives unknown; an unreadable one raises; otherwise its text decides |
| Analyzer.FastApiMention | generate_workflow.py:129 | a mention of `fastapi` in any case classifies as FastAPI |
| Analyzer.FrameworkMentionAnyCase | generate_workflow.py:129 | `FastAPI` and `FASTAPI` both classify as FastAPI |
| Analyzer.KeepStripped | generate_workflow.py:111 | no more requirements than lines; each kept one is non-empty and stripped |
| Analyzer.KeepStrippedSingle | generate_workflow.py:111 | one line is kept, stripped, exactly when it is not blank |
| Analyzer.KeepStrippedAppend | generate_workflow.py:111 | the filter works line by line: it distributes over concatenation |
| Analyzer.KeepStrippedAvoids | generate_workflow.py:111 | stripping adds no character, so lines free of a character stay free of it |
| Analyzer.Requirements | generate_workflow.py:110-111 | every dependency is non-empty, stripped and a single line |
| Analyzer.JoinFirstLast | generate_workflow.py:110 | the first and last characters of the joined lines are those of the first and last names |
| Analyzer.JoinedRequirementsTrimmed | generate_workflow.py:110 | joined requirement names survive `strip()` unchanged |
| Analyzer.KeepStrippedOfClean | generate_workflow.py:111 | clean names are all kept |
| Analyzer.RequirementsRoundTrip | generate_workflow.py:107-111 | clean names written one per line read back as exactly those names |
| Analyzer.ManifestOf | generate_workflow.py:66-70 | the manifest is read exactly when `package.json` decodes to an object; otherwise `.get` raises |
| Analyzer.FrontendStackOf | generate_workflow.py:63-85 | a node stack exactly when `package.json` exists and decodes; a static stack exactly when it is absent and `index.html` exists |
| Analyzer.AnalyzeFrontend | generate_workflow.py:53-91 | no frontend exactly when `frontend/` is absent; its port is the scan over `frontend/*.js` with default 3000 |
| Analyzer.PackageJsonShadowsIndexHtml | generate_workflow.py:63-85 | with `package.json` present, `index.html` is never consulted |
| Analyzer.FrontendCommandsPresent | generate_workflow.py:63-85 | commands exist exactly for the static stack and for a `package.json` that is a JSON object |
| Analyzer.BackendDependencies | generate_workflow.py:107-111 | dependencies are absent exactly when `requirements.txt` is absent; an unreadable one raises; a readable one gives its stripped non-blank lines |
| Analyzer.AnalyzeBackend | generate_workflow.py:93-122 | no backend exactly when `backend/` is absent; not python exactly when both marker files are absent; a python backend's framework is the `main.py` classification, its dependencies those of `requirements.txt`, and its port the scan over `backend/*.py` with default 8000 |
| Analyzer.BackendFailsOnUnreadable | generate_workflow.py:93-122 | the backend analysis raises exactly when `backend/` exists and `main.py` or `requirements.txt` cannot be read |
| Analyzer.AnalyzeInfrastructure | generate_workflow.py:160-173 | `terraform_exists` is the existence of `terraform/`; the file list exists exactly then and holds exactly its `*.tf` entries |
| Analyzer.Dockerfiles | generate_workflow.py:185-186 | exactly the entries named `Dockerfile` |
| Analyzer.AnalyzeDocker | generate_workflow.py:175-188 | the loop collects the Dockerfiles of the walk and the compose flag |
| Analyzer.DockerfilesKeepWalkOrder | generate_workflow.py:185-186 | the Dockerfiles keep the walk's order |
| Analyzer.Analyze | generate_workflow.py:38-51 | the analysis raises exactly when the backend analysis does; otherwise its frontend, backend, infrastructure and docker fields are the facet analyses |
| Jobs.CommandStepsRunInTheirDirectory | generate_workflow.py:645-697 | every install, lint and test step runs one line `cd <dir> && …`; lint and test continue on error, install does not |
| Jobs.ValidationJob | generate_workflow.py:588-628 | no prerequisite job and no condition; checkout and YAML validation first, then the three Terraform checks exactly when `terraform/` exists |
| Jobs.CreateValidationJob | generate_workflow.py:588-628 | checkout and YAML validation first; 5 steps with Terraform, 2 without |
| Jobs.ValidationChecksTerraformIff | generate_workflow.py:606-626 | `terraform validate` is a step exactly when `terraform/` exists |
| Jobs.TestJob | generate_workflow.py:630-699 | raises exactly for a node frontend whose `package.json` is not an object; otherwise needs `validate`, has no condition and starts with checkout |
| Jobs.CreateTestJob | generate_workflow.py:630-699 | the loop builds the test job; it raises exactly for a node frontend whose `package.json` is not an object |
| Jobs.TestJobStepCount | generate_workflow.py:636-697 | checkout, plus 4 python steps, plus 4 node steps or 1 static-validation step |
| Jobs.TestCommandsRunInTheirDirectory | generate_workflow.py:645-697 | backend commands run in `backend`, frontend commands in `frontend` |
| Jobs.BackendStepsComeFirst | generate_workflow.py:645-697 | python setup directly after checkout, node setup after the 4 backend steps |
| Jobs.NotificationWanted | generate_workflow.py:766 | `.lower()` raises exactly when `email_notification` is a list; without the key no notification |
| Jobs.DeployJob | generate_workflow.py:701-793 | raises exactly when the notification setting does; otherwise needs validate and test and runs only on `refs/heads/main` |
| Jobs.CreateDeployJob | generate_workflow.py:701-793 | the method builds the deploy job by appending |
| Jobs.DeployJobShape | generate_workflow.py:701-793 | the job raises exactly when `email_notification` is a list; otherwise it starts with the 7 fixed steps |
| Jobs.LowerIsWord | generate_workflow.py:768 | `s.lower() == "true"` holds exactly when `s` spells `true` in any case |
| Jobs.NotificationIff | generate_workflow.py:766-791 | the notification step is added exactly when `email_notification` (default `false`) lower-cases to `true`, and it names the recipient |
| Jobs.DefaultConfigNotifies | generate_workflow.py:267-278 | the default mapping notifies `demo@example.com` |
| Jobs.NoSettingNoNotification | generate_workflow.py:701-768 | without the setting, the deploy job is exactly the 7 fixed steps, gated to `main` after validate and test |
| Jobs.BuildWorkflow | generate_workflow.py:556-586 | the workflow fails exactly when the test or deploy job does, and the test job's error comes first |
| Jobs.CreateWorkflow | generate_workflow.py:556-586 | the method builds the workflow document the jobs define |
| Terraform.ToInt | generate_workflow.py:908-913 | `int()` of an analysed port is itself; of a list it raises; a string converts exactly as `int()` converts it, including its 4300-digit limit |
| Terraform.ResolvePorts | generate_workflow.py:902-913 | the ports are both `int()` of the configured or analysed values, or both the fallback 8000 and 3000 |
| Terraform.PortsAllOrNothing | generate_workflow.py:904-913 | both ports convert, or both fall back to 8000 and 3000 |
| Terraform.PortsFromAnalysis | generate_workflow.py:904-905 | without overrides, the analysed ports or 8000 and 3000 |
| Terraform.ConfiguredPortsWin | generate_workflow.py:904-913 | numeric overrides in the configuration win, unless `int()` rejects one of them (more than 4300 digits), which gives 8000 and 3000 |
| Terraform.AutoPipelineSuffixUnbordered | generate_workflow.py:1096 | `-auto-pipeline` has no proper prefix that is also a suffix, so occurrences never overlap |
| Terraform.OverlapIsBorder | generate_workflow.py:1096 | an overlapping occurrence would be a border of the pattern |
| Terraform.ReplaceAppended | generate_workflow.py:1096 | replacing in `s + p` replaces in `s` and then the trailing `p` |
| Terraform.ReplaceAbsent | generate_workflow.py:1096 | replacing an absent pattern changes nothing |
| Terraform.ProjectName | generate_workflow.py:1096 | the name raises exactly when `pipeline_name` is a list |
| Terraform.ProjectNameDropsSuffix | generate_workflow.py:1096 | `base-auto-pipeline` becomes `base` |
| Terraform.DefaultProjectName | generate_workflow.py:1096 | without `pipeline_name` the project is `qr-generator` |
| Terraform.AmiSetting | generate_workflow.py:1099-1100 | the AMI setting raises exactly when `ami` is a list |
| Terraform.AmiMappingsDisagree | generate_workflow.py:1099-1104 | the two mappings disagree exactly when the setting mentions none of ubuntu, amazon or linux; then `variables.tf` picks Amazon Linux and the tfvars pick Ubuntu |
| Terraform.UbuntuMentionSelectsUbuntu | generate_workflow.py:1246-1251 | a mention of `ubuntu` in any case selects the Ubuntu AMI in both files |
| Terraform.Characters | generate_workflow.py:1271 | a string iterated as its one-character strings |
| Terraform.VariablesOf | generate_workflow.py:1091-1104 | raises exactly when the project name or the AMI setting does, the name's error first; otherwise the project name, the variables.tf AMI mapping and the call site's instance settings |
| Terraform.Labels | generate_workflow.py:1271 | `ai-generated` without the key; comma-free list items read back by splitting at `,`; a string is joined character by character |
| Terraform.TfvarsOf | generate_workflow.py:1237-1302 | raises exactly when the project name or the AMI setting does, the name's error first; otherwise the tfvars AMI mapping, the labels, no key pair and region `us-west-2` |
| Terraform.GeneratedValues | generate_workflow.py:1091-1302 | the values raise exactly when the project name or the AMI does; each file uses its own AMI mapping; tfvars set no key pair and `us-west-2` |
| Terraform.VariablesAgreeWithTfvars | generate_workflow.py:1094-1096 | `variables.tf` and `terraform.tfvars` agree on environment, instance type, project name and ports |
| Terraform.InstanceDefaultsDependOnSource | generate_workflow.py:1094-1095 | a loaded configuration without the keys gives `dev` and `t3.micro`; the default mapping says `production` and `t2.micro` |
| Enrichment.NormaliseToken | generate_workflow.py:221 | an empty or missing token becomes none; a kept token is stripped |
| Enrichment.AiModeIffToken | generate_workflow.py:221-222 | AI mode is on exactly when the raw token holds something besides whitespace |
| Enrichment.Reply | generate_workflow.py:370-374 | a reply that is not JSON is kept under `recommendations`, which is truthy |
| Enrichment.CallApi | generate_workflow.py:335-387 | recommendations exactly for a 200 reply; an error exactly for a failure with `fail_on_error` |
| Enrichment.Enhance | generate_workflow.py:280-333 | the enrichment never changes the analysis itself |
| Enrichment.LenientNeverFails | generate_workflow.py:280-333 | without `fail_on_ai_error` it never fails, and attaches exactly the usable replies |
| Enrichment.AiModeMakesFailureFatal | generate_workflow.py:280-333 | with the flag set to AI mode: no token passes through; with a token, a usable reply is attached and every other outcome is fatal; the missing-token error never occurs |
| Enrichment.FatalErrors | generate_workflow.py:318-330 | the fatal errors and their texts |
| Enrichment.TextReplyAttached | generate_workflow.py:372-374 | a text reply is always attached |
| Pipeline.Executed | generate_workflow.py:540-551 | what runs is a prefix of the steps' operations, and each of them went through |
| Pipeline.ExecutedStopsAtFirstFailure | generate_workflow.py:540-551 | everything runs exactly when nothing raises; otherwise the run stops at the first operation that raises |
| Pipeline.ExecutedAppend | generate_workflow.py:540-546 | a later step starts only when the earlier ones completed |
| Pipeline.Then | generate_workflow.py:540-546 | a later step starts only when the earlier ones completed |
| Pipeline.ApplyAllFrame | generate_workflow.py:540-546 | operations on other paths leave a path's existence and text unchanged |
| Pipeline.Prepare | generate_workflow.py:532-535 | analysis then enrichment; a success carries the analysis of the tree |
| Pipeline.ReadmeFactsOf | generate_workflow.py:1334-1335 | the frontend framework is `node` exactly for a node stack, `vanilla-js` exactly for a static one, absent otherwise; the frontend port is the facet's port when the facet is present; the backend framework and port are reported exactly for a python backend, with its framework name and port; the version is the one read |
| Pipeline.TerraformOps | generate_workflow.py:869-899 | nothing exactly when the three files exist; otherwise the run starts with the Terraform directory |
| Pipeline.Plan | generate_workflow.py:539-546 | at least five operations: the two workflow operations first, the VERSION write or error last |
| Pipeline.InfrastructureUnaffected | generate_workflow.py:874-880 | steps that do not touch the three Terraform files leave the skip condition unchanged |
| Pipeline.VersionUnaffected | generate_workflow.py:1600-1605 | steps that do not touch VERSION leave it unchanged |
| Pipeline.WorkflowStepsAvoid | generate_workflow.py:540-541 | the workflow steps touch no Terraform file and not VERSION |
| Pipeline.TerraformStepAvoids | generate_workflow.py:869-899 | the Terraform step does not touch VERSION |
| Pipeline.ReadmeStepAvoids | generate_workflow.py:1315-1596 | the README step does not touch VERSION |
| Pipeline.EnrichmentGate | generate_workflow.py:532-535 | without a token the analysis goes on unchanged; with one, the run continues only with recommendations |
| Pipeline.TerraformFilesWritten | generate_workflow.py:883-897 | the six files in order: main.tf, user_data.sh, variables.tf, outputs.tf, terraform.tfvars and its example |
| Pipeline.TerraformFilesStop | generate_workflow.py:887-891 | when the values cannot be built, main.tf and user_data.sh are written and the run stops |
| Pipeline.TerraformFilesComplete | generate_workflow.py:883-897 | without write faults, the Terraform step completes exactly when its values can be built |
| Pipeline.TerraformWrites | generate_workflow.py:869-899 | on an incomplete infrastructure, the six files or the stop after two |
| Pipeline.ReadStepsFacts | generate_workflow.py:1315-1616 | the README and VERSION steps each write once when VERSION reads, and raise otherwise |
| Pipeline.StepsWritten | generate_workflow.py:540-546 | the files written, in step order |
| Pipeline.WorkflowFilesWritten | generate_workflow.py:540-541 | `ci-cd.yml`, then `ai-generate-workflow.yml` |
| Pipeline.StepsComplete | generate_workflow.py:540-551 | without faults, the steps complete exactly when the jobs build and every later step completes |
| Pipeline.StepsStopAtJobError | generate_workflow.py:540-551 | a job error leaves only the workflows directory |
| Pipeline.PlanWrites | generate_workflow.py:540-546 | a full run writes the workflows, the Terraform files unless already complete, then README and VERSION |
| Pipeline.TerraformWritten | generate_workflow.py:874-897 | the Terraform files written: none when the infrastructure is complete, all six otherwise |
| Pipeline.SucceedsWithoutFaults | generate_workflow.py:527-554 | without write faults, success exactly when the jobs build, the Terraform values build or are not needed, and VERSION reads |
| Pipeline.JobErrorStopsEarly | generate_workflow.py:540-551 | a job error fails the run after the workflows directory, with no rollback |
| Pipeline.StepsBumpVersion | generate_workflow.py:1598-1616 | steps that complete leave VERSION holding the bumped version |
| Pipeline.SuccessBumpsVersion | generate_workflow.py:527-554 | a successful run wrote the README with the old version and leaves VERSION bumped |
| Pipeline.Generator.constructor | generate_workflow.py:218-230 | the configuration is the loaded one; the token is normalised and AI mode is `bool(token)` |
| Pipeline.Generator.GenerateGithubWorkflow | generate_workflow.py:556-586 | the workflows directory, then `ci-cd.yml` or the job error |
| Pipeline.Generator.GenerateAiWorkflowTrigger | generate_workflow.py:795-867 | the workflows directory, then the trigger workflow |
| Pipeline.Generator.CreateTerraformMain | generate_workflow.py:901-1089 | main.tf with the resolved ports, then user_data.sh |
| Pipeline.Generator.CreateTerraformVariables | generate_workflow.py:1091-1182 | variables.tf, or the error building its values |
| Pipeline.Generator.CreateTerraformOutputs | generate_workflow.py:1184-1235 | outputs.tf, whose text is fixed: the two ports it reads are never used |
| Pipeline.Generator.CreateTerraformTfvars | generate_workflow.py:1237-1302 | terraform.tfvars, then its example, or the error |
| Pipeline.Generator.EnsureTerraformInfrastructure | generate_workflow.py:869-899 | nothing when the three files exist; otherwise the directory and the four steps, each only after the previous one went through |
| Pipeline.Generator.UpdateReadme | generate_workflow.py:1315-1596 | README.md with the analysed facts and the current version |
| Pipeline.Generator.IncrementVersion | generate_workflow.py:1598-1616 | VERSION with the bumped version, or the read error |
| Pipeline.Generator.GeneratePipeline | generate_workflow.py:527-554 | analysis and enrichment errors escape; otherwise the steps run in order, the first exception stops the rest, and the result is whether all went through |
| Pipeline.Generator.RunSteps | generate_workflow.py:539-546 | the steps carried out are those of the plan before the first that raises |
| Qr.SplitAtIsFirst | backend/main.py:28 | the `@` a match splits at is the first one |
| Qr.SplitDotIsLast | backend/main.py:28 | the `.` before the top-level domain is the last one |
| Qr.IsEmailBodyCorrect | backend/main.py:28 | the recogniser accepts exactly the texts the pattern body matches |
| Qr.IsEmailCorrect | backend/main.py:28 | the recogniser accepts exactly the texts the anchored pattern matches, including one trailing newline |
| Qr.PhoneChars | backend/main.py:34 | the kept characters are digits and `+`, no more than the input |
| Qr.PhoneCharsSingle | backend/main.py:34 | one character is kept exactly when it is a decimal digit or `+`; any other is dropped |
| Qr.PhoneCharsAppend | backend/main.py:34 | filtering distributes over concatenation |
| Qr.PhoneCharsKeepsDialable | backend/main.py:34 | filtering twice changes nothing |
| Qr.WithScheme | backend/main.py:41-42 | the result has a scheme; it is the input when that had one, else `https://` + input |
| Qr.SchemeLength | backend/main.py:44 | the prefix it spans is `https://` (8 characters) or `http://` (7) |
| Qr.FormatForQr | backend/main.py:24-62 | each kind fails only with its own error; other kinds never fail |
| Qr.EmailAcceptedIffPattern | backend/main.py:26-30 | an email is accepted exactly when it matches the pattern, and becomes `mailto:` + input |
| Qr.EmailSplitAccepted | backend/main.py:26-30 | a local part, `@`, a domain and a tld of 2+ letters is accepted |
| Qr.EmailAccepted | backend/main.py:26-30 | `test@example.com` becomes `mailto:test@example.com` |
| Qr.EmailRejected | backend/test_main.py:54-60 | `invalid-email` is rejected |
| Qr.PhoneKeepsDialable | backend/main.py:32-37 | rejected exactly when fewer than 7 characters are kept; otherwise `tel:` + the kept characters; formatting the kept characters again gives the same |
| Qr.PhoneExample | backend/test_main.py:62-68 | `123` is rejected |
| Qr.UrlResult | backend/main.py:39-46 | accepted exactly when the text after the scheme matches; the result has a scheme and is the input or `https://` + input; idempotent |
| Qr.UpperCaseSchemePrefixed | backend/main.py:41-42 | an upper-case scheme does not count, so `https://` is prepended |
| Qr.UrlEdgeCases | backend/main.py:44 | a dot after the scheme, and a lone character before a newline, are rejected; a trailing newline after two characters is accepted |
| Qr.WifiNeedsComma | backend/main.py:50-52 | rejected exactly when the data has no comma |
| Qr.Security | backend/main.py:53-57 | always WPA, WEP or NOPASS, and WPA with fewer than three parts |
| Qr.SecurityKnown | backend/main.py:53-57 | the security is always WPA, WEP or NOPASS |
| Qr.WifiIgnoresExtraParts | backend/main.py:53-57 | parts after the third change nothing |
| Qr.WifiRoundTrip | backend/main.py:59 | a payload's fields read back when they hold no `;` |
| Qr.WifiPayloadReadsBack | backend/main.py:48-59 | an accepted input without `;` reads back as its security, SSID and password |
| Qr.SplitPartsAvoid | backend/main.py:50 | split pieces of a text without `c` contain no `c` |
| Qr.WifiSemicolonAmbiguous | backend/main.py:59 | `;` in the SSID or password is not escaped, so two different inputs give the same payload |
| Qr.JoinedTrimmed | backend/main.py:53 | stripped non-empty pieces joined by a non-space stay stripped |
| Qr.PayloadShift | backend/main.py:59 | the payload of `x;P:y`/`z` equals that of `x`/`y;P:z` |
| Qr.WifiTwoParts | backend/main.py:50-59 | two comma parts give the WPA payload of their stripped texts |
| Qr.OtherKindsUnchanged | backend/main.py:61-62 | any other kind returns the data unchanged |

## Left out

- The HTTP request to the chat-completion service and the decoding of its JSON are not modelled. The outcome of the call (reply, decoded value, status, exception text) is an input to `Enrichment`, and so are the prompt and the reduced analysis it sends.
- Decoding `package.json` is not modelled; the decoded value is part of the abstract tree.
- The git facet (`_analyze_git`) is not modelled. It runs subprocesses, and its failures are caught and do not affect generation.
- The text of the generated documents is not modelled: the YAML, HCL, shell and Markdown templates, `yaml.dump`, the timestamped branch name and the "Last Updated" clock value. Each written file is modelled by the values substituted into it. Only VERSION's text is kept in the tree, because the next run reads it.
- `_ensure_docker_configuration` checks nothing and writes nothing, so it has no operations in the run.
- The ports resolved for `main.tf` are recorded with the file but do not feed the text. The template reads them from `var.*`.
- `outputs.tf` reads the two port settings and uses neither, so its write carries no values; the file's text is fixed.
- The HTTP status in the enrichment's error text is printed with `str()` without its 4300-digit limit; a status code has three digits.
- Operating-system errors (permissions, a full disk) are a set of faulty paths given to the generator.
- Printing, the human-readable analysis and recommendation reports, `main()` and its argument parsing are not modelled.
- The FastAPI application is not modelled, including `generate_qr` and the health routes. An input the formatter rejects is modelled as `Err`, not as an HTTP 400.
- The empty-text case of the service's tests is left out. The formatter returns any text unchanged; the 400 for an empty text would come from the route, which is not modelled.
- `IsDecimal` follows the Unicode 14 decimal digits, as `\d` and `int()` see them in Python 3.11; other versions of the table differ in a few scripts.
- Case mapping (`lower`, `upper`, `re.IGNORECASE`) is modelled for ASCII and for the non-ASCII characters whose lower case holds an ASCII letter (U+0130, U+212A) or whose upper case is ASCII letters alone (U+00DF, U+0131, U+017F, U+FB00 to U+FB06). Other characters map to themselves. A character left out this way has a non-ASCII case form, and so does the model's, so no comparison the source makes against an ASCII word changes.
- Pipeline.ReadmeFactsOf: gives the values the README reports, not its text.
- Jobs.TestJob: `needs` is modelled as the list `["validate"]`; the source writes the string `'validate'` (generate_workflow.py:635), which GitHub Actions reads as the same single prerequisite. Only the deploy job's `needs` is a list in the source.
- Enrichment.Enhance: the recommendations are attached to a separate field; the source adds them to the analysis dictionary, where only the printed report reads them.
