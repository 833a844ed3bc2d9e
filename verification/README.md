# InfraGuardian review pipeline in Dafny

InfraGuardian reviews an infrastructure-as-code repository in four steps:

1. A planner picks the tools to run: `terraform plan`, tfsec, Checkov and Infracost.
2. A tools node runs them and folds their output into findings.
3. A synthesis node writes a Markdown report.
4. A patch node attaches a placeholder patch note.

This project models that core as pure Dafny functions and proves what each step promises.

- `runner.dfy` (module `Runner`): the process-result dict built by `_run`. It also holds the three-command `terraform_plan` sequence, which stops at the first failure, and the three scanner wrappers.
- `aggregate.dfy` (module `Aggregation`): `aggregate` and its nested `sev_count`. This covers:
  - how findings are extracted from tfsec and Checkov output;
  - the five-level severity histogram;
  - the Infracost monthly total;
  - the top-five lists;
  - the warnings list.
- `models.dfy` (module `Models`): the pydantic models, with their defaults.
- `graph.dfy` (module `Graph`): `_shorten`, the four nodes, the terraform-first execution order, the dispatch loop, and the compiled graph `Review`.
- `scenarios.dfy` (module `Scenarios`): concrete runs, stated for every oracle that fits them. Examples are summing two project costs, every tool missing, and a null tfsec `results`.
- `values.dfy`, `text.dfy`, `wrappers.dfy`: shared helpers.
  - `values.dfy` models decoded JSON with Python truthiness, `dict.get` and `dict.get(k, default)`, and `Outcome` (`Returns` or `Raises`) for Python code that can raise.
  - `text.dfy` models `str(int)`, ASCII `str.upper` and `str.join`.

Several things outside the program's control are parameters:

- The machine is a `Runner.Host`: which binaries are on the PATH, what a process does, and what `json.loads` makes of its stdout.
- The language model is an `Option<Graph.Llm>`. `None` means no model is configured.
- Python's `float(str)` and `str(float)` are a `Values.Floats` record.

The model follows the code's own behaviour, including these points:

- `aggregate` can raise. The model returns `Raises` in these cases, and the tools node and the pipeline pass it on. Examples:
  - a tfsec `"results": null` makes `len(None)` fail;
  - a finding that is not an object;
  - a truthy severity that is not a string;
  - a Checkov framework entry that is not an object.
- With every tool missing there are three warnings: tfsec, Checkov and Infracost. Infracost's branch also reads the `stderr` of the "not found" dict.
- A scanner that ran never warns, even when it exited non-zero, because its result dict has no top-level `stderr`.
- A project without a usable cost is skipped. If no project contributes, the total is absent, not zero.
- The tools node always stores the `monthly_cost` key, so an absent total prints `None`, never `unavailable`. `unavailable` appears only when there is no cost entry at all.
- The tools node does not copy `top_tfsec` and `top_checkov` into the findings.

## Model

| member | source | states |
|---|---|---|
| Runner.RunCmd | Infraguardian/backend/app/runner.py:11-21 | `ok` holds exactly when the exit code is 0; a spawn error gives ok false, code -1, empty stdout and the error text as stderr; otherwise code, stdout and stderr are the process's own |
| Runner.TerraformPlan | Infraguardian/backend/app/runner.py:23-31 | the commands run are a prefix of init, plan, show; nothing runs exactly when terraform is missing, giving the "terraform not found" dict; every command before the last succeeded; stopping early returns the failed step's own result; after all three the result carries show's ok flag and parsed stdout; an ok result means all three ran and succeeded |
| Runner.Scan | Infraguardian/backend/app/runner.py:33-49 | a result has a top-level stderr exactly when the binary is missing, and then nothing runs and the stderr is "<tool> not found"; otherwise exactly the tool's command runs, and the result holds its ok flag, its parsed stdout and the raw process result |
| Runner.TfsecScan | Infraguardian/backend/app/runner.py:33-37 | runs at most the tfsec command with JSON output and no colour; reports a stderr exactly when tfsec is missing |
| Runner.CheckovScan | Infraguardian/backend/app/runner.py:39-43 | runs at most the Checkov command with JSON output; reports a stderr exactly when checkov is missing |
| Runner.InfracostBreakdown | Infraguardian/backend/app/runner.py:45-49 | runs at most the Infracost breakdown command with JSON output; reports a stderr exactly when infracost is missing |
| Aggregation.WarningFor | Infraguardian/backend/app/runner.py:57-61 | at most one warning; there is one exactly when the JSON branch was not taken and the result has a non-empty stderr, and it reads "<tool>: <stderr>" |
| Aggregation.WarningsExactly | Infraguardian/backend/app/runner.py:54-90 | a string is a warning exactly when, for one of tfsec, checkov, infracost, it is "<tool>: <stderr>" and that tool warns: its result is present with a non-empty top-level stderr and its JSON was not used (any truthy JSON for tfsec and Checkov, a truthy object for Infracost) |
| Aggregation.WarningsInOrder | Infraguardian/backend/app/runner.py:54-90 | the warnings list is tfsec's line, then checkov's, then infracost's, each present exactly when that tool warns; so at most one line per tool, in that order |
| Aggregation.ScannedToolsNeverWarn | Infraguardian/backend/app/runner.py:57-90 | results that all come from tools that ran give no warnings, whatever their exit codes |
| Aggregation.MissingToolsWarn | Infraguardian/backend/app/runner.py:54-90 | with tfsec, checkov and infracost all "not found", the warnings are exactly their three "not found" lines, in that order |
| Aggregation.AbsentToolsExtractNothing | Infraguardian/backend/app/runner.py:55-80 | a tool missing from the results map contributes no findings and no cost, without raising |
| Aggregation.Flatten | Infraguardian/backend/app/runner.py:68-70 | the Checkov list loop succeeds exactly when every framework entry yields its failed checks |
| Aggregation.FlattenAppend | Infraguardian/backend/app/runner.py:68-70 | the loop distributes over concatenation: the findings of `a + b` are those of `a` followed by those of `b` |
| Aggregation.CheckovListOfOneIsObject | Infraguardian/backend/app/runner.py:66-72 | a one-element list holding a framework object yields the same findings, or the same exception, as that object alone |
| Aggregation.CheckovScalarYieldsNothing | Infraguardian/backend/app/runner.py:66-72 | Checkov JSON that is neither a list nor an object yields no findings |
| Aggregation.Bucket | Infraguardian/backend/app/runner.py:95-96 | the bucket is always one of the five levels: the upper-cased severity when it is a level, UNKNOWN otherwise |
| Aggregation.BucketAnyCase | Infraguardian/backend/app/runner.py:95-96 | a severity in any letter case lands in its level; the bucket equals the upper-cased severity exactly when that is a level |
| Aggregation.SeverityPrecedence | Infraguardian/backend/app/runner.py:95 | `severity` wins when truthy, `severity_label` is used when `severity` is falsy, and with neither the finding counts as UNKNOWN; the severity read is never empty |
| Aggregation.SevCount | Infraguardian/backend/app/runner.py:92-98 | counting succeeds exactly when every finding's severity can be read; the histogram has exactly the five level keys, its counts sum to the number of findings, and each level's count is how many findings normalise to it |
| Aggregation.CostLoopSums | Infraguardian/backend/app/runner.py:78-88 | the cost loop raises exactly when some project is malformed; the total stays absent when no project contributes, and is otherwise the sum of the contributions |
| Aggregation.Top | Infraguardian/backend/app/runner.py:104-111 | the top list has min(5, n) entries; entry i holds finding i's id, severity and resource as `.get` reads them |
| Aggregation.Assemble | Infraguardian/backend/app/runner.py:100-111 | once the findings lists are extracted, the summary raises exactly when a severity cannot be read; counts are the list lengths, histograms are the severity counts, well formed and summing to the counts; each top list is the id, severity and resource of its tool's first min(5, n) findings |
| Aggregation.Aggregate | Infraguardian/backend/app/runner.py:51-112 | raises exactly when extraction or severity counting does; each tool's summary counts its own extracted findings into a well-formed histogram; the cost is the extracted total; the warnings are those of `Warnings`; an absent tool reads as zero findings or an absent cost |
| Aggregation.AggregateTopLists | Infraguardian/backend/app/runner.py:104-111 | when aggregate returns, each top list is the id, severity and resource of the first min(5, n) findings extracted for its tool |
| Aggregation.NoJsonIsAllZero | Infraguardian/backend/app/runner.py:51-112 | when no result carries parsed JSON, aggregation returns zero counts, all-zero histograms, no cost, empty top lists and the warnings |
| Models.ParseToolName | Infraguardian/backend/app/models.py:5 | a string validates as a tool name exactly when it is the spelling of one of the six tools, and then names that tool |
| Models.ToolNamesClosed | Infraguardian/backend/app/models.py:5 | each tool's spelling validates back to the same tool; the six tools are listed once each, with distinct spellings |
| Models.NewState | Infraguardian/backend/app/models.py:38-43 | a fresh state keeps the context and has no plan, synthesis or patch, empty per-tool findings and no warnings |
| Graph.Shorten | Infraguardian/backend/app/graph.py:31-34 | None, the empty string and text within the budget come back unchanged; longer text keeps its first `max_chars` characters followed by the truncation marker |
| Graph.ShortenRecoversLength | Infraguardian/backend/app/graph.py:34 | the marker is the decimal numeral of the dropped count, with no leading zeros, between the fixed prefix and suffix; the kept length plus that number is the original length |
| Text.NatStrRoundTrip | Infraguardian/backend/app/graph.py:34 | the decimal rendering of a count reads back as the same count |
| Text.CanonicalNumeral | Infraguardian/backend/app/graph.py:34 | a non-empty digit string without leading zeros is exactly the decimal rendering of the number it denotes, so the truncation marker is `str` of the dropped count |
| Graph.Request | Infraguardian/backend/app/graph.py:57-61 | the planning request carries the diff summary shortened to 2000 characters, the first min(6, n) policy snippets as a prefix of the context's list, and all six tools |
| Graph.PlannerNode | Infraguardian/backend/app/graph.py:36-83 | only the plan changes and it is never empty; without a model it is the four-step default with the fixed justification; a model error or an empty model plan gives the default plan naming the error; otherwise the model's plan |
| Graph.ExecutionOrderIsStablePartition | Infraguardian/backend/app/graph.py:90 | the execution order is a permutation of the plan with every terraform_plan step first, and each class keeps its plan order |
| Graph.StablePartitionIsUnique | Infraguardian/backend/app/graph.py:90 | any terraform-first reordering that keeps each class in plan order equals the execution order |
| Graph.ExecuteResults | Infraguardian/backend/app/graph.py:92-102 | after the loop the results map has exactly the keys of the steps' tools, and each key holds the result of running its tool; conftest and gitleaks write nothing |
| Graph.ToolsNode | Infraguardian/backend/app/graph.py:85-112 | only the findings change; they carry the three summaries with well-formed histograms summing to their counts, the warnings of the executed plan's results, the raw terraform result when there is one, and empty conftest and gitleaks entries |
| Graph.ToolsNodeRaises | Infraguardian/backend/app/graph.py:104 | the node raises exactly when aggregate raises on the results of the executed plan |
| Graph.ToolsNodeCopiesAggregate | Infraguardian/backend/app/graph.py:104-110 | when the node returns, aggregate returned on the executed plan's results, and the findings hold exactly its tfsec, Checkov and Infracost summaries |
| Graph.ExecutionOrderSameTools | Infraguardian/backend/app/graph.py:90 | reordering the steps neither adds nor drops a tool |
| Graph.ExecuteKey | Infraguardian/backend/app/graph.py:92-102 | a dispatched tool's key is in the results exactly when some step names that tool, and it holds that tool's result |
| Graph.PlanResultsTerraform | Infraguardian/backend/app/graph.py:88-102 | the results hold a terraform entry exactly when the plan has a terraform_plan step, and it is `terraform_plan`'s result |
| Graph.ToolsNodeTerraform | Infraguardian/backend/app/graph.py:85-112 | the findings' terraform entry is present exactly when the plan has a terraform_plan step, and then it is `terraform_plan`'s result on the repository |
| Graph.HistEntriesOfHistogram | Infraguardian/backend/app/graph.py:123 | a five-level histogram renders as one `'LEVEL': count` entry per level, in level order |
| Graph.ReportLines | Infraguardian/backend/app/graph.py:121-128 | the deterministic report has the heading, a tfsec line, a Checkov line, a cost line, and a warnings line exactly when there are warnings, joined with "; " |
| Text.JoinStartsWithFirst | Infraguardian/backend/app/graph.py:129 | text joined from lines opens with the first line |
| Graph.DeterministicReport | Infraguardian/backend/app/graph.py:129 | the joined report opens with the deterministic heading and is never empty |
| Graph.FallbackReport | Infraguardian/backend/app/graph.py:148-156 | the fallback report opens with the fallback heading and the model's error |
| Graph.SynthNode | Infraguardian/backend/app/graph.py:114-157 | only the synthesis changes and its markdown is never empty; without a model it is the deterministic report; a model error gives the fallback report naming the error; a non-empty model answer is kept and an empty one becomes "(empty)"; ranked risks and controls are empty |
| Graph.PatcherNode | Infraguardian/backend/app/graph.py:159-163 | only the patch changes; it holds no diff and the fixed milestone note |
| Graph.Review | Infraguardian/backend/app/graph.py:165-177 | the pipeline keeps the context, ends with a non-empty plan from the planner, a synthesis made from the final findings, and the placeholder patch |
| Graph.ReviewComposes | Infraguardian/backend/app/graph.py:165-177 | the pipeline raises exactly when the tools node raises on the planned state, and otherwise ends with the findings that node wrote |
| Scenarios.CostsAreSummed | Infraguardian/backend/app/runner.py:76-88 | two projects costing 120.50 and 79.50 give a monthly total of 200 |
| Scenarios.NoCostIsAbsent | Infraguardian/backend/app/runner.py:78-83 | projects without a cost leave the total absent, not zero |
| Scenarios.CheckovModulesFlatten | Infraguardian/backend/app/runner.py:66-70 | Checkov list output of two modules, each with one HIGH failed check, yields both checks, counted as two HIGH |
| Scenarios.HighHighLowCount | Infraguardian/backend/app/runner.py:92-98 | severities HIGH, high and LOW count as two HIGH and one LOW, with the other levels zero |
| Scenarios.TfsecHistogram | Infraguardian/backend/app/runner.py:57-98 | tfsec output listing findings of severity HIGH, high and LOW yields those three findings, counted as two HIGH and one LOW |
| Scenarios.CriticalAnyCase | Infraguardian/backend/app/runner.py:95-96 | "cRiTiCaL" counts as CRITICAL; a finding with neither severity field counts as UNKNOWN |
| Scenarios.TfsecNullResultsRaises | Infraguardian/backend/app/runner.py:57-100 | tfsec JSON whose `results` is null makes aggregation raise |
| Scenarios.NoPlanRunsNothing | Infraguardian/backend/app/graph.py:88-111 | with no plan nothing runs, and the findings are zero counts, no cost and no warnings |
| Scenarios.DefaultPlanOrder | Infraguardian/backend/app/graph.py:39-49 | the default plan is already in execution order |
| Scenarios.AllMissingExecution | Infraguardian/backend/app/graph.py:92-101 | with no binary installed, the default plan writes the four tool keys, each holding "<tool> not found" |
| Scenarios.AllMissingLines | Infraguardian/backend/app/graph.py:121-128 | with every tool missing, the report has five lines: zero counts over all-zero histograms, cost "None", and the three "not found" warnings joined with "; " |
| Scenarios.AllToolsMissing | Infraguardian/backend/app/graph.py:165-177 | with no model and no tool installed, the pipeline returns the default plan, zero findings, an absent cost, terraform's "not found" result, three warnings, and the deterministic report of those findings |

## Left out

- Process execution, `shutil.which`, `json.loads` and the environment are the `Runner.Host` oracle. Nothing about real processes is modelled.
- `_run`'s `env` argument and `os.environ.copy()` are not modelled, because they do not affect the result's shape.
- `Path(...).resolve()` of the repository directory is not modelled. The directory string is passed through as is.
- `_safe_json` is part of the `Runner.Host` oracle.
- `_llm` and `_env` reduce to one `Option<Graph.Llm>`, shared by the planner and synthesis nodes. In the program each node builds its own client, so one node could see a model while the other does not. Prompt texts, `str(user_payload)`, `model_dump` and the structured-output parsing of the model's plan belong to the oracle.
- The langgraph `StateGraph` machinery is not modelled. `build_graph` is the straight composition `Graph.Review`.
- agent_cli.py (the command-line entry point) is not part of this model.
- Floating point: JSON numbers and costs are exact reals. Python's rounding when adding floats, NaN and infinities are not modelled. `float(str)` and `str(float)` are the `Values.Floats` oracle.
- Text.Upper: upper-cases ASCII letters only. Python's `str.upper` also maps other Unicode letters, for example `ß` to `SS`.
- Graph.HistEntriesOfHistogram: describes the repr of a histogram keyed by exactly the five levels. Python dict insertion order is not modelled in general; the counts dict always has those keys in that order.
- Graph.DeterministicReport: states only that the report opens with the heading and is not empty. The per-line content is stated by `Graph.ReportLines`.
- Graph.FallbackReport: states only the report's opening. The rest is the Python repr of the three summaries, rendered by `SummaryRepr` and `CostRepr`.
- Aggregation.Aggregate: the exception type and message are not modelled, only whether `aggregate` raises.
- Graph.ToolsNode: the findings hold typed summaries (`ToolSummary`, `CostSummary`, `CmdResult`) in place of the plain dicts the program stores. An entry the program fills with the `{}` default is `None` in the model.
- Runner.TfsecScan: states the command and the missing-binary case. The rest of the result shape is stated once, for all three scanners, by `Runner.Scan`.
- Runner.CheckovScan: same as Runner.TfsecScan.
- Runner.InfracostBreakdown: same as Runner.TfsecScan.
- Graph.ExecuteResults: a tool named by two steps runs twice and the second result is kept. The host oracle answers a repeated command the same way, so both runs give the same result; a real process may not.
