/** The pipeline's data model: tool names, context, plan, findings, synthesis, patch and agent state. */
module Models {
  import opened Wrappers
  import opened Values
  import opened Runner
  import opened Aggregation

  /** The closed set of tools a plan may name. */
  datatype ToolName = TerraformPlan | Tfsec | Checkov | Conftest | Infracost | Gitleaks

  const AllTools: seq<ToolName> := [TerraformPlan, Tfsec, Checkov, Conftest, Infracost, Gitleaks]

  /** The literal spelling of a tool name. */
  function ToolText(t: ToolName): string {
    match t
    case TerraformPlan => "terraform_plan"
    case Tfsec => "tfsec"
    case Checkov => "checkov"
    case Conftest => "conftest"
    case Infracost => "infracost"
    case Gitleaks => "gitleaks"
  }

  /** Validation of a string against the `ToolName` literal type; None when it is not one of the six. */
  function ParseToolName(s: string): (r: Option<ToolName>)
    ensures r.Some? ==> ToolText(r.value) == s
    ensures r.None? ==> forall t: ToolName :: ToolText(t) != s
  {
    if s == "terraform_plan" then Some(TerraformPlan)
    else if s == "tfsec" then Some(Tfsec)
    else if s == "checkov" then Some(Checkov)
    else if s == "conftest" then Some(Conftest)
    else if s == "infracost" then Some(Infracost)
    else if s == "gitleaks" then Some(Gitleaks)
    else None
  }

  /** Every tool name validates back to itself, and `AllTools` lists each tool exactly once. */
  lemma ToolNamesClosed(t: ToolName)
    ensures ParseToolName(ToolText(t)) == Some(t)
    ensures t in AllTools
    ensures |AllTools| == 6
    ensures forall i, j :: 0 <= i < j < |AllTools| ==> ToolText(AllTools[i]) != ToolText(AllTools[j])
  {
  }

  /** The review target: a repository directory, an optional diff summary and optional policy snippets. */
  datatype RepoContext = RepoContext(repoDir: string, diffSummary: Option<string>, policySnippets: Option<seq<string>>)

  /** A tool to run and its arguments. */
  datatype PlanStep = PlanStep(tool: ToolName, args: map<string, Json>)

  /** `PlanStep(tool=t)`: the arguments default to an empty map. */
  function Step(t: ToolName): (s: PlanStep)
    ensures s.tool == t && s.args == map[]
  {
    PlanStep(t, map[])
  }

  /** Which tools to run, in plan order, and why. */
  datatype ReviewPlan = ReviewPlan(steps: seq<PlanStep>, justification: string)

  /**
   * The per-tool findings. A `None` summary is the empty dict `{}`; the
   * terraform entry is that tool's raw command result. Conftest and gitleaks
   * are never filled in and stay empty.
   */
  datatype Findings = Findings(
    tfsec: Option<ToolSummary>,
    checkov: Option<ToolSummary>,
    terraform: Option<CmdResult>,
    conftest: map<string, Json>,
    infracost: Option<CostSummary>,
    gitleaks: map<string, Json>,
    warnings: seq<string>)

  /** `Findings()`: all six per-tool parts empty and no warnings. */
  const EmptyFindings: Findings := Findings(None, None, None, map[], None, map[], [])

  /** The report, with ranked risks and controls. */
  datatype Synthesis = Synthesis(markdown: string, risksRanked: seq<map<string, Json>>, controls: seq<string>)

  /** `Synthesis(markdown=md)`: ranked risks and controls default to empty. */
  function NewSynthesis(md: string): (s: Synthesis)
    ensures s.markdown == md && s.risksRanked == [] && s.controls == []
  {
    Synthesis(md, [], [])
  }

  /** A suggested patch; both parts are optional. */
  datatype PatchSuggestion = PatchSuggestion(patchUnifiedDiff: Option<string>, notes: Option<string>)

  /** The state threaded through the pipeline; each node fills in one field. */
  datatype AgentState = AgentState(
    ctx: RepoContext,
    plan: Option<ReviewPlan>,
    findings: Findings,
    synthesis: Option<Synthesis>,
    patch: Option<PatchSuggestion>)

  /** `AgentState(ctx=ctx)`: no plan, synthesis or patch yet, and empty findings. */
  function NewState(ctx: RepoContext): (s: AgentState)
    ensures s.ctx == ctx && s.plan.None? && s.synthesis.None? && s.patch.None?
    ensures s.findings.tfsec.None? && s.findings.checkov.None? && s.findings.terraform.None?
    ensures s.findings.conftest == map[] && s.findings.infracost.None? && s.findings.gitleaks == map[]
    ensures s.findings.warnings == []
  {
    AgentState(ctx, None, EmptyFindings, None, None)
  }
}
