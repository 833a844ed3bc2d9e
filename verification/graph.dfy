/**
 * The review pipeline: planner, tools, synthesis and patch nodes run in a
 * fixed line over one agent state. The language model is an optional
 * oracle; without it every node takes its deterministic path.
 */
module Graph {
  import opened Wrappers
  import opened Values
  import opened Text
  import Runner
  import opened Aggregation
  import opened Models

  // ---------------------------------------------------------------- shorten

  const TruncationPrefix: string := "\n...[truncated "
  const TruncationSuffix: string := " chars]"

  /**
   * `_shorten(text, max_chars)`: None and "" come back unchanged, as does
   * text within the budget; longer text keeps its first `maxChars`
   * characters followed by a marker naming how many were dropped.
   */
  function Shorten(text: Option<string>, maxChars: nat): (r: Option<string>)
    ensures text.None? || text.value == "" || |text.value| <= maxChars ==> r == text
    ensures text.Some? && |text.value| > maxChars ==> r.Some? && text.value[..maxChars] + TruncationPrefix <= r.value
  {
    if text.None? || text.value == "" then text
    else if |text.value| <= maxChars then text
    else
      var head := text.value[..maxChars] + TruncationPrefix;
      assert head <= head + (NatStr(|text.value| - maxChars) + TruncationSuffix);
      Some(head + NatStr(|text.value| - maxChars) + TruncationSuffix)
  }

  /**
   * The marker of a shortened text is the decimal numeral of the dropped
   * count, without leading zeros, between the fixed prefix and suffix; the
   * kept characters plus that number give back the original length.
   */
  lemma ShortenRecoversLength(text: string, maxChars: nat)
    requires |text| > maxChars
    ensures var r := Shorten(Some(text), maxChars).value;
      && |r| >= maxChars + |TruncationPrefix| + |TruncationSuffix|
      && var digits := r[maxChars + |TruncationPrefix| .. |r| - |TruncationSuffix|];
         && AllDigits(digits)
         && digits != [] && (digits[0] == '0' ==> digits == "0")
         && r == text[..maxChars] + TruncationPrefix + digits + TruncationSuffix
         && maxChars + DigitsValue(digits) == |text|
  {
    var n := |text| - maxChars;
    NatStrRoundTrip(n);
    var head := text[..maxChars] + TruncationPrefix;
    var r := head + NatStr(n) + TruncationSuffix;
    assert Shorten(Some(text), maxChars).value == r;
    assert r[|head| .. |r| - |TruncationSuffix|] == NatStr(n);
  }

  // ---------------------------------------------------------------- planner

  /** The request sent to the planning model. */
  datatype PlannerRequest = PlannerRequest(diffSummary: Option<string>, policySnippets: seq<string>, tools: seq<ToolName>)

  /**
   * The language model, when one is configured: `plan` answers a planning
   * request (Failure carries the raised exception's text) and `report`
   * writes a markdown report from the findings.
   */
  datatype Llm = Llm(
    plan: PlannerRequest -> Result<ReviewPlan, string>,
    report: Findings -> Result<string, string>)

  /** The planning request: the diff summary cut to 2000 characters, at most the first six snippets, and every tool. */
  function Request(ctx: RepoContext): (q: PlannerRequest)
    ensures q.diffSummary == Shorten(ctx.diffSummary, 2000)
    ensures |q.policySnippets| == Min(6, |ctx.policySnippets.GetOr([])|)
    ensures q.policySnippets <= ctx.policySnippets.GetOr([])
    ensures q.tools == AllTools
  {
    var snippets := ctx.policySnippets.GetOr([]);
    PlannerRequest(Shorten(ctx.diffSummary, 2000), snippets[..Min(6, |snippets|)], AllTools)
  }

  /** The four-step default plan: terraform plan, tfsec, Checkov, Infracost. */
  const DefaultSteps: seq<PlanStep> := [Step(TerraformPlan), Step(Tfsec), Step(Checkov), Step(Infracost)]

  const NoLlmJustification: string := "Deterministic fallback (no LLM/model unavailable)."

  /** The justification of the default plan after the model failed with `e`. */
  function FailedJustification(e: string): string {
    "LLM planning failed: " + e + ". Using default plan."
  }

  /** The message of the error raised for an empty plan. */
  const EmptyPlanError: string := "LLM returned an empty plan."

  /**
   * `planner_node`: writes only the plan. Without a model the plan is the
   * default with the fixed justification; a model failure or an empty plan
   * gives the default with the failure in the justification; otherwise the
   * model's plan. The plan is never empty.
   */
  function PlannerNode(s: AgentState, llm: Option<Llm>): (r: AgentState)
    ensures r == s.(plan := r.plan)
    ensures r.plan.Some? && r.plan.value.steps != []
    ensures llm.None? ==> r.plan == Some(ReviewPlan(DefaultSteps, NoLlmJustification))
    ensures llm.Some? ==> match llm.value.plan(Request(s.ctx))
      case Success(p) =>
        r.plan == Some(if p.steps != [] then p else ReviewPlan(DefaultSteps, FailedJustification(EmptyPlanError)))
      case Failure(e) => r.plan == Some(ReviewPlan(DefaultSteps, FailedJustification(e)))
  {
    match llm
    case None => s.(plan := Some(ReviewPlan(DefaultSteps, NoLlmJustification)))
    case Some(m) =>
      match m.plan(Request(s.ctx))
      case Success(p) =>
        if p.steps != [] then s.(plan := Some(p))
        else s.(plan := Some(ReviewPlan(DefaultSteps, FailedJustification(EmptyPlanError))))
      case Failure(e) => s.(plan := Some(ReviewPlan(DefaultSteps, FailedJustification(e))))
  }

  // ----------------------------------------------------------------- ordering

  predicate IsTerraform(s: PlanStep) {
    s.tool == TerraformPlan
  }

  /** The steps whose "is terraform_plan" flag equals `want`, in their original order. */
  function Keep(steps: seq<PlanStep>, want: bool): (r: seq<PlanStep>)
    ensures |r| <= |steps|
    ensures forall i :: 0 <= i < |r| ==> IsTerraform(r[i]) == want
    decreases |steps|
  {
    if steps == [] then []
    else (if IsTerraform(steps[0]) == want then [steps[0]] else []) + Keep(steps[1..], want)
  }

  /** Every terraform_plan step comes before every other step. */
  predicate TerraformFirst(r: seq<PlanStep>) {
    forall i, j :: 0 <= i < j < |r| && IsTerraform(r[j]) ==> IsTerraform(r[i])
  }

  /** The steps reordered so terraform_plan steps run first, each class keeping its plan order (a stable sort on that key). */
  function ExecutionOrder(steps: seq<PlanStep>): seq<PlanStep> {
    Keep(steps, true) + Keep(steps, false)
  }

  lemma {:induction false} KeepAppend(a: seq<PlanStep>, b: seq<PlanStep>, want: bool)
    ensures Keep(a + b, want) == Keep(a, want) + Keep(b, want)
    decreases |a|
  {
    if a == [] {
      assert a + b == b;
    } else {
      assert (a + b)[1..] == a[1..] + b;
      KeepAppend(a[1..], b, want);
    }
  }

  lemma {:induction false} KeepSplits(steps: seq<PlanStep>)
    ensures multiset(Keep(steps, true)) + multiset(Keep(steps, false)) == multiset(steps)
    decreases |steps|
  {
    if steps != [] {
      KeepSplits(steps[1..]);
      assert steps == [steps[0]] + steps[1..];
    }
  }

  lemma {:induction false} KeepOwnClass(r: seq<PlanStep>, want: bool)
    requires forall i :: 0 <= i < |r| ==> IsTerraform(r[i]) == want
    ensures Keep(r, want) == r && Keep(r, !want) == []
    decreases |r|
  {
    if r != [] {
      KeepOwnClass(r[1..], want);
    }
  }

  /** A terraform-first sequence is its terraform steps followed by the rest. */
  lemma {:induction false} TerraformFirstSplits(r: seq<PlanStep>)
    requires TerraformFirst(r)
    ensures r == Keep(r, true) + Keep(r, false)
    decreases |r|
  {
    if r != [] {
      TerraformFirstSplits(r[1..]);
      if !IsTerraform(r[0]) {
        assert forall i :: 0 <= i < |r[1..]| ==> !IsTerraform(r[1..][i]);
        KeepOwnClass(r[1..], false);
      }
    }
  }

  /**
   * The execution order is a stable partition: a permutation of the plan,
   * terraform_plan steps first, each class in plan order.
   */
  lemma ExecutionOrderIsStablePartition(steps: seq<PlanStep>)
    ensures multiset(ExecutionOrder(steps)) == multiset(steps)
    ensures TerraformFirst(ExecutionOrder(steps))
    ensures Keep(ExecutionOrder(steps), true) == Keep(steps, true)
    ensures Keep(ExecutionOrder(steps), false) == Keep(steps, false)
  {
    KeepSplits(steps);
    KeepAppend(Keep(steps, true), Keep(steps, false), true);
    KeepAppend(Keep(steps, true), Keep(steps, false), false);
    KeepOwnClass(Keep(steps, true), true);
    KeepOwnClass(Keep(steps, false), false);
  }

  /** Any terraform-first reordering that keeps each class in plan order is the execution order. */
  lemma StablePartitionIsUnique(steps: seq<PlanStep>, r: seq<PlanStep>)
    requires TerraformFirst(r)
    requires Keep(r, true) == Keep(steps, true) && Keep(r, false) == Keep(steps, false)
    ensures r == ExecutionOrder(steps)
  {
    TerraformFirstSplits(r);
  }

  // ----------------------------------------------------------------- dispatch

  /** The results-map key a tool writes; conftest and gitleaks run nothing. */
  function ResultKey(t: ToolName): Option<string> {
    match t
    case TerraformPlan => Some("terraform")
    case Tfsec => Some("tfsec")
    case Checkov => Some("checkov")
    case Infracost => Some("infracost")
    case _ => None
  }

  /** Running the wrapper a tool dispatches to. */
  function RunTool(host: Runner.Host, repo: string, t: ToolName): (r: Option<Runner.Invocation>)
    requires ResultKey(t).Some?
    ensures r.Some?
  {
    match t
    case TerraformPlan => Some(Runner.TerraformPlan(host, repo))
    case Tfsec => Some(Runner.TfsecScan(host, repo))
    case Checkov => Some(Runner.CheckovScan(host, repo))
    case Infracost => Some(Runner.InfracostBreakdown(host, repo))
  }

  /** The results map the dispatch loop has built so far. */
  datatype Execution = Execution(results: map<string, Runner.CmdResult>)

  /** The `tools_node` loop: each step with a result key runs its wrapper and stores the result under that key. */
  function Execute(host: Runner.Host, repo: string, steps: seq<PlanStep>): (e: Execution)
    ensures steps == [] ==> e == Execution(map[])
    decreases |steps|
  {
    if steps == [] then Execution(map[])
    else
      var before := Execute(host, repo, steps[..|steps| - 1]);
      var t := steps[|steps| - 1].tool;
      match ResultKey(t)
      case None => before
      case Some(k) =>
        Execution(before.results[k := RunTool(host, repo, t).value.result])
  }

  /** Distinct tools write distinct keys. */
  lemma ResultKeyInjective(a: ToolName, b: ToolName)
    requires ResultKey(a).Some? && ResultKey(a) == ResultKey(b)
    ensures a == b
  {
  }

  /**
   * After the loop the results map holds exactly the keys of the steps'
   * tools, each with the result of running that tool: a tool that appears
   * twice runs twice, and the second result, equal to the first, replaces it.
   */
  lemma {:induction false} ExecuteResults(host: Runner.Host, repo: string, steps: seq<PlanStep>)
    ensures var e := Execute(host, repo, steps);
      forall k :: k in e.results <==> exists i :: 0 <= i < |steps| && ResultKey(steps[i].tool) == Some(k)
    ensures var e := Execute(host, repo, steps);
      forall i :: 0 <= i < |steps| && ResultKey(steps[i].tool).Some? ==>
        e.results[ResultKey(steps[i].tool).value] == RunTool(host, repo, steps[i].tool).value.result
    decreases |steps|
  {
    if steps != [] {
      var init := steps[..|steps| - 1];
      var t := steps[|steps| - 1].tool;
      ExecuteResults(host, repo, init);
      assert forall i :: 0 <= i < |init| ==> init[i] == steps[i];
      var e := Execute(host, repo, steps);
      forall i | 0 <= i < |steps| && ResultKey(steps[i].tool).Some?
        ensures e.results[ResultKey(steps[i].tool).value] == RunTool(host, repo, steps[i].tool).value.result
      {
        if ResultKey(t).Some? && ResultKey(steps[i].tool) == ResultKey(t) {
          ResultKeyInjective(steps[i].tool, t);
        }
      }
    }
  }

  /** The steps the tools node runs: the plan's, or none without a plan. */
  function PlanSteps(s: AgentState): seq<PlanStep> {
    if s.plan.Some? then s.plan.value.steps else []
  }

  /** The results map the tools node hands to aggregate. */
  function PlanResults(s: AgentState, host: Runner.Host): map<string, Runner.CmdResult> {
    Execute(host, s.ctx.repoDir, ExecutionOrder(PlanSteps(s))).results
  }

  /**
   * `tools_node`: writes only the findings. It runs the plan's steps in
   * execution order and stores aggregate's summaries, warnings and the raw
   * terraform result; it raises when aggregate does.
   */
  function ToolsNode(s: AgentState, host: Runner.Host, floats: Floats): (r: Outcome<AgentState>)
    ensures r.Returns? ==> r.value == s.(findings := r.value.findings)
    ensures r.Returns? ==> var f := r.value.findings;
      && f.tfsec.Some? && f.checkov.Some? && f.infracost.Some?
      && f.warnings == Warnings(PlanResults(s, host))
      && f.terraform == Lookup(PlanResults(s, host), "terraform")
      && f.conftest == map[] && f.gitleaks == map[]
    ensures r.Returns? ==> var f := r.value.findings;
      && f.tfsec.Some? && IsHistogram(f.tfsec.value.severities)
      && Total(f.tfsec.value.severities) == f.tfsec.value.count
      && f.checkov.Some? && IsHistogram(f.checkov.value.severities)
      && Total(f.checkov.value.severities) == f.checkov.value.count
  {
    var results := PlanResults(s, host);
    match Aggregate(results, floats)
    case Raises => Raises
    case Returns(agg) =>
      Returns(s.(findings := Findings(
        Some(agg.tfsec), Some(agg.checkov), Lookup(results, "terraform"),
        map[], Some(agg.infracost), map[], agg.warnings)))
  }

  /** The tools node raises exactly when aggregate raises on the executed plan's results. */
  lemma ToolsNodeRaises(s: AgentState, host: Runner.Host, floats: Floats)
    ensures ToolsNode(s, host, floats).Raises? <==> Aggregate(PlanResults(s, host), floats).Raises?
  {
  }

  /** The three summaries in the findings are the ones aggregate returned for the executed plan. */
  lemma ToolsNodeCopiesAggregate(s: AgentState, host: Runner.Host, floats: Floats)
    ensures var r := ToolsNode(s, host, floats);
      var a := Aggregate(PlanResults(s, host), floats);
      r.Returns? ==>
        && a.Returns?
        && r.value.findings.tfsec == Some(a.value.tfsec)
        && r.value.findings.checkov == Some(a.value.checkov)
        && r.value.findings.infracost == Some(a.value.infracost)
  {
  }

  /** Reordering keeps the set of tools the steps name. */
  lemma ExecutionOrderSameTools(steps: seq<PlanStep>, t: ToolName)
    ensures (exists i :: 0 <= i < |steps| && steps[i].tool == t) <==>
      (exists j :: 0 <= j < |ExecutionOrder(steps)| && ExecutionOrder(steps)[j].tool == t)
  {
    var order := ExecutionOrder(steps);
    ExecutionOrderIsStablePartition(steps);
    if i :| 0 <= i < |steps| && steps[i].tool == t {
      assert steps[i] in multiset(order);
      var j :| 0 <= j < |order| && order[j] == steps[i];
    }
    if j :| 0 <= j < |order| && order[j].tool == t {
      assert order[j] in multiset(steps);
      var i :| 0 <= i < |steps| && steps[i] == order[j];
    }
  }

  /** A tool with a result key has an entry exactly when some step names it, holding its run's result. */
  lemma ExecuteKey(host: Runner.Host, repo: string, steps: seq<PlanStep>, t: ToolName)
    requires ResultKey(t).Some?
    ensures var e := Execute(host, repo, steps);
      ResultKey(t).value in e.results <==> exists i :: 0 <= i < |steps| && steps[i].tool == t
    ensures var e := Execute(host, repo, steps);
      ResultKey(t).value in e.results ==> e.results[ResultKey(t).value] == RunTool(host, repo, t).value.result
  {
    ExecuteResults(host, repo, steps);
    var e := Execute(host, repo, steps);
    var k := ResultKey(t).value;
    if k in e.results {
      var i :| 0 <= i < |steps| && ResultKey(steps[i].tool) == Some(k);
      ResultKeyInjective(steps[i].tool, t);
    }
  }

  /**
   * The results map holds a terraform entry exactly when the plan holds a
   * terraform_plan step, and then it is the result of `terraform_plan`.
   */
  lemma PlanResultsTerraform(s: AgentState, host: Runner.Host)
    ensures "terraform" in PlanResults(s, host) <==>
      exists i :: 0 <= i < |PlanSteps(s)| && PlanSteps(s)[i].tool == TerraformPlan
    ensures "terraform" in PlanResults(s, host) ==>
      PlanResults(s, host)["terraform"] == Runner.TerraformPlan(host, s.ctx.repoDir).result
  {
    ExecutionOrderSameTools(PlanSteps(s), TerraformPlan);
    ExecuteKey(host, s.ctx.repoDir, ExecutionOrder(PlanSteps(s)), TerraformPlan);
  }

  /**
   * The terraform entry of the findings is present exactly when the plan
   * holds a terraform_plan step, and then it is the result of running
   * `terraform_plan` on the repository.
   */
  lemma ToolsNodeTerraform(s: AgentState, host: Runner.Host, floats: Floats)
    ensures var r := ToolsNode(s, host, floats);
      r.Returns? ==> (r.value.findings.terraform.Some? <==>
        exists i :: 0 <= i < |PlanSteps(s)| && PlanSteps(s)[i].tool == TerraformPlan)
    ensures var r := ToolsNode(s, host, floats);
      r.Returns? && r.value.findings.terraform.Some? ==>
        r.value.findings.terraform.value == Runner.TerraformPlan(host, s.ctx.repoDir).result
  {
    PlanResultsTerraform(s, host);
  }

  // -------------------------------------------------------------- synthesis

  /** Python's repr of a severities dict, keys in histogram order. */
  function HistEntries(h: map<string, nat>, keys: seq<string>): seq<string>
    decreases |keys|
  {
    if keys == [] then []
    else (if keys[0] in h then ["'" + keys[0] + "': " + NatStr(h[keys[0]])] else []) + HistEntries(h, keys[1..])
  }

  function HistRepr(h: map<string, nat>): string {
    "{" + Join(HistEntries(h, Levels), ", ") + "}"
  }

  /** A five-level histogram renders as one `'LEVEL': count` entry per level, in level order. */
  lemma HistEntriesOfHistogram(h: map<string, nat>)
    requires IsHistogram(h)
    ensures HistEntries(h, Levels) == seq(5, i requires 0 <= i < 5 => "'" + Levels[i] + "': " + NatStr(h[Levels[i]]))
  {
    var e := seq(5, i requires 0 <= i < 5 => "'" + Levels[i] + "': " + NatStr(h[Levels[i]]));
    assert HistEntries(h, Levels[4..]) == [e[4]];
    assert HistEntries(h, Levels[3..]) == [e[3]] + [e[4]];
    assert HistEntries(h, Levels[2..]) == [e[2]] + [e[3], e[4]];
    assert HistEntries(h, Levels[1..]) == [e[1]] + [e[2], e[3], e[4]];
  }

  /** A tool's finding count as the report prints it, 0 when the summary is absent. */
  function CountText(t: Option<ToolSummary>): string {
    if t.Some? then NatStr(t.value.count) else "0"
  }

  /** A tool's severity histogram as the report prints it, an empty dict when the summary is absent. */
  function SeveritiesText(t: Option<ToolSummary>): string {
    if t.Some? then HistRepr(t.value.severities) else "{}"
  }

  /** The monthly cost as the report prints it: "unavailable" without a cost entry, "None" when the entry holds no total. */
  function CostText(c: Option<CostSummary>, floats: Floats): string {
    match c
    case None => "unavailable"
    case Some(CostSummary(None)) => "None"
    case Some(CostSummary(Some(v))) => floats.show(v)
  }

  const ReportHeading: string := "# InfraGuardian Report (deterministic)"

  /** The lines of the deterministic report; the warnings line only when there are warnings. */
  function ReportLines(f: Findings, floats: Floats): (lines: seq<string>)
    ensures |lines| == if f.warnings == [] then 4 else 5
    ensures lines[0] == ReportHeading
    ensures lines[1] == "**tfsec**: " + CountText(f.tfsec) + " issues \U{2014} " + SeveritiesText(f.tfsec)
    ensures lines[2] == "**Checkov**: " + CountText(f.checkov) + " issues \U{2014} " + SeveritiesText(f.checkov)
    ensures lines[3] == "**Estimated Monthly Cost**: " + CostText(f.infracost, floats)
    ensures f.warnings != [] ==> lines[4] == "> Warnings: " + Join(f.warnings, "; ")
  {
    [ ReportHeading,
      "**tfsec**: " + CountText(f.tfsec) + " issues \U{2014} " + SeveritiesText(f.tfsec),
      "**Checkov**: " + CountText(f.checkov) + " issues \U{2014} " + SeveritiesText(f.checkov),
      "**Estimated Monthly Cost**: " + CostText(f.infracost, floats) ]
    + (if f.warnings != [] then ["> Warnings: " + Join(f.warnings, "; ")] else [])
  }

  /** The deterministic markdown: the report lines separated by blank lines. */
  function DeterministicReport(f: Findings, floats: Floats): (r: string)
    ensures ReportHeading <= r && r != ""
  {
    var lines := ReportLines(f, floats);
    JoinStartsWithFirst(lines, "\n\n");
    Join(lines, "\n\n")
  }

  /** Python's repr of a tool summary dict. */
  function SummaryRepr(t: Option<ToolSummary>): string {
    if t.Some? then "{'count': " + NatStr(t.value.count) + ", 'severities': " + HistRepr(t.value.severities) + "}"
    else "{}"
  }

  /** Python's repr of the infracost dict. */
  function CostRepr(c: Option<CostSummary>, floats: Floats): string {
    match c
    case None => "{}"
    case Some(CostSummary(None)) => "{'monthly_cost': None}"
    case Some(CostSummary(Some(v))) => "{'monthly_cost': " + floats.show(v) + "}"
  }

  const FallbackHeading: string := "# InfraGuardian Report (fallback)\n\n"

  /** The report written when the model's synthesis call raised `e`: it opens with the heading and the error. */
  function FallbackReport(e: string, f: Findings, floats: Floats): (r: string)
    ensures FallbackHeading + "LLM synthesis failed: " + e <= r
  {
    var head := FallbackHeading + "LLM synthesis failed: " + e;
    head + FallbackDetails(f, floats)
  }

  /** The summaries listed under the fallback report's heading. */
  function FallbackDetails(f: Findings, floats: Floats): string {
    "\n\n"
    + "- tfsec: " + SummaryRepr(f.tfsec) + "\n"
    + "- checkov: " + SummaryRepr(f.checkov) + "\n"
    + "- cost: " + CostRepr(f.infracost, floats) + "\n"
  }

  /**
   * `synth_node`: writes only the synthesis. Without a model the report is
   * the deterministic template; the model's empty answer becomes "(empty)";
   * a model failure gives the fallback report naming the error.
   */
  function SynthNode(s: AgentState, llm: Option<Llm>, floats: Floats): (r: AgentState)
    ensures r == s.(synthesis := r.synthesis)
    ensures r.synthesis.Some? && r.synthesis.value.markdown != ""
    ensures r.synthesis.value.risksRanked == [] && r.synthesis.value.controls == []
    ensures llm.None? ==> r.synthesis.value.markdown == DeterministicReport(s.findings, floats)
    ensures llm.Some? && llm.value.report(s.findings).Failure? ==>
      FallbackHeading + "LLM synthesis failed: " + llm.value.report(s.findings).error <= r.synthesis.value.markdown
    ensures llm.Some? && llm.value.report(s.findings).Success? && llm.value.report(s.findings).value != "" ==>
      r.synthesis.value.markdown == llm.value.report(s.findings).value
    ensures llm.Some? && llm.value.report(s.findings) == Success("") ==>
      r.synthesis.value.markdown == "(empty)"
  {
    match llm
    case None =>
      s.(synthesis := Some(NewSynthesis(DeterministicReport(s.findings, floats))))
    case Some(m) =>
      match m.report(s.findings)
      case Success(md) => s.(synthesis := Some(NewSynthesis(if md == "" then "(empty)" else md)))
      case Failure(e) =>
        s.(synthesis := Some(NewSynthesis(FallbackReport(e, s.findings, floats))))
  }

  // ------------------------------------------------------------------- patch

  const PatchNote: string := "Auto-fix patch generation arrives in the next milestone."

  /** `patcher_node`: writes only the patch, always the fixed note and no diff. */
  function PatcherNode(s: AgentState): (r: AgentState)
    ensures r == s.(patch := r.patch)
    ensures r.patch == Some(PatchSuggestion(None, Some(PatchNote)))
  {
    s.(patch := Some(PatchSuggestion(None, Some(PatchNote))))
  }

  // ---------------------------------------------------------------- pipeline

  /**
   * The compiled graph: planner, tools, synth, patch, in that order, from a
   * fresh state. It raises only when the tools node does.
   */
  function Review(ctx: RepoContext, host: Runner.Host, llm: Option<Llm>, floats: Floats): (r: Outcome<AgentState>)
    ensures r.Returns? ==>
      && r.value.ctx == ctx
      && r.value.plan.Some? && r.value.plan.value.steps != []
      && r.value.synthesis.Some?
      && r.value.patch == Some(PatchSuggestion(None, Some(PatchNote)))
    ensures r.Returns? ==> r.value.plan == PlannerNode(NewState(ctx), llm).plan
    ensures r.Returns? ==> r.value.synthesis == SynthNode(r.value, llm, floats).synthesis
  {
    var planned := PlannerNode(NewState(ctx), llm);
    match ToolsNode(planned, host, floats)
    case Raises => Raises
    case Returns(withFindings) => Returns(PatcherNode(SynthNode(withFindings, llm, floats)))
  }

  /**
   * The pipeline runs the nodes in line: it raises exactly when the tools
   * node raises on the planned state, and otherwise its findings are those
   * the tools node wrote.
   */
  lemma ReviewComposes(ctx: RepoContext, host: Runner.Host, llm: Option<Llm>, floats: Floats)
    ensures var planned := PlannerNode(NewState(ctx), llm);
      Review(ctx, host, llm, floats).Raises? <==> ToolsNode(planned, host, floats).Raises?
    ensures var planned := PlannerNode(NewState(ctx), llm);
      Review(ctx, host, llm, floats).Returns? ==>
        Review(ctx, host, llm, floats).value.findings == ToolsNode(planned, host, floats).value.findings
  {
  }
}
