/** Whole-pipeline and aggregation scenarios, each stated for all oracles that fit it. */
module Scenarios {
  import opened Wrappers
  import opened Values
  import opened Text
  import Runner
  import opened Aggregation
  import opened Models
  import opened Graph

  function ScannedOk(j: Json): Runner.CmdResult {
    Runner.Scanned(true, Some(j), Runner.ProcResult(true, 0, "", "", []))
  }

  function Project(cost: string): Json {
    JObj(map["summary" := JObj(map["totalMonthlyCost" := JStr(cost)])])
  }

  lemma ProjectContributes(floats: Floats, cost: string, v: real)
    requires floats.parse(cost) == Some(v)
    ensures ProjectCost(floats, Project(cost)) == Returns(Some(v))
  {
    var p := Project(cost);
    var sm := GetOrDefault(p.fields, "summary", JObj(map[]));
    assert sm == JObj(map["totalMonthlyCost" := JStr(cost)]);
    assert Get(sm.fields, "totalMonthlyCost") == JStr(cost);
  }

  /** Two projects costing 120.50 and 79.50 give a monthly total of 200. */
  lemma CostsAreSummed(floats: Floats)
    requires floats.parse("120.50") == Some(120.50) && floats.parse("79.50") == Some(79.50)
    ensures var j := JObj(map["projects" := JArr([Project("120.50"), Project("79.50")])]);
      InfracostCost(floats, Some(ScannedOk(j))) == Returns(Some(200.0))
  {
    var ps := [Project("120.50"), Project("79.50")];
    CostLoopSums(floats, ps, None);
    ProjectContributes(floats, "120.50", 120.50);
    ProjectContributes(floats, "79.50", 79.50);
    assert ps[1..] == [Project("79.50")];
    assert ps[1..][1..] == [];
    assert Contributions(floats, ps[1..][1..]) == Returns([]);
    assert [79.50] + [] == [79.50];
    assert Contributions(floats, ps[1..]) == Returns([79.50]);
    assert [120.50] + [79.50] == [120.50, 79.50];
    var cs := [120.50, 79.50];
    assert Contributions(floats, ps) == Returns(cs);
    assert cs[1..][1..] == [];
    assert Sum(cs) == 200.0;
    var j := JObj(map["projects" := JArr(ps)]);
    assert JsonOf(Some(ScannedOk(j))) == Some(j);
    assert Iterate(GetOrDefault(j.fields, "projects", JArr([]))) == Returns(ps);
  }

  /** Projects none of which has a cost leave the total absent, not zero. */
  lemma NoCostIsAbsent(floats: Floats)
    ensures var j := JObj(map["projects" := JArr([JObj(map["summary" := JObj(map[])])])]);
      InfracostCost(floats, Some(ScannedOk(j))) == Returns(None)
  {
  }

  function Check(id: string): Json {
    JObj(map["check_id" := JStr(id), "severity" := JStr("high")])
  }

  function Module(id: string): Json {
    JObj(map["results" := JObj(map["failed_checks" := JArr([Check(id)])])])
  }

  lemma ModuleChecks(id: string)
    ensures Flatten([Module(id)]) == Returns([Check(id)])
  {
    var m := Module(id);
    var res := GetOrDefault(m.fields, "results", JObj(map[]));
    assert res == JObj(map["failed_checks" := JArr([Check(id)])]);
    assert GetOrDefault(res.fields, "failed_checks", JArr([])) == JArr([Check(id)]);
    assert FailedChecks(m) == Returns([Check(id)]);
    assert [m][..0] == [];
    assert Flatten([m]) == Concat(Flatten([]), FailedChecks(m));
    assert [] + [Check(id)] == [Check(id)];
  }

  lemma TwoModulesFlatten()
    ensures CheckovFindings(Some(ScannedOk(JArr([Module("CKV_1"), Module("CKV_2")])))) ==
      Returns([Check("CKV_1"), Check("CKV_2")])
  {
    var fws := [Module("CKV_1"), Module("CKV_2")];
    FlattenAppend([fws[0]], [fws[1]]);
    assert fws == [fws[0]] + [fws[1]];
    ModuleChecks("CKV_1");
    ModuleChecks("CKV_2");
    var fs := [Check("CKV_1"), Check("CKV_2")];
    assert [Check("CKV_1")] + [Check("CKV_2")] == fs;
    assert Flatten(fws) == Returns(fs);
    assert JsonOf(Some(ScannedOk(JArr(fws)))) == Some(JArr(fws));
  }

  lemma TwoHighChecks()
    ensures SevCount([Check("CKV_1"), Check("CKV_2")]).Returns?
    ensures SevCount([Check("CKV_1"), Check("CKV_2")]).value["HIGH"] == 2
  {
    var fs := [Check("CKV_1"), Check("CKV_2")];
    assert RawSeverity(fs[0]) == Returns("high");
    assert RawSeverity(fs[1]) == Returns("high");
    UpperSamples();
    assert Bucket("high") == "HIGH";
    var n := Normalized(fs).value;
    assert n[0] == "HIGH" && n[1] == "HIGH";
    assert n == ["HIGH"] + ["HIGH"];
  }

  /** Checkov list output of two modules with one failed check each yields both checks, counted as two HIGH issues. */
  lemma CheckovModulesFlatten()
    ensures var fs := CheckovFindings(Some(ScannedOk(JArr([Module("CKV_1"), Module("CKV_2")]))));
      && fs == Returns([Check("CKV_1"), Check("CKV_2")])
      && SevCount(fs.value).Returns?
      && SevCount(fs.value).value["HIGH"] == 2
  {
    TwoModulesFlatten();
    TwoHighChecks();
  }

  lemma UpperSamples()
    ensures Upper("high") == "HIGH" && Upper("HIGH") == "HIGH" && Upper("LOW") == "LOW"
    ensures Upper("cRiTiCaL") == "CRITICAL"
  {
    var u := Upper("high");
    assert u[0] == 'H' && u[1] == 'I' && u[2] == 'G' && u[3] == 'H';
    var v := Upper("HIGH");
    assert v[0] == 'H' && v[1] == 'I' && v[2] == 'G' && v[3] == 'H';
    var w := Upper("LOW");
    assert w[0] == 'L' && w[1] == 'O' && w[2] == 'W';
    var x := Upper("cRiTiCaL");
    assert x[0] == 'C' && x[1] == 'R' && x[2] == 'I' && x[3] == 'T' && x[4] == 'I' && x[5] == 'C' && x[6] == 'A' && x[7] == 'L';
  }

  /** Severities HIGH, high and LOW count as two HIGH and one LOW. */
  lemma HighHighLowCount(a: Json, b: Json, c: Json)
    requires RawSeverity(a) == Returns("HIGH") && RawSeverity(b) == Returns("high") && RawSeverity(c) == Returns("LOW")
    ensures SevCount([a, b, c]).Returns?
    ensures var h := SevCount([a, b, c]).value;
      h.Keys == LevelSet && h["CRITICAL"] == 0 && h["HIGH"] == 2 && h["MEDIUM"] == 0 && h["LOW"] == 1 && h["UNKNOWN"] == 0
  {
    var fs := [a, b, c];
    UpperSamples();
    assert Bucket("HIGH") == "HIGH" && Bucket("high") == "HIGH" && Bucket("LOW") == "LOW";
    assert forall i :: 0 <= i < |fs| ==> RawSeverity(fs[i]).Returns?;
    var n := Normalized(fs).value;
    assert |n| == 3 && n[0] == "HIGH" && n[1] == "HIGH" && n[2] == "LOW";
    var lit: seq<string> := ["HIGH", "HIGH", "LOW"];
    assert lit[0] == "HIGH" && lit[1] == "HIGH" && lit[2] == "LOW";
    assert n == lit;
    assert lit == ["HIGH"] + ["HIGH"] + ["LOW"];
  }

  /** tfsec output listing findings of severity HIGH, high and LOW yields three issues: two HIGH, one LOW. */
  lemma TfsecHistogram(a: Json, b: Json, c: Json)
    requires RawSeverity(a) == Returns("HIGH") && RawSeverity(b) == Returns("high") && RawSeverity(c) == Returns("LOW")
    ensures var fs := TfsecFindings(Some(ScannedOk(JObj(map["results" := JArr([a, b, c])]))));
      && fs == Returns([a, b, c])
      && SevCount(fs.value).Returns?
      && var h := SevCount(fs.value).value;
         h["CRITICAL"] == 0 && h["HIGH"] == 2 && h["MEDIUM"] == 0 && h["LOW"] == 1 && h["UNKNOWN"] == 0
  {
    var j := JObj(map["results" := JArr([a, b, c])]);
    assert JsonOf(Some(ScannedOk(j))) == Some(j);
    assert GetOrDefault(j.fields, "results", JArr([])) == JArr([a, b, c]);
    assert TfsecFindings(Some(ScannedOk(j))) == Returns([a, b, c]);
    HighHighLowCount(a, b, c);
  }

  /** "cRiTiCaL" normalises to CRITICAL; a finding with neither severity field to UNKNOWN. */
  lemma CriticalAnyCase()
    ensures Bucket("cRiTiCaL") == "CRITICAL"
    ensures RawSeverity(JObj(map[])).Returns? && Bucket(RawSeverity(JObj(map[])).value) == "UNKNOWN"
  {
    UpperSamples();
    SeverityPrecedence(map[]);
  }

  /** tfsec output whose `results` is null makes `aggregate` raise (`len(None)`). */
  lemma TfsecNullResultsRaises(floats: Floats)
    ensures Aggregate(map["tfsec" := ScannedOk(JObj(map["results" := JNull]))], floats) == Raises
  {
    var j := JObj(map["results" := JNull]);
    var results := map["tfsec" := ScannedOk(j)];
    assert Lookup(results, "tfsec") == Some(ScannedOk(j));
    assert JsonOf(Some(ScannedOk(j))) == Some(j);
    assert GetOrDefault(j.fields, "results", JArr([])) == JNull;
    assert TfsecFindings(Some(ScannedOk(j))) == Raises;
  }

  /** With no plan nothing runs, and the findings are all zero with no warnings. */
  lemma NoPlanRunsNothing(s: AgentState, host: Runner.Host, floats: Floats)
    requires s.plan.None?
    ensures Execute(host, s.ctx.repoDir, ExecutionOrder([])) == Execution(map[])
    ensures ToolsNode(s, host, floats) == Returns(s.(findings := Findings(
      Some(ToolSummary(0, ZeroHistogram)), Some(ToolSummary(0, ZeroHistogram)), None,
      map[], Some(CostSummary(None)), map[], [])))
  {
    NoJsonIsAllZero(map[], floats);
  }

  /** The default plan is already in execution order. */
  lemma DefaultPlanOrder()
    ensures ExecutionOrder(DefaultSteps) == DefaultSteps
  {
    assert Keep(DefaultSteps, true) == [Step(TerraformPlan)];
    assert Keep(DefaultSteps, false) == [Step(Tfsec), Step(Checkov), Step(Infracost)];
  }

  /** A tool whose binary is missing records the "not found" result under its own key. */
  lemma MissingRun(host: Runner.Host, repo: string, t: ToolName)
    requires forall name :: !host.which(name)
    requires ResultKey(t).Some?
    ensures RunTool(host, repo, t).value.result == Runner.Missing(Runner.NotFound(ResultKey(t).value))
  {
  }

  /** The keys the default plan writes into the results map. */
  const PlanKeys: set<string> := {"terraform", "tfsec", "checkov", "infracost"}

  /** Every key the default plan writes is one of the four tools, and each key holds a "not found" result. */
  lemma AllMissingValues(host: Runner.Host, repo: string)
    requires forall name :: !host.which(name)
    ensures var e := Execute(host, repo, DefaultSteps);
      forall k :: k in e.results ==> k in PlanKeys && e.results[k] == Runner.Missing(Runner.NotFound(k))
  {
    var e := Execute(host, repo, DefaultSteps);
    ExecuteResults(host, repo, DefaultSteps);
    forall k | k in e.results
      ensures k in PlanKeys
      ensures e.results[k] == Runner.Missing(Runner.NotFound(k))
    {
      var i :| 0 <= i < |DefaultSteps| && ResultKey(DefaultSteps[i].tool) == Some(k);
      MissingRun(host, repo, DefaultSteps[i].tool);
    }
  }

  /** Each of the four tools of the default plan writes its key. */
  lemma DefaultPlanKeys(host: Runner.Host, repo: string)
    ensures var e := Execute(host, repo, DefaultSteps);
      forall k :: k in PlanKeys ==> k in e.results
  {
    ExecuteResults(host, repo, DefaultSteps);
    assert ResultKey(DefaultSteps[0].tool) == Some("terraform");
    assert ResultKey(DefaultSteps[1].tool) == Some("tfsec");
    assert ResultKey(DefaultSteps[2].tool) == Some("checkov");
    assert ResultKey(DefaultSteps[3].tool) == Some("infracost");
  }

  /** With no scanner installed, each step of the default plan records its tool as missing. */
  lemma AllMissingExecution(host: Runner.Host, repo: string)
    requires forall name :: !host.which(name)
    ensures var e := Execute(host, repo, DefaultSteps);
      && e.results.Keys == PlanKeys
      && forall k :: k in e.results ==> e.results[k] == Runner.Missing(Runner.NotFound(k))
  {
    AllMissingValues(host, repo);
    DefaultPlanKeys(host, repo);
  }

  const MissingWarnings: seq<string> :=
    [Warning("tfsec", Runner.NotFound("tfsec")), Warning("checkov", Runner.NotFound("checkov")),
     Warning("infracost", Runner.NotFound("infracost"))]

  /** The report for findings where every tool was missing: zero counts, no cost, and the three warnings in one line. */
  lemma AllMissingLines(f: Findings, floats: Floats)
    requires f.tfsec == Some(ToolSummary(0, ZeroHistogram)) && f.checkov == Some(ToolSummary(0, ZeroHistogram))
    requires f.infracost == Some(CostSummary(None)) && f.warnings == MissingWarnings
    ensures var lines := ReportLines(f, floats);
      && |lines| == 5
      && lines[1] == "**tfsec**: " + "0" + " issues \U{2014} " + HistRepr(ZeroHistogram)
      && lines[2] == "**Checkov**: " + "0" + " issues \U{2014} " + HistRepr(ZeroHistogram)
      && lines[3] == "**Estimated Monthly Cost**: " + "None"
      && lines[4] == "> Warnings: " + MissingWarnings[0] + "; " + MissingWarnings[1] + "; " + MissingWarnings[2]
  {
    assert NatStr(0) == "0";
    var w := MissingWarnings;
    assert w[..2] == [w[0], w[1]];
    assert w[..2][..1] == [w[0]];
    assert Join(w[..2], "; ") == w[0] + "; " + w[1];
  }

  /**
   * No model and no tool installed: the default plan runs nothing, the three
   * scanners each warn "not found", terraform's result is kept as is, and
   * the report is the deterministic one for those findings.
   */
  lemma AllToolsMissing(ctx: RepoContext, host: Runner.Host, floats: Floats)
    requires forall name :: !host.which(name)
    ensures var r := Review(ctx, host, None, floats);
      && r.Returns?
      && r.value.plan == Some(ReviewPlan(DefaultSteps, NoLlmJustification))
      && r.value.findings.tfsec == Some(ToolSummary(0, ZeroHistogram))
      && r.value.findings.checkov == Some(ToolSummary(0, ZeroHistogram))
      && r.value.findings.infracost == Some(CostSummary(None))
      && r.value.findings.terraform == Some(Runner.Missing(Runner.NotFound("terraform")))
      && r.value.findings.warnings == MissingWarnings
      && r.value.synthesis.value.markdown == DeterministicReport(r.value.findings, floats)
  {
    DefaultPlanOrder();
    AllMissingExecution(host, ctx.repoDir);
    var e := Execute(host, ctx.repoDir, DefaultSteps);
    NoJsonIsAllZero(e.results, floats);
    MissingToolsWarn(e.results);
  }
}
