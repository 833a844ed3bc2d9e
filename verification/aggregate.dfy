/**
 * `aggregate`: folds the per-tool command results into one summary —
 * tfsec and Checkov findings with a five-bucket severity histogram and the
 * first five findings of each, the Infracost monthly total, and warnings for
 * tools whose output could not be used.
 *
 * The Python function raises on some malformed tool output (a tfsec
 * `"results": null`, a finding that is not an object, a truthy severity
 * that is not a string, ...). Such runs are modelled as `Raises`.
 */
module Aggregation {
  import opened Wrappers
  import opened Values
  import opened Text
  import opened Runner

  /** The severity levels, in the histogram's key order. */
  const Levels: seq<string> := ["CRITICAL", "HIGH", "MEDIUM", "LOW", "UNKNOWN"]
  const LevelSet: set<string> := {"CRITICAL", "HIGH", "MEDIUM", "LOW", "UNKNOWN"}

  /** A histogram keyed by exactly the five severity levels. */
  predicate IsHistogram(h: map<string, nat>) {
    h.Keys == LevelSet
  }

  const ZeroHistogram: map<string, nat> :=
    map["CRITICAL" := 0, "HIGH" := 0, "MEDIUM" := 0, "LOW" := 0, "UNKNOWN" := 0]

  /** The sum of a histogram's values. */
  function Total(h: map<string, nat>): nat
    requires IsHistogram(h)
  {
    h["CRITICAL"] + h["HIGH"] + h["MEDIUM"] + h["LOW"] + h["UNKNOWN"]
  }

  /** `{"count": ..., "severities": ...}` for tfsec or Checkov. */
  datatype ToolSummary = ToolSummary(count: nat, severities: map<string, nat>)

  /** `{"monthly_cost": ...}`; None is Python's None, "unknown", not zero. */
  datatype CostSummary = CostSummary(monthlyCost: Option<real>)

  /** One entry of `top_tfsec` (id under "rule_id") or `top_checkov` (id under "check_id"). */
  datatype TopIssue = TopIssue(id: Json, severity: Json, resource: Json)

  /** The dict `aggregate` returns. */
  datatype Summary = Summary(
    warnings: seq<string>,
    tfsec: ToolSummary,
    checkov: ToolSummary,
    infracost: CostSummary,
    topTfsec: seq<TopIssue>,
    topCheckov: seq<TopIssue>)

  // ---------------------------------------------------------------- lookups

  /** The result stored under a tool's key; an absent tool reads as an empty result. */
  function Lookup(results: map<string, CmdResult>, key: string): Option<CmdResult> {
    if key in results then Some(results[key]) else None
  }

  /** The parsed JSON of a possibly absent result. */
  function JsonOf(r: Option<CmdResult>): Option<Json> {
    if r.Some? then r.value.JsonField() else None
  }

  /** The top-level stderr of a possibly absent result. */
  function StderrOf(r: Option<CmdResult>): Option<string> {
    if r.Some? then r.value.StderrField() else None
  }

  // --------------------------------------------------------------- warnings

  /** One warning line: the tool's name, a colon, and the stderr it reported. */
  function Warning(tool: string, stderr: string): string {
    tool + ": " + stderr
  }

  /**
   * The warning `"<tool>: <stderr>"` appended in the `elif` branch: only when
   * the tool's JSON was not taken (`handled` false) and its stderr is non-empty.
   */
  function WarningFor(tool: string, r: Option<CmdResult>, handled: bool): (w: seq<string>)
    ensures |w| <= 1
    ensures w != [] <==> !handled && StderrOf(r).Some? && StderrOf(r).value != ""
    ensures w != [] ==> w[0] == Warning(tool, StderrOf(r).value)
  {
    if handled then []
    else match StderrOf(r)
      case Some(e) => if e != "" then [Warning(tool, e)] else []
      case None => []
  }

  /** tfsec and Checkov take any truthy JSON; Infracost only a truthy object. */
  predicate TakesJson(r: Option<CmdResult>) {
    OptTruthy(JsonOf(r))
  }

  predicate TakesCostJson(r: Option<CmdResult>) {
    OptTruthy(JsonOf(r)) && JsonOf(r).value.JObj?
  }

  /** The warnings list, in the order tfsec, checkov, infracost. */
  function Warnings(results: map<string, CmdResult>): (w: seq<string>)
    ensures |w| <= 3
  {
    var tf := Lookup(results, "tfsec");
    var ck := Lookup(results, "checkov");
    var ic := Lookup(results, "infracost");
    WarningFor("tfsec", tf, TakesJson(tf))
    + WarningFor("checkov", ck, TakesJson(ck))
    + WarningFor("infracost", ic, TakesCostJson(ic))
  }

  // ------------------------------------------------------ finding extraction

  /**
   * The elements a loop over `v` sees when its body calls `.get` on each of
   * them (or, for Checkov, when `lst += v` is later counted that way). A list
   * gives its items; an empty string or object gives nothing; a non-empty
   * string or object yields string elements on which `.get` raises; null, a
   * bool or a number is not iterable and raises.
   */
  function Iterate(v: Json): Outcome<seq<Json>> {
    match v
    case JArr(items) => Returns(items)
    case JStr(s) => if s == "" then Returns([]) else Raises
    case JObj(m) => if m == map[] then Returns([]) else Raises
    case _ => Raises
  }

  /**
   * tfsec's `results` value used as the findings list: `len`, counting and
   * `[:5]` must all work on it, which leaves a list or the empty string (an
   * object, even empty, cannot be sliced).
   */
  function TfsecList(v: Json): Outcome<seq<Json>> {
    if v.JObj? then Raises else Iterate(v)
  }

  /** tfsec findings: `json["results"]` when the JSON is a truthy object, else none. */
  function TfsecFindings(r: Option<CmdResult>): Outcome<seq<Json>> {
    var j := JsonOf(r);
    if OptTruthy(j) && j.value.JObj? then TfsecList(GetOrDefault(j.value.fields, "results", JArr([])))
    else Returns([])
  }

  /** The failed checks listed under one Checkov framework object's results; missing levels read as empty. */
  function FailedChecks(fw: Json): Outcome<seq<Json>> {
    if !fw.JObj? then Raises
    else
      var res := GetOrDefault(fw.fields, "results", JObj(map[]));
      if !res.JObj? then Raises
      else Iterate(GetOrDefault(res.fields, "failed_checks", JArr([])))
  }

  /** Concatenation of two partial lists: raises when either raised. */
  function Concat(a: Outcome<seq<Json>>, b: Outcome<seq<Json>>): Outcome<seq<Json>> {
    if a.Raises? || b.Raises? then Raises else Returns(a.value + b.value)
  }

  /** The Checkov loop over a list of framework objects, accumulating failed checks in order. */
  function Flatten(fws: seq<Json>): (r: Outcome<seq<Json>>)
    ensures r.Returns? <==> forall i :: 0 <= i < |fws| ==> FailedChecks(fws[i]).Returns?
    decreases |fws|
  {
    if fws == [] then Returns([])
    else Concat(Flatten(fws[..|fws| - 1]), FailedChecks(fws[|fws| - 1]))
  }

  /** Checkov findings: a list flattens, an object gives its own list, anything else none. */
  function CheckovFindings(r: Option<CmdResult>): Outcome<seq<Json>> {
    var j := JsonOf(r);
    if !OptTruthy(j) then Returns([])
    else match j.value
      case JArr(fws) => Flatten(fws)
      case JObj(_) => FailedChecks(j.value)
      case _ => Returns([])
  }

  // ------------------------------------------------------------- severities

  /**
   * The severity text of one finding before upper-casing: the first truthy
   * of its severity and severity-label fields, else "UNKNOWN". Raises when
   * the finding is not an object or the chosen value is not a string.
   */
  function RawSeverity(f: Json): Outcome<string> {
    if !f.JObj? then Raises
    else
      var sev := Get(f.fields, "severity");
      var sevLabel := Get(f.fields, "severity_label");
      var chosen := if Truthy(sev) then sev else if Truthy(sevLabel) then sevLabel else JStr("UNKNOWN");
      if chosen.JStr? then Returns(chosen.s) else Raises
  }

  /** Upper-cases a severity and sends anything outside the five levels to UNKNOWN. */
  function Bucket(sev: string): (l: string)
    ensures l in LevelSet
    ensures l == Upper(sev) || (Upper(sev) !in LevelSet && l == "UNKNOWN")
  {
    var u := Upper(sev);
    if u in LevelSet then u else "UNKNOWN"
  }

  /** The bucket of every finding, in order; raises when any finding's severity cannot be read. */
  function Normalized(fs: seq<Json>): Outcome<seq<string>> {
    if forall i :: 0 <= i < |fs| ==> RawSeverity(fs[i]).Returns? then
      Returns(seq(|fs|, i requires 0 <= i < |fs| => Bucket(RawSeverity(fs[i]).value)))
    else Raises
  }

  lemma NormalizedSnoc(fs: seq<Json>)
    requires fs != []
    ensures Normalized(fs).Returns? <==>
      Normalized(fs[..|fs| - 1]).Returns? && RawSeverity(fs[|fs| - 1]).Returns?
    ensures Normalized(fs).Returns? ==>
      Normalized(fs).value == Normalized(fs[..|fs| - 1]).value + [Bucket(RawSeverity(fs[|fs| - 1]).value)]
  {
    var init := fs[..|fs| - 1];
    if forall i :: 0 <= i < |fs| ==> RawSeverity(fs[i]).Returns? {
      assert forall i :: 0 <= i < |init| ==> init[i] == fs[i];
    } else {
      var k :| 0 <= k < |fs| && RawSeverity(fs[k]).Raises?;
      if k < |init| {
        assert init[k] == fs[k];
      }
    }
  }

  /**
   * `sev_count(findings)`: counts each finding into its bucket. The result is
   * keyed by exactly the five levels, sums to the number of findings, and
   * each bucket holds how many findings normalise to it.
   */
  function SevCount(fs: seq<Json>): (r: Outcome<map<string, nat>>)
    ensures r.Returns? <==> Normalized(fs).Returns?
    ensures r.Returns? ==> IsHistogram(r.value) && Total(r.value) == |fs|
    ensures r.Returns? ==>
      forall l :: l in LevelSet ==> r.value[l] == multiset(Normalized(fs).value)[l]
    decreases |fs|
  {
    if fs == [] then Returns(ZeroHistogram)
    else
      NormalizedSnoc(fs);
      var rest := SevCount(fs[..|fs| - 1]);
      var sev := RawSeverity(fs[|fs| - 1]);
      if rest.Raises? || sev.Raises? then Raises
      else
        var l := Bucket(sev.value);
        CountOneMore(rest.value, Normalized(fs[..|fs| - 1]).value, l);
        Returns(rest.value[l := rest.value[l] + 1])
  }

  /** Counting one more finding into bucket `l` keeps the histogram in step with the list of buckets. */
  lemma CountOneMore(h: map<string, nat>, buckets: seq<string>, l: string)
    requires IsHistogram(h) && l in LevelSet
    requires forall k :: k in LevelSet ==> h[k] == multiset(buckets)[k]
    ensures IsHistogram(h[l := h[l] + 1]) && Total(h[l := h[l] + 1]) == Total(h) + 1
    ensures forall k :: k in LevelSet ==> h[l := h[l] + 1][k] == multiset(buckets + [l])[k]
  {
    assert multiset(buckets + [l]) == multiset(buckets) + multiset{l};
  }

  // ------------------------------------------------------------------ costs

  /** `float(v)` on a JSON value; None when it raises (the loop then skips the project). */
  function ParseCost(floats: Floats, v: Json): Option<real> {
    match v
    case JNum(n) => Some(n)
    case JBool(b) => Some(if b then 1.0 else 0.0)
    case JStr(s) => floats.parse(s)
    case _ => None
  }

  /**
   * What one project contributes: raises when it or its `summary` is not an
   * object; no contribution when `totalMonthlyCost` is missing, null or does
   * not convert.
   */
  function ProjectCost(floats: Floats, p: Json): Outcome<Option<real>> {
    if !p.JObj? then Raises
    else
      var s := GetOrDefault(p.fields, "summary", JObj(map[]));
      if !s.JObj? then Raises
      else
        var c := Get(s.fields, "totalMonthlyCost");
        if c.JNull? then Returns(None) else Returns(ParseCost(floats, c))
  }

  /** Adds one project's cost to the running total, which starts absent. */
  function AddCost(total: Option<real>, val: real): Option<real> {
    if total.None? then Some(val) else Some(total.value + val)
  }

  /** The Infracost loop over the projects, threading the running total. */
  function CostLoop(floats: Floats, projects: seq<Json>, total: Option<real>): Outcome<Option<real>>
    decreases |projects|
  {
    if projects == [] then Returns(total)
    else match ProjectCost(floats, projects[0])
      case Raises => Raises
      case Returns(c) =>
        CostLoop(floats, projects[1..], if c.Some? then AddCost(total, c.value) else total)
  }

  /** The values the projects contribute, in order; raises when any project is malformed. */
  function Contributions(floats: Floats, projects: seq<Json>): Outcome<seq<real>>
    decreases |projects|
  {
    if projects == [] then Returns([])
    else match (ProjectCost(floats, projects[0]), Contributions(floats, projects[1..]))
      case (Returns(c), Returns(cs)) => Returns(if c.Some? then [c.value] + cs else cs)
      case _ => Raises
  }

  function Sum(xs: seq<real>): real
    decreases |xs|
  {
    if xs == [] then 0.0 else xs[0] + Sum(xs[1..])
  }

  /**
   * The loop's total is absent exactly when nothing contributed, and is
   * otherwise the running total plus the sum of the contributions.
   */
  lemma {:induction false} CostLoopSums(floats: Floats, projects: seq<Json>, total: Option<real>)
    ensures CostLoop(floats, projects, total).Returns? <==> Contributions(floats, projects).Returns?
    ensures Contributions(floats, projects).Returns? ==>
      var cs := Contributions(floats, projects).value;
      CostLoop(floats, projects, total).value ==
        if cs == [] then total
        else Some(total.GetOr(0.0) + Sum(cs))
    decreases |projects|
  {
    if projects != [] {
      var c := ProjectCost(floats, projects[0]);
      if c.Returns? {
        var next := if c.value.Some? then AddCost(total, c.value.value) else total;
        CostLoopSums(floats, projects[1..], next);
      }
    }
  }

  /** The Infracost total: the projects of a truthy object, summed; absent otherwise. */
  function InfracostCost(floats: Floats, r: Option<CmdResult>): Outcome<Option<real>> {
    var j := JsonOf(r);
    if OptTruthy(j) && j.value.JObj? then
      match Iterate(GetOrDefault(j.value.fields, "projects", JArr([])))
      case Raises => Raises
      case Returns(projects) => CostLoop(floats, projects, None)
    else Returns(None)
  }

  // -------------------------------------------------------------- top issues

  function Min(a: nat, b: nat): nat {
    if a <= b then a else b
  }

  /** The first five findings, each projected to its id (under `idKey`), severity and resource. */
  function Top(fs: seq<Json>, idKey: string): (r: seq<TopIssue>)
    requires forall i :: 0 <= i < |fs| ==> fs[i].JObj?
    ensures |r| == Min(5, |fs|)
    ensures forall i :: 0 <= i < |r| ==>
      r[i] == TopIssue(Get(fs[i].fields, idKey), Get(fs[i].fields, "severity"), Get(fs[i].fields, "resource"))
  {
    var n := Min(5, |fs|);
    seq(n, i requires 0 <= i < n =>
      TopIssue(Get(fs[i].fields, idKey), Get(fs[i].fields, "severity"), Get(fs[i].fields, "resource")))
  }

  lemma NormalizedObjects(fs: seq<Json>)
    requires Normalized(fs).Returns?
    ensures forall i :: 0 <= i < |fs| ==> fs[i].JObj?
  {
    assert forall i :: 0 <= i < |fs| ==> RawSeverity(fs[i]).Returns?;
  }

  // --------------------------------------------------------------- aggregate

  /**
   * `aggregate(results)`. When it returns, both histograms are well formed
   * and sum to their counts, the warnings are those of `Warnings`, and an
   * absent tool reads as zero findings.
   */
  function Aggregate(results: map<string, CmdResult>, floats: Floats): (r: Outcome<Summary>)
    ensures r.Returns? ==>
      && IsHistogram(r.value.tfsec.severities) && Total(r.value.tfsec.severities) == r.value.tfsec.count
      && IsHistogram(r.value.checkov.severities) && Total(r.value.checkov.severities) == r.value.checkov.count
      && r.value.warnings == Warnings(results)
    ensures "tfsec" !in results ==> r.Returns? ==> r.value.tfsec == ToolSummary(0, ZeroHistogram)
    ensures "checkov" !in results ==> r.Returns? ==> r.value.checkov == ToolSummary(0, ZeroHistogram)
    ensures "infracost" !in results ==> r.Returns? ==> r.value.infracost == CostSummary(None)
    ensures
      var tf := TfsecFindings(Lookup(results, "tfsec"));
      var ck := CheckovFindings(Lookup(results, "checkov"));
      var cost := InfracostCost(floats, Lookup(results, "infracost"));
      && (r.Returns? <==>
           tf.Returns? && ck.Returns? && cost.Returns? && Normalized(tf.value).Returns? && Normalized(ck.value).Returns?)
      && (r.Returns? ==>
           && r.value.tfsec == ToolSummary(|tf.value|, SevCount(tf.value).value)
           && r.value.checkov == ToolSummary(|ck.value|, SevCount(ck.value).value)
           && r.value.infracost == CostSummary(cost.value))
  {
    var tf := Lookup(results, "tfsec");
    var ck := Lookup(results, "checkov");
    var ic := Lookup(results, "infracost");
    var tfFindings := TfsecFindings(tf);
    var ckFindings := CheckovFindings(ck);
    var cost := InfracostCost(floats, ic);
    if tfFindings.Raises? || ckFindings.Raises? || cost.Raises? then Raises
    else Assemble(Warnings(results), tfFindings.value, ckFindings.value, cost.value)
  }

  /**
   * The second half of `aggregate`, once the findings lists and the total
   * are extracted: it raises exactly when a severity cannot be read, each
   * summary counts its own tool's findings, and each top list projects the
   * first five of its tool's findings.
   */
  function Assemble(warnings: seq<string>, tf: seq<Json>, ck: seq<Json>, cost: Option<real>): (r: Outcome<Summary>)
    ensures r.Returns? <==> Normalized(tf).Returns? && Normalized(ck).Returns?
    ensures r.Returns? ==>
      && r.value.warnings == warnings
      && r.value.tfsec.count == |tf| && r.value.checkov.count == |ck|
      && IsHistogram(r.value.tfsec.severities) && Total(r.value.tfsec.severities) == |tf|
      && IsHistogram(r.value.checkov.severities) && Total(r.value.checkov.severities) == |ck|
      && r.value.tfsec.severities == SevCount(tf).value && r.value.checkov.severities == SevCount(ck).value
      && r.value.infracost == CostSummary(cost)
      && |r.value.topTfsec| == Min(5, |tf|) && |r.value.topCheckov| == Min(5, |ck|)
    ensures r.Returns? ==>
      && (forall i :: 0 <= i < |tf| ==> tf[i].JObj?)
      && (forall i :: 0 <= i < |ck| ==> ck[i].JObj?)
      && r.value.topTfsec == Top(tf, "rule_id")
      && r.value.topCheckov == Top(ck, "check_id")
  {
    var tfHist := SevCount(tf);
    var ckHist := SevCount(ck);
    if tfHist.Raises? || ckHist.Raises? then Raises
    else
      NormalizedObjects(tf);
      NormalizedObjects(ck);
      Returns(Summary(
        warnings,
        ToolSummary(|tf|, tfHist.value),
        ToolSummary(|ck|, ckHist.value),
        CostSummary(cost),
        Top(tf, "rule_id"),
        Top(ck, "check_id")))
  }

  // ------------------------------------------------------------ properties

  /** The top lists of the summary project the first five extracted findings of each tool. */
  lemma AggregateTopLists(results: map<string, CmdResult>, floats: Floats)
    ensures var r := Aggregate(results, floats);
      var tf := TfsecFindings(Lookup(results, "tfsec"));
      var ck := CheckovFindings(Lookup(results, "checkov"));
      r.Returns? ==>
        && tf.Returns? && ck.Returns?
        && (forall i :: 0 <= i < |tf.value| ==> tf.value[i].JObj?)
        && (forall i :: 0 <= i < |ck.value| ==> ck.value[i].JObj?)
        && r.value.topTfsec == Top(tf.value, "rule_id")
        && r.value.topCheckov == Top(ck.value, "check_id")
  {
  }

  /** Checkov's list output flattens piecewise: the findings of `a + b` are those of `a` then of `b`. */
  lemma {:induction false} FlattenAppend(a: seq<Json>, b: seq<Json>)
    ensures Flatten(a + b) == Concat(Flatten(a), Flatten(b))
    decreases |b|
  {
    if b == [] {
      assert a + b == a;
      if Flatten(a).Returns? {
        assert Flatten(a).value + [] == Flatten(a).value;
      }
    } else {
      var b' := b[..|b| - 1];
      assert (a + b)[..|a + b| - 1] == a + b';
      assert (a + b)[|a + b| - 1] == b[|b| - 1];
      FlattenAppend(a, b');
      assert Flatten(b) == Concat(Flatten(b'), FailedChecks(b[|b| - 1]));
      var fa, fb', fl := Flatten(a), Flatten(b'), FailedChecks(b[|b| - 1]);
      if fa.Returns? && fb'.Returns? && fl.Returns? {
        assert fa.value + fb'.value + fl.value == fa.value + (fb'.value + fl.value);
      }
    }
  }

  /** A one-element list of frameworks yields the same findings as that framework object alone. */
  lemma CheckovListOfOneIsObject(fw: Json)
    requires fw.JObj?
    ensures CheckovFindings(Some(Scanned(true, Some(JArr([fw])), ProcResult(true, 0, "", "", []))))
         == CheckovFindings(Some(Scanned(true, Some(fw), ProcResult(true, 0, "", "", []))))
  {
    assert [fw][..0] == [];
    var fc := FailedChecks(fw);
    assert Flatten([fw]) == Concat(Flatten([]), fc);
    if fc.Returns? {
      assert [] + fc.value == fc.value;
    }
    assert Flatten([fw]) == fc;
  }

  /** JSON that is neither a list nor an object (a number, a string, ...) yields no Checkov findings. */
  lemma CheckovScalarYieldsNothing(r: CmdResult)
    requires r.JsonField().Some? && !r.JsonField().value.JArr? && !r.JsonField().value.JObj?
    ensures CheckovFindings(Some(r)) == Returns([])
  {
  }

  /**
   * Tool `t` warns: its result dict is present, carries a non-empty
   * top-level stderr, and its JSON was not taken (any truthy JSON for tfsec
   * and Checkov, a truthy object for Infracost).
   */
  predicate Warns(results: map<string, CmdResult>, t: string) {
    && t in results
    && results[t].StderrField().Some? && results[t].StderrField().value != ""
    && !(if t == "infracost" then TakesCostJson(Some(results[t])) else TakesJson(Some(results[t])))
  }

  /** The warning line of tool `t`, if it warns. */
  function WarningLine(results: map<string, CmdResult>, t: string): (w: seq<string>)
    ensures |w| <= 1
  {
    if Warns(results, t) then [Warning(t, results[t].StderrField().value)] else []
  }

  /**
   * A warning names its tool and is present exactly when that tool warns;
   * a tool absent from the results map never warns.
   */
  lemma WarningsExactly(results: map<string, CmdResult>)
    ensures var w := Warnings(results);
      forall s :: s in w <==>
        (exists t :: t in ["tfsec", "checkov", "infracost"] && Warns(results, t)
          && s == Warning(t, results[t].StderrField().value))
  {
    WarningsInOrder(results);
    var w := Warnings(results);
    forall s
      ensures s in w <==>
        (exists t :: t in ["tfsec", "checkov", "infracost"] && Warns(results, t)
          && s == Warning(t, results[t].StderrField().value))
    {
      assert w == WarningLine(results, "tfsec") + WarningLine(results, "checkov") + WarningLine(results, "infracost");
    }
  }

  /**
   * The warnings list holds at most one line per tool, in the order tfsec,
   * checkov, infracost: exactly the lines of the tools that warn.
   */
  lemma WarningsInOrder(results: map<string, CmdResult>)
    ensures Warnings(results) ==
      WarningLine(results, "tfsec") + WarningLine(results, "checkov") + WarningLine(results, "infracost")
  {
  }

  /** A tool absent from the results contributes no findings and no cost, and does not raise. */
  lemma AbsentToolsExtractNothing(results: map<string, CmdResult>, floats: Floats)
    ensures "tfsec" !in results ==> TfsecFindings(Lookup(results, "tfsec")) == Returns([])
    ensures "checkov" !in results ==> CheckovFindings(Lookup(results, "checkov")) == Returns([])
    ensures "infracost" !in results ==> InfracostCost(floats, Lookup(results, "infracost")) == Returns(None)
  {
  }

  /** Only the "not found" shape carries a top-level stderr, so tools that ran never warn. */
  lemma ScannedToolsNeverWarn(results: map<string, CmdResult>)
    requires forall t :: t in results ==> results[t].Scanned?
    ensures Warnings(results) == []
  {
  }

  /**
   * When tfsec, Checkov and Infracost were all missing, the warnings are
   * exactly one "not found" line for each, in that order.
   */
  lemma MissingToolsWarn(results: map<string, CmdResult>)
    requires "tfsec" in results && results["tfsec"] == Missing(NotFound("tfsec"))
    requires "checkov" in results && results["checkov"] == Missing(NotFound("checkov"))
    requires "infracost" in results && results["infracost"] == Missing(NotFound("infracost"))
    ensures Warnings(results) ==
      [Warning("tfsec", NotFound("tfsec")), Warning("checkov", NotFound("checkov")), Warning("infracost", NotFound("infracost"))]
  {
  }

  /**
   * Results without any parsed JSON never raise: both tools count zero
   * findings with all-zero histograms and the total is absent.
   */
  lemma NoJsonIsAllZero(results: map<string, CmdResult>, floats: Floats)
    requires forall t :: t in results ==> results[t].JsonField().None?
    ensures Aggregate(results, floats) == Returns(Summary(
      Warnings(results),
      ToolSummary(0, ZeroHistogram), ToolSummary(0, ZeroHistogram),
      CostSummary(None), [], []))
  {
  }

  /** A severity in any letter case normalises to its level; anything else to UNKNOWN. */
  lemma BucketAnyCase(sev: string)
    ensures Upper(sev) == "CRITICAL" ==> Bucket(sev) == "CRITICAL"
    ensures Upper(sev) !in LevelSet ==> Bucket(sev) == "UNKNOWN"
    ensures Bucket(sev) == Upper(sev) <==> Upper(sev) in LevelSet
  {
  }

  /**
   * The severity is read from `severity`, else `severity_label`, skipping
   * falsy values; with neither the finding counts as UNKNOWN.
   */
  lemma SeverityPrecedence(fields: map<string, Json>)
    ensures Truthy(Get(fields, "severity")) && Get(fields, "severity").JStr? ==>
      RawSeverity(JObj(fields)) == Returns(Get(fields, "severity").s)
    ensures (!Truthy(Get(fields, "severity")) && Truthy(Get(fields, "severity_label"))
      && Get(fields, "severity_label").JStr?) ==>
      RawSeverity(JObj(fields)) == Returns(Get(fields, "severity_label").s)
    ensures !Truthy(Get(fields, "severity")) && !Truthy(Get(fields, "severity_label")) ==>
      RawSeverity(JObj(fields)).Returns? && Bucket(RawSeverity(JObj(fields)).value) == "UNKNOWN"
    ensures RawSeverity(JObj(fields)).Returns? ==> RawSeverity(JObj(fields)).value != ""
  {
  }
}
