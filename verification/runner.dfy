/**
 * Running the external tools: `_run`'s result shaping, the three-step
 * `terraform_plan` sequence and the single-command scanner wrappers.
 * The machine the tools run on is an oracle: which binaries are on PATH,
 * what a process does, and how `json.loads` reads its stdout.
 */
module Runner {
  import opened Wrappers
  import opened Values

  /** An argument vector, `cmd[0]` being the program. */
  type Command = seq<string>

  /** What happens when a process is spawned: it exits, or spawning itself raises. */
  datatype ProcOutcome =
    | Exited(code: int, stdout: string, stderr: string)
    | SpawnFailed(message: string)

  /**
   * The execution environment: `which(name)` says whether `shutil.which`
   * finds the binary, `exec(cmd, cwd)` is the process run in `cwd`, and
   * `parseJson(s)` is `json.loads(s)` (None when it raises).
   */
  datatype Host = Host(
    which: string -> bool,
    exec: (Command, string) -> ProcOutcome,
    parseJson: string -> Option<Json>)

  /** The dict `_run` returns: {ok, code, stdout, stderr, cmd}. */
  datatype ProcResult = ProcResult(ok: bool, code: int, stdout: string, stderr: string, cmd: Command)

  /** The three dict shapes a tool result can take. */
  datatype CmdResult =
    | Missing(stderr: string)                                // {ok: False, stderr: "<tool> not found"}
    | Ran(proc: ProcResult)                                  // a bare `_run` result
    | Scanned(ok: bool, json: Option<Json>, raw: ProcResult) // {ok, json, raw}
  {
    /** The ok flag, which every result shape carries. */
    function OkField(): bool {
      match this
      case Missing(_) => false
      case Ran(p) => p.ok
      case Scanned(ok, _, _) => ok
    }

    /** The parsed output: only the scanned shape has it, and it is absent when stdout did not parse. */
    function JsonField(): Option<Json> {
      if Scanned? then json else None
    }

    /** The top-level stderr: the scanned shape keeps stderr only inside its raw process result. */
    function StderrField(): Option<string> {
      match this
      case Missing(e) => Some(e)
      case Ran(p) => Some(p.stderr)
      case Scanned(_, _, _) => None
    }
  }

  /** `_run(cmd, cwd)`: ok exactly when the exit code is 0; a spawn error reads as code -1. */
  function RunCmd(host: Host, cmd: Command, cwd: string): (r: ProcResult)
    ensures r.cmd == cmd
    ensures r.ok <==> r.code == 0
    ensures host.exec(cmd, cwd).SpawnFailed? ==>
      r == ProcResult(false, -1, "", host.exec(cmd, cwd).message, cmd)
    ensures host.exec(cmd, cwd).Exited? ==>
      r.code == host.exec(cmd, cwd).code
      && r.stdout == host.exec(cmd, cwd).stdout
      && r.stderr == host.exec(cmd, cwd).stderr
  {
    match host.exec(cmd, cwd)
    case Exited(code, out, err) => ProcResult(code == 0, code, out, err, cmd)
    case SpawnFailed(msg) => ProcResult(false, -1, "", msg, cmd)
  }

  /** A tool result together with the commands that were run to produce it, in order. */
  datatype Invocation = Invocation(result: CmdResult, ran: seq<Command>)

  const InitCmd: Command := ["terraform", "init", "-backend=false"]
  const PlanCmd: Command := ["terraform", "plan", "-no-color", "-out", "tf.plan"]
  const ShowCmd: Command := ["terraform", "show", "-json", "tf.plan"]
  const TerraformSteps: seq<Command> := [InitCmd, PlanCmd, ShowCmd]

  /** The stderr text of the dict returned for a binary that is not on the PATH. */
  function NotFound(tool: string): string {
    tool + " not found"
  }

  /**
   * `terraform_plan(repo)`: init, plan, show, stopping at the first step
   * that fails and returning that step's own result.
   */
  function TerraformPlan(host: Host, repo: string): (r: Invocation)
    ensures r.ran <= TerraformSteps
    ensures r.ran == [] <==> !host.which("terraform")
    ensures r.ran == [] ==> r.result == Missing(NotFound("terraform"))
    ensures forall i :: 0 <= i < |r.ran| - 1 ==> RunCmd(host, r.ran[i], repo).ok
    ensures 0 < |r.ran| < 3 ==>
      var last := RunCmd(host, r.ran[|r.ran| - 1], repo);
      !last.ok && r.result == Ran(last)
    ensures |r.ran| == 3 ==>
      var show := RunCmd(host, ShowCmd, repo);
      r.result == Scanned(show.ok, host.parseJson(show.stdout), show)
    ensures r.result.OkField() ==>
      r.ran == TerraformSteps && forall i :: 0 <= i < 3 ==> RunCmd(host, TerraformSteps[i], repo).ok
  {
    if !host.which("terraform") then Invocation(Missing(NotFound("terraform")), [])
    else
      var init := RunCmd(host, InitCmd, repo);
      if !init.ok then Invocation(Ran(init), [InitCmd])
      else
        var plan := RunCmd(host, PlanCmd, repo);
        if !plan.ok then Invocation(Ran(plan), [InitCmd, PlanCmd])
        else
          var show := RunCmd(host, ShowCmd, repo);
          Invocation(Scanned(show.ok, host.parseJson(show.stdout), show), TerraformSteps)
  }

  /**
   * The shared shape of `tfsec_scan`, `checkov_scan` and `infracost_breakdown`:
   * a missing binary gives the "not found" dict without running anything;
   * otherwise one command runs and its stdout is parsed as JSON.
   */
  function Scan(host: Host, tool: string, cmd: Command, repo: string): (r: Invocation)
    ensures r.result.StderrField().Some? <==> !host.which(tool)
    ensures !host.which(tool) ==> r == Invocation(Missing(NotFound(tool)), [])
    ensures host.which(tool) ==>
      var p := RunCmd(host, cmd, repo);
      && r.ran == [cmd]
      && r.result.Scanned?
      && (r.result.OkField() <==> p.code == 0)
      && r.result.JsonField() == host.parseJson(p.stdout)
      && r.result.raw == p
  {
    if !host.which(tool) then Invocation(Missing(NotFound(tool)), [])
    else
      var res := RunCmd(host, cmd, repo);
      Invocation(Scanned(res.ok, host.parseJson(res.stdout), res), [cmd])
  }

  const TfsecCmd: Command := ["tfsec", "--format", "json", "--no-color", "."]
  const CheckovCmd: Command := ["checkov", "-d", ".", "-o", "json"]
  const InfracostCmd: Command := ["infracost", "breakdown", "--path", ".", "--format", "json"]

  /** `tfsec_scan(repo)`. */
  function TfsecScan(host: Host, repo: string): (r: Invocation)
    ensures r.ran <= [TfsecCmd]
    ensures r.result.StderrField().Some? <==> !host.which("tfsec")
  {
    Scan(host, "tfsec", TfsecCmd, repo)
  }

  /** `checkov_scan(repo)`. */
  function CheckovScan(host: Host, repo: string): (r: Invocation)
    ensures r.ran <= [CheckovCmd]
    ensures r.result.StderrField().Some? <==> !host.which("checkov")
  {
    Scan(host, "checkov", CheckovCmd, repo)
  }

  /** `infracost_breakdown(repo)`. */
  function InfracostBreakdown(host: Host, repo: string): (r: Invocation)
    ensures r.ran <= [InfracostCmd]
    ensures r.result.StderrField().Some? <==> !host.which("infracost")
  {
    Scan(host, "infracost", InfracostCmd, repo)
  }
}
