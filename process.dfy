/** The commands the launcher issues, what happens when one of them fails,
    and the host that runs them.

    A run of the launcher is described by an `Outcome`: the commands it
    issued, in order, and whether it finished or aborted with an exception.
    The host is an oracle that gives every command its exit code. */
module Process {
  import opened Text

  /** One external invocation.  The Robo task builders (taskDockerRun,
      taskGitStack, taskDockerBuild) are kept as opaque values carrying the
      arguments the launcher computes. */
  datatype Command =
    | Exec(line: string)
      // taskExec / _exec / taskExecStack: a shell command line
    | Process(line: string, composeFile: Option<string>, tty: bool, timeout: Option<nat>)
      // a PowerProcess run with mustRun; composeFile is its COMPOSE_FILE override
    | DockerBuild(file: string, tag: string, hostname: string, uid: string, verbosity: nat, playbook: string)
    | DockerRun(image: string, init: string, root: string, siteHosts: string,
                githubToken: string, githubRef: string, uid: string)
    | DockerExec(container: string, line: string)
    | GitClone(url: string, dest: string, branch: Option<string>)
    | GitCheckout(dir: string, ref: string)

  /** The exceptions that abort a run. */
  datatype Failure =
    | HostUnavailable             // 'Unable to continue.'
    | DockerBuildFailed           // 'Docker Build Failed.'
    | DrushMakeFailed(exitCode: int)
    | ProcessFailed(command: Command)   // mustRun's ProcessFailedException
    | DockerRunFailed             // 'Docker Run failed.'
    | InitPolicyFailed            // 'Set init policy failed.'
    | OldInstallFailed(version: string)
    | UpgradeFailed(upgradeCommand: string)
    | StatusFailed                // "Command 'devshop status' failed."
    | InstallShFailed             // 'Docker Exec install.sh failed.'
    | TestsFailed                 // 'Docker Exec devshop-tests.sh failed.'

  datatype Status = Ok | Failed(failure: Failure)

  /** The commands a run issued, in order, and how it ended. */
  datatype Outcome = Outcome(steps: seq<Command>, status: Status)

  /** Nothing issued, nothing failed. */
  const Done := Outcome([], Ok)

  /** Run `a`; only if it finished, go on with `b`. */
  function Then(a: Outcome, b: Outcome): Outcome {
    if a.status.Failed? then a else Outcome(a.steps + b.steps, b.status)
  }

  /** A command whose exit code the launcher ignores. */
  function Ignored(c: Command): Outcome {
    Outcome([c], Ok)
  }

  /** A command whose non-zero exit code raises `f`. */
  function Fatal(c: Command, exit: Command -> int, f: Failure): Outcome {
    Outcome([c], if exit(c) == 0 then Ok else Failed(f))
  }

  /** Runs `cs` one after the other with mustRun: the first command that
      exits non-zero raises and nothing after it runs. */
  function MustRunAll(cs: seq<Command>, exit: Command -> int): Outcome {
    if cs == [] then Done
    else Then(Fatal(cs[0], exit, ProcessFailed(cs[0])), MustRunAll(cs[1..], exit))
  }

  /** When every command succeeds, all of them run and the run finishes. */
  lemma {:induction false} MustRunAllSucceeds(cs: seq<Command>, exit: Command -> int)
    requires forall j :: 0 <= j < |cs| ==> exit(cs[j]) == 0
    ensures MustRunAll(cs, exit) == Outcome(cs, Ok)
  {
    if cs != [] {
      assert forall j :: 0 <= j < |cs[1..]| ==> cs[1..][j] == cs[j + 1];
      MustRunAllSucceeds(cs[1..], exit);
      assert [cs[0]] + cs[1..] == cs;
    }
  }

  /** Fail-fast: the run stops right after the first command that fails,
      and reports that command. */
  lemma {:induction false} MustRunAllFirstFailure(cs: seq<Command>, k: nat, exit: Command -> int)
    requires k < |cs|
    requires forall j :: 0 <= j < k ==> exit(cs[j]) == 0
    requires exit(cs[k]) != 0
    ensures MustRunAll(cs, exit) == Outcome(cs[..k + 1], Failed(ProcessFailed(cs[k])))
  {
    if k == 0 {
      assert cs[..1] == [cs[0]];
    } else {
      var rest := cs[1..];
      assert forall j :: 0 <= j < |rest| ==> rest[j] == cs[j + 1];
      MustRunAllFirstFailure(rest, k - 1, exit);
      assert [cs[0]] + rest[..k] == cs[..k + 1];
    }
  }

  /** Fail-fast, for any exit codes: the run issues a prefix of the list;
      it finishes exactly when every command succeeds, and then it has
      issued them all; otherwise it stops at the first failure, which is
      the last command issued and the one it reports. */
  lemma MustRunAllFailFast(cs: seq<Command>, exit: Command -> int)
    ensures var out := MustRunAll(cs, exit);
      && |out.steps| <= |cs| && out.steps == cs[..|out.steps|]
      && (out.status == Ok <==> forall j :: 0 <= j < |cs| ==> exit(cs[j]) == 0)
      && (out.status == Ok ==> out.steps == cs)
      && (out.status.Failed? ==>
            && out.steps != []
            && out.status.failure == ProcessFailed(out.steps[|out.steps| - 1])
            && exit(out.steps[|out.steps| - 1]) != 0
            && forall j :: 0 <= j < |out.steps| - 1 ==> exit(out.steps[j]) == 0)
  {
    if forall j :: 0 <= j < |cs| ==> exit(cs[j]) == 0 {
      MustRunAllSucceeds(cs, exit);
      assert cs[..|cs|] == cs;
    } else {
      var k := FirstFailing(cs, exit);
      MustRunAllFirstFailure(cs, k, exit);
      assert cs[..k + 1][k] == cs[k];
    }
  }

  /** The first command of `cs` that fails, when one does. */
  lemma FirstFailing(cs: seq<Command>, exit: Command -> int) returns (k: nat)
    requires exists j :: 0 <= j < |cs| && exit(cs[j]) != 0
    ensures k < |cs| && exit(cs[k]) != 0
    ensures forall j :: 0 <= j < k ==> exit(cs[j]) == 0
  {
    k := 0;
    while exit(cs[k]) == 0
      invariant k < |cs|
      invariant forall j :: 0 <= j < k ==> exit(cs[j]) == 0
      invariant exists j :: k <= j < |cs| && exit(cs[j]) != 0
      decreases |cs| - k
    {
      k := k + 1;
    }
  }

  /** A run that aborts does so right after a command that failed. */
  ghost predicate BlamesLast(out: Outcome, exit: Command -> int) {
    out.status.Failed? ==> out.steps != [] && exit(out.steps[|out.steps| - 1]) != 0
  }

  lemma ThenBlames(a: Outcome, b: Outcome, exit: Command -> int)
    requires BlamesLast(a, exit) && BlamesLast(b, exit)
    ensures BlamesLast(Then(a, b), exit)
  {
    if a.status.Ok? && b.status.Failed? {
      assert (a.steps + b.steps)[|a.steps + b.steps| - 1] == b.steps[|b.steps| - 1];
    }
  }

  lemma {:induction false} MustRunAllBlames(cs: seq<Command>, exit: Command -> int)
    ensures BlamesLast(MustRunAll(cs, exit), exit)
  {
    if cs != [] {
      MustRunAllBlames(cs[1..], exit);
      ThenBlames(Fatal(cs[0], exit, ProcessFailed(cs[0])), MustRunAll(cs[1..], exit), exit);
    }
  }

  /** A log extended by `a` and then by `b` is the log extended by `a + b`. */
  lemma LogAppend(l0: seq<Command>, l1: seq<Command>, l2: seq<Command>, a: seq<Command>, b: seq<Command>)
    requires l1 == l0 + a && l2 == l1 + b
    ensures l2 == l0 + (a + b)
  {
    assert l0 + a + b == l0 + (a + b);
  }

  /** Extending a finished run `a` with `b`: the log after both is the log
      before followed by the commands of `Then(a, b)`. */
  lemma ThenLog(l0: seq<Command>, l1: seq<Command>, l2: seq<Command>, a: Outcome, b: Outcome)
    requires l1 == l0 + a.steps && a.status == Ok && l2 == l1 + b.steps
    ensures l2 == l0 + Then(a, b).steps && Then(a, b).status == b.status
  {
    LogAppend(l0, l1, l2, a.steps, b.steps);
  }

  /** The machine the launcher runs on: `exit` says how each command ends,
      `log` records every command issued so far. */
  class Host {
    const exit: Command -> int
    var log: seq<Command>

    constructor (exit: Command -> int)
      ensures this.exit == exit && log == []
    {
      this.exit := exit;
      log := [];
    }

    /** Runs `c` to completion and reports its exit code. */
    method Execute(c: Command) returns (code: int)
      modifies this
      ensures log == old(log) + [c]
      ensures code == exit(c)
    {
      log := log + [c];
      code := exit(c);
    }
  }
}
