/** Properties of the docker-compose branch of `up`: which commands the
    list holds for each combination of options, and how the list is run. */
module ComposeProps {
  import opened Text
  import opened Process
  import opened Launch

  /** The compose list always starts the services, waits, and lists the
      containers and the home directory.  The test script runs exactly for
      `--test`; the upgrade test script exactly for `--test-upgrade`
      without `--test` (so `--test` wins when both are given); either test
      first reinstalls devmaster with supervisord stopped. */
  lemma ComposeTestCommands(test: bool, testUpgrade: bool, follow: bool)
    ensures var cmd := ComposeCommands(test, testUpgrade, follow);
      && |cmd| >= 6 && cmd[..4] == [ComposeUp, Settle, DockerPs, ListAegir]
      && (AsAegir(TestsScript) in cmd <==> test)
      && (AsAegir(UpgradeTestsScript) in cmd <==> !test && testUpgrade)
      && (ComposeInstall in cmd <==> test || testUpgrade)
      && (StopSupervisor in cmd <==> test || testUpgrade)
  {
    // The command lines have pairwise different lengths.
    assert |Settle| == 7 && |DockerPs| == 9 && |ComposeUp| == 20 && |FollowLogs| == 22;
    assert |ComposeLogin| == 44 && |ComposeStatus| == 45 && |ListAegir| == 48 && |StopSupervisor| == 55;
    assert |AsAegir(TestsScript)| == 85 && |AsAegir(UpgradeTestsScript)| == 93 && |ComposeInstall| == 162;
  }

  /** Status and login are shown only outside tests; the logs are followed
      only outside tests with `--follow`, and then last. */
  lemma ComposeInteractiveCommands(test: bool, testUpgrade: bool, follow: bool)
    ensures var cmd := ComposeCommands(test, testUpgrade, follow);
      && (ComposeStatus in cmd <==> !test && !testUpgrade)
      && (ComposeLogin in cmd <==> !test && !testUpgrade)
      && (FollowLogs in cmd <==> !test && !testUpgrade && follow)
      && (FollowLogs in cmd ==> cmd[|cmd| - 1] == FollowLogs)
  {
    assert |Settle| == 7 && |DockerPs| == 9 && |ComposeUp| == 20 && |FollowLogs| == 22;
    assert |ComposeLogin| == 44 && |ComposeStatus| == 45 && |ListAegir| == 48 && |StopSupervisor| == 55;
    assert |AsAegir(TestsScript)| == 85 && |AsAegir(UpgradeTestsScript)| == 93 && |ComposeInstall| == 162;
  }

  /** A TTY is attached exactly in a "tty" session. */
  lemma IsTtySpec(env: Env)
    ensures IsTty(env) <==> env.xdgSessionType == "tty"
  {
  }

  /** The compose list runs fail-fast, each command as a process with
      COMPOSE_FILE set to docker-compose-tests.yml exactly for a test run,
      a TTY exactly in a "tty" session and no timeout: the branch finishes
      exactly when every command succeeds, having run them all in order;
      otherwise it stops at, and reports, the first command that fails. */
  lemma ComposeFlowSpec(o: UpOptions, env: Env, exit: Command -> int)
    ensures var cmd := ComposeCommands(o.test, o.testUpgrade, o.follow);
      var out := ComposeFlow(o, env, exit);
      var file := if o.test || o.testUpgrade then Some("docker-compose-tests.yml") else None;
      var tty := env.xdgSessionType == "tty";
      && 1 <= |out.steps| <= |cmd|
      && (forall i :: 0 <= i < |out.steps| ==> out.steps[i] == Process(cmd[i], file, tty, None))
      && (out.status == Ok <==> forall i :: 0 <= i < |cmd| ==> exit(Process(cmd[i], file, tty, None)) == 0)
      && (out.status == Ok ==> |out.steps| == |cmd|)
      && (out.status.Failed? ==>
            && out.status.failure == ProcessFailed(out.steps[|out.steps| - 1])
            && exit(out.steps[|out.steps| - 1]) != 0
            && forall j :: 0 <= j < |out.steps| - 1 ==> exit(out.steps[j]) == 0)
  {
    assert IsTty(env) == (env.xdgSessionType == "tty");
    ProcessRun(ComposeCommands(o.test, o.testUpgrade, o.follow), ComposeFile(o.test, o.testUpgrade), IsTty(env), exit);
  }

  /** Command lines run fail-fast as processes with one environment. */
  lemma ProcessRun(cmd: seq<string>, file: Option<string>, tty: bool, exit: Command -> int)
    requires cmd != []
    ensures var out := MustRunAll(Processes(cmd, file, tty), exit);
      && 1 <= |out.steps| <= |cmd|
      && (forall i :: 0 <= i < |out.steps| ==> out.steps[i] == Process(cmd[i], file, tty, None))
      && (out.status == Ok <==> forall i :: 0 <= i < |cmd| ==> exit(Process(cmd[i], file, tty, None)) == 0)
      && (out.status == Ok ==> |out.steps| == |cmd|)
      && (out.status.Failed? ==>
            && out.status.failure == ProcessFailed(out.steps[|out.steps| - 1])
            && exit(out.steps[|out.steps| - 1]) != 0
            && forall j :: 0 <= j < |out.steps| - 1 ==> exit(out.steps[j]) == 0)
  {
    var ps := Processes(cmd, file, tty);
    ProcessesEach(cmd, file, tty);
    MustRunAllFailFast(ps, exit);
    var out := MustRunAll(ps, exit);
    if out.status.Failed? {
      assert |out.steps| >= 1;
    }
    assert forall i :: 0 <= i < |out.steps| ==> out.steps[i] == ps[i];
  }
}
