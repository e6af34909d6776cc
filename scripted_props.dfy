/** Properties of the install.sh and manual branch of `up`: the container
    is started from the chosen image, then devshop is installed (or the
    upgrade from the old release is tested), then the tests run. */
module ScriptedProps {
  import opened Text
  import opened Process
  import opened Launch
  import opened UpgradeProps
  import opened Distinct

  /** The container boots with one of the three init executables; every
      image the launcher does not know boots with /sbin/init, and the
      systemd of /usr/lib is used exactly for the two CentOS 7 images. */
  lemma InitForSpec(image: string)
    ensures var init := InitFor(image);
      && init in {"/sbin/init", "/lib/systemd/systemd", "/usr/lib/systemd/systemd"}
      && (image !in InitMap ==> init == "/sbin/init")
      && (init == "/usr/lib/systemd/systemd" <==>
            image == "centos:7" || image == "geerlingguy/docker-centos7-ansible")
      && (init == "/lib/systemd/systemd" <==>
            image == "geerlingguy/docker-ubuntu1604-ansible" || image == "geerlingguy/docker-ubuntu1804-ansible")
  {
  }

  /** `docker run` starts the chosen image with its init, the checkout
      mounted, GITHUB_TOKEN passed on ("" when empty) and a host name for
      the test sites that is never empty. */
  lemma LaunchContainerSpec(o: UpOptions, env: Env, uid: string, root: string)
    ensures var run := LaunchContainer(o, env, uid, root);
      && run.image == o.installShImage && run.init == InitFor(o.installShImage)
      && run.root == root && run.uid == uid && run.githubRef == env.githubRef
      && run.githubToken == (if PhpEmpty(env.githubToken) then "" else env.githubToken)
      && !PhpEmpty(run.siteHosts)
      && (run.siteHosts == env.siteHosts || (run.siteHosts == LocalHostname && PhpEmpty(env.siteHosts)))
  {
  }

  /** Starting the container is fatal when `docker run` fails; after it,
      and only for ubuntu:14.04, the init policy is fixed, which is fatal
      too.  Nothing else runs. */
  lemma ContainerStartSpec(o: UpOptions, env: Env, uid: string, root: string, exit: Command -> int)
    ensures var run := LaunchContainer(o, env, uid, root);
      var fix := exit(run) == 0 && o.installShImage == "ubuntu:14.04";
      var out := ContainerStart(o, env, uid, root, exit);
      && out.steps == [run] + (if fix then [PolicyFixup] else [])
      && (out.status == Ok <==> exit(run) == 0 && (fix ==> exit(PolicyFixup) == 0))
      && (exit(run) != 0 ==> out.status == Failed(DockerRunFailed))
      && (fix && exit(PolicyFixup) != 0 ==> out.status == Failed(InitPolicyFailed))
  {
  }

  /** Once the container is up, the home directory is listed and handed
      to the uid whatever these two commands return, and the run ends as
      the installation and tests end; a failed start ends the branch. */
  lemma ScriptedFlowSpec(o: UpOptions, env: Env, uid: string, root: string, exit: Command -> int)
    ensures var start := ContainerStart(o, env, uid, root, exit);
      var rest := Provisioning(o, env, uid, root, exit);
      var out := ScriptedFlow(o, env, uid, root, exit);
      && (start.status.Failed? ==> out == start)
      && (start.status == Ok ==>
            out.steps == start.steps + [ListHome, ChownHome(uid)] + rest.steps && out.status == rest.status)
  {
    IgnoredPair(ContainerStart(o, env, uid, root, exit), ListHome, ChownHome(uid), Provisioning(o, env, uid, root, exit));
  }

  /** Two unchecked commands between two parts of a run. */
  lemma IgnoredPair(start: Outcome, a: Command, b: Command, rest: Outcome)
    ensures var out := Then(start, Then(Ignored(a), Then(Ignored(b), rest)));
      && (start.status.Failed? ==> out == start)
      && (start.status == Ok ==> out == Outcome(start.steps + [a, b] + rest.steps, rest.status))
  {
    assert start.steps + ([a] + ([b] + rest.steps)) == start.steps + [a, b] + rest.steps;
  }

  /** Without `--test-upgrade`, install.sh runs with the user's options
      exactly when the mode is not "manual" and the run is either
      non-interactive or confirmed; it is then the only command, and its
      failure aborts the run. */
  lemma InstallGateSpec(o: UpOptions, env: Env, uid: string, root: string, exit: Command -> int)
    ensures var inst := InstallSh(o.installShOptions);
      var out := Installation(o, env, uid, root, exit);
      var gate := o.mode != "manual" && (env.noInteraction || env.confirmInstall);
      !o.testUpgrade ==>
        && (inst in out.steps <==> gate)
        && out.steps == (if gate then [inst] else [])
        && (out.status == Ok <==> !gate || exit(inst) == 0)
        && (out.status.Failed? ==> out.status == Failed(InstallShFailed))
  {
  }

  /** With `--test-upgrade` the new release's install.sh never runs: the
      upgrade test replaces it. */
  lemma UpgradeSkipsInstallSh(o: UpOptions, env: Env, uid: string, root: string, exit: Command -> int)
    ensures o.testUpgrade ==> InstallSh(o.installShOptions) !in Installation(o, env, uid, root, exit).steps
  {
    if o.testUpgrade {
      var all := UpgradeCommands(o.installShOptions, o.noDev, uid, env.githubRef, root);
      UpgradeFlowSpec(o.installShOptions, o.noDev, uid, env.githubRef, root, exit);
      InstallShNotUpgradeCommand(o.installShOptions, o.noDev, uid, env.githubRef, root);
      NotInPrefix(InstallSh(o.installShOptions), all, |Installation(o, env, uid, root, exit).steps|);
    }
  }

  lemma NotInPrefix(c: Command, all: seq<Command>, k: nat)
    requires k <= |all| == 5
    requires c != all[0] && c != all[1] && c != all[2] && c != all[3] && c != all[4]
    ensures c !in all[..k]
  {
  }

  /** install.sh of the new release is none of the upgrade test's commands:
      the paths differ right after "/usr/share/devshop/", or earlier. */
  lemma InstallShNotUpgradeCommand(options: string, noDev: bool, uid: string, githubRef: string, root: string)
    ensures var all := UpgradeCommands(options, noDev, uid, githubRef, root);
      var c := InstallSh(options);
      c != all[0] && c != all[1] && c != all[2] && c != all[3] && c != all[4]
  {
    InstallShShape(options);
    OldInstallShape(UpgradeInstallOptions(options, noDev, uid));
    UpgradeShape(githubRef);
    FixedShapes();
  }

  /** The test script is none of the upgrade test's commands. */
  lemma RunTestsNotUpgradeCommand(options: string, noDev: bool, uid: string, githubRef: string, root: string)
    ensures var all := UpgradeCommands(options, noDev, uid, githubRef, root);
      RunTests != all[0] && RunTests != all[1] && RunTests != all[2] && RunTests != all[3] && RunTests != all[4]
  {
    OldInstallShape(UpgradeInstallOptions(options, noDev, uid));
    UpgradeShape(githubRef);
    FixedShapes();
  }

  /** None of the installation's commands is the test script. */
  lemma InstallationNoTests(o: UpOptions, env: Env, uid: string, root: string, exit: Command -> int)
    ensures RunTests !in Installation(o, env, uid, root, exit).steps
  {
    if o.testUpgrade {
      var all := UpgradeCommands(o.installShOptions, o.noDev, uid, env.githubRef, root);
      UpgradeFlowSpec(o.installShOptions, o.noDev, uid, env.githubRef, root, exit);
      RunTestsNotUpgradeCommand(o.installShOptions, o.noDev, uid, env.githubRef, root);
      NotInPrefix(RunTests, all, |Installation(o, env, uid, root, exit).steps|);
    } else {
      InstallShShape(o.installShOptions);
      FixedShapes();
    }
  }

  /** With `--test` the test script runs exactly when the installation
      finished, as the last command, and its failure aborts the run;
      without `--test`, the run ends as the installation ends. */
  lemma ProvisioningTests(o: UpOptions, env: Env, uid: string, root: string, exit: Command -> int)
    ensures var inst := Installation(o, env, uid, root, exit);
      var out := Provisioning(o, env, uid, root, exit);
      && (RunTests in out.steps <==> o.test && inst.status == Ok)
      && (RunTests in out.steps ==> out.steps == inst.steps + [RunTests])
      && (o.test && inst.status == Ok ==>
            (out.status == Ok <==> exit(RunTests) == 0)
            && (exit(RunTests) != 0 ==> out.status == Failed(TestsFailed)))
      && (!o.test || inst.status.Failed? ==> out == inst)
  {
    InstallationNoTests(o, env, uid, root, exit);
  }
}
