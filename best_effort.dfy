/** The commands of the install.sh and manual branch whose results `up`
    ignores: listing the home directory, handing it to the uid and, for the
    upgrade test, the galaxy roles and the download of the old installer.
    Their exit codes never change what the branch does. */
module BestEffort {
  import opened Text
  import opened Process
  import opened Launch
  import opened Distinct

  /** The commands whose exit code the scripted branch looks at. */
  function Checked(o: UpOptions, env: Env, uid: string, root: string): set<Command> {
    {LaunchContainer(o, env, uid, root), PolicyFixup, InstallSh(o.installShOptions),
     OldInstall(UpgradeInstallOptions(o.installShOptions, o.noDev, uid)),
     DockerExec(Container, UpgradeCommand(env.githubRef)), StatusCheck, RunTests}
  }

  /** Two hosts that answer alike on `cs`. */
  ghost predicate Agree(e1: Command -> int, e2: Command -> int, cs: set<Command>) {
    forall c :: c in cs ==> e1(c) == e2(c)
  }

  /** Hosts that agree on the checked commands lead the branch through the
      same commands to the same end. */
  lemma ScriptedFlowAgree(o: UpOptions, env: Env, uid: string, root: string, e1: Command -> int, e2: Command -> int)
    requires Agree(e1, e2, Checked(o, env, uid, root))
    ensures ScriptedFlow(o, env, uid, root, e1) == ScriptedFlow(o, env, uid, root, e2)
  {
    var cs := Checked(o, env, uid, root);
    assert LaunchContainer(o, env, uid, root) in cs && PolicyFixup in cs;
    assert ContainerStart(o, env, uid, root, e1) == ContainerStart(o, env, uid, root, e2);
    ProvisioningAgree(o, env, uid, root, e1, e2);
  }

  lemma ProvisioningAgree(o: UpOptions, env: Env, uid: string, root: string, e1: Command -> int, e2: Command -> int)
    requires Agree(e1, e2, Checked(o, env, uid, root))
    ensures Provisioning(o, env, uid, root, e1) == Provisioning(o, env, uid, root, e2)
  {
    var cs := Checked(o, env, uid, root);
    var install := OldInstall(UpgradeInstallOptions(o.installShOptions, o.noDev, uid));
    var upgrade := UpgradeCommand(env.githubRef);
    assert install in cs && DockerExec(Container, upgrade) in cs && StatusCheck in cs;
    assert InstallSh(o.installShOptions) in cs && RunTests in cs;
    UpgradeStepsAgree(install, upgrade, e1, e2);
  }

  lemma UpgradeStepsAgree(install: Command, upgrade: string, e1: Command -> int, e2: Command -> int)
    requires e1(install) == e2(install)
    requires e1(DockerExec(Container, upgrade)) == e2(DockerExec(Container, upgrade))
    requires e1(StatusCheck) == e2(StatusCheck)
    ensures UpgradeSteps(install, upgrade, e1) == UpgradeSteps(install, upgrade, e2)
  {
  }

  /** The home listing and the chown are not checked: each differs from
      every checked command in kind or in its first character. */
  lemma HomeUnchecked(o: UpOptions, env: Env, uid: string, root: string)
    ensures ListHome !in Checked(o, env, uid, root) && ChownHome(uid) !in Checked(o, env, uid, root)
  {
    ChownShape(uid);
    InstallShShape(o.installShOptions);
    OldInstallShape(UpgradeInstallOptions(o.installShOptions, o.noDev, uid));
    UpgradeShape(env.githubRef);
    FixedShapes();
  }

  /** The galaxy roles are not checked either. */
  lemma ShimUnchecked(o: UpOptions, env: Env, uid: string, root: string)
    ensures GalaxyShim !in Checked(o, env, uid, root)
  {
    InstallShShape(o.installShOptions);
    OldInstallShape(UpgradeInstallOptions(o.installShOptions, o.noDev, uid));
    UpgradeShape(env.githubRef);
    FixedShapes();
  }

  /** Nor is the download, the only shell command of the branch. */
  lemma FetchUnchecked(o: UpOptions, env: Env, uid: string, root: string)
    ensures FetchOldInstaller(root) !in Checked(o, env, uid, root)
  {
  }

  /** The branch does the same whatever the home listing, the chown, the
      galaxy install and the download return. */
  lemma BestEffortIgnored(o: UpOptions, env: Env, uid: string, root: string, e1: Command -> int, e2: Command -> int)
    requires forall c :: e1(c) != e2(c) ==> c in {ListHome, ChownHome(uid), GalaxyShim, FetchOldInstaller(root)}
    ensures ScriptedFlow(o, env, uid, root, e1) == ScriptedFlow(o, env, uid, root, e2)
  {
    HomeUnchecked(o, env, uid, root);
    ShimUnchecked(o, env, uid, root);
    FetchUnchecked(o, env, uid, root);
    ScriptedFlowAgree(o, env, uid, root, e1, e2);
  }
}
