/** Every abort of `up` is caused by the command issued last: a run stops
    only right after a command that exited non-zero, and never issues
    anything after it. */
module Blame {
  import opened Text
  import opened Process
  import opened Launch

  lemma SourcePrepBlames(root: string, gitRef: string, noDev: bool, version: Option<string>, env: Env,
                         exit: Command -> int)
    ensures BlamesLast(SourcePrep(root, gitRef, noDev, version, env, exit), exit)
  {
    var make := MakeStep(root, DevshopVersion(version, gitRef), noDev, env.existing, exit);
    var origin := if !noDev then Ignored(SetOrigin) else Done;
    ThenBlames(make, origin, exit);
    ThenBlames(Outcome(PrepSteps(root, env), Ok), Then(make, origin), exit);
  }

  lemma UpgradeFlowBlames(options: string, noDev: bool, uid: string, githubRef: string, root: string,
                          exit: Command -> int)
    ensures BlamesLast(UpgradeFlow(options, noDev, uid, githubRef, root, exit), exit)
  {
    var steps := UpgradeSteps(OldInstall(UpgradeInstallOptions(options, noDev, uid)), UpgradeCommand(githubRef), exit);
    UpgradeStepsBlames(OldInstall(UpgradeInstallOptions(options, noDev, uid)), UpgradeCommand(githubRef), exit);
    ThenBlames(Ignored(FetchOldInstaller(root)), steps, exit);
    ThenBlames(Ignored(GalaxyShim), Then(Ignored(FetchOldInstaller(root)), steps), exit);
  }

  lemma UpgradeStepsBlames(install: Command, upgrade: string, exit: Command -> int)
    ensures BlamesLast(UpgradeSteps(install, upgrade, exit), exit)
  {
    var check := Then(Fatal(DockerExec(Container, upgrade), exit, UpgradeFailed(upgrade)),
                      Fatal(StatusCheck, exit, StatusFailed));
    ThenBlames(Fatal(DockerExec(Container, upgrade), exit, UpgradeFailed(upgrade)),
               Fatal(StatusCheck, exit, StatusFailed), exit);
    ThenBlames(Fatal(install, exit, OldInstallFailed(UpgradeFromVersion)), check, exit);
  }

  lemma ProvisioningBlames(o: UpOptions, env: Env, uid: string, root: string, exit: Command -> int)
    ensures BlamesLast(Provisioning(o, env, uid, root, exit), exit)
  {
    UpgradeFlowBlames(o.installShOptions, o.noDev, uid, env.githubRef, root, exit);
    var tests := if o.test then Fatal(RunTests, exit, TestsFailed) else Done;
    ThenBlames(Installation(o, env, uid, root, exit), tests, exit);
  }

  lemma ScriptedFlowBlames(o: UpOptions, env: Env, uid: string, root: string, exit: Command -> int)
    ensures BlamesLast(ScriptedFlow(o, env, uid, root, exit), exit)
  {
    var rest := Provisioning(o, env, uid, root, exit);
    ProvisioningBlames(o, env, uid, root, exit);
    ThenBlames(Fatal(LaunchContainer(o, env, uid, root), exit, DockerRunFailed), ImageFixup(o.installShImage, exit), exit);
    ThenBlames(Ignored(ChownHome(uid)), rest, exit);
    ThenBlames(Ignored(ListHome), Then(Ignored(ChownHome(uid)), rest), exit);
    ThenBlames(ContainerStart(o, env, uid, root, exit), Then(Ignored(ListHome), Then(Ignored(ChownHome(uid)), rest)), exit);
  }

  lemma ModeFlowBlames(o: UpOptions, env: Env, uid: string, root: string, exit: Command -> int)
    ensures BlamesLast(ModeFlow(o, env, uid, root, exit), exit)
  {
    if o.mode == "docker-compose" {
      MustRunAllBlames(Processes(ComposeCommands(o.test, o.testUpgrade, o.follow),
                                 ComposeFile(o.test, o.testUpgrade), IsTty(env)), exit);
    } else if o.mode == "install.sh" || o.mode == "manual" {
      ScriptedFlowBlames(o, env, uid, root, exit);
    }
  }

  lemma DeploymentBlames(o: UpOptions, env: Env, gitRef: string, root: string, exit: Command -> int)
    ensures BlamesLast(Deployment(o, env, gitRef, root, exit), exit)
  {
    var version := Some(DevshopVersion(o.devshopVersion, gitRef));
    SourcePrepBlames(root, gitRef, o.noDev, version, env, exit);
    ModeFlowBlames(o, env, Uid(o.userUid, env), root, exit);
    var prep := if PrepWanted(o, env) then SourcePrep(root, gitRef, o.noDev, version, env, exit) else Done;
    ThenBlames(prep, ModeFlow(o, env, Uid(o.userUid, env), root, exit), exit);
  }

  /** A run of `up` that aborts has just issued a command that failed:
      the host probes, the build, drush make, a compose process, docker
      run, the policy fixup, an install, the upgrade, the status check or
      the tests. */
  lemma UpBlamesLast(o: UpOptions, env: Env, gitRef: string, root: string, exit: Command -> int)
    ensures BlamesLast(Up(o, env, gitRef, root, exit), exit)
  {
    DeploymentBlames(o, env, gitRef, root, exit);
    var build :=
      if o.build then ContainerBuild(Some(Uid(o.userUid, env)), LocalHostname, BuildPlaybook(o.test, o.testUpgrade),
                                     "Dockerfile.fast", env, exit)
      else Done;
    ThenBlames(build, Deployment(o, env, gitRef, root, exit), exit);
    var probes := Then(Ignored(Exec("docker -v")), Fatal(Exec("docker-compose -v"), exit, HostUnavailable));
    ThenBlames(Ignored(Exec("docker -v")), Fatal(Exec("docker-compose -v"), exit, HostUnavailable), exit);
    ThenBlames(Fatal(Exec("docker info"), exit, HostUnavailable), probes, exit);
    ThenBlames(HostCheck(exit), Rollout(o, env, gitRef, root, exit), exit);
  }
}
