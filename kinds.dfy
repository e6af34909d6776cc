/** Which kinds of command each part of the launcher can issue.  The mode
    dispatch of `up` is stated with these: the compose pipeline only runs
    processes, the scripted flow only talks to a container (and downloads
    the old installer), and preparation only runs shell, git and build
    commands. */
module Kinds {
  import opened Text
  import opened Process
  import opened Launch
  import opened PrepProps

  datatype Kind = Shell | Proc | Build | Run | InContainer | Clone | Checkout

  function KindOf(c: Command): Kind {
    match c
    case Exec(_) => Shell
    case Process(_, _, _, _) => Proc
    case DockerBuild(_, _, _, _, _, _) => Build
    case DockerRun(_, _, _, _, _, _, _) => Run
    case DockerExec(_, _) => InContainer
    case GitClone(_, _, _) => Clone
    case GitCheckout(_, _) => Checkout
  }

  /** Every command of `steps` is of one of the kinds `ks`. */
  ghost predicate OnlyKinds(steps: seq<Command>, ks: set<Kind>) {
    forall i :: 0 <= i < |steps| ==> KindOf(steps[i]) in ks
  }

  lemma Widen(steps: seq<Command>, ks: set<Kind>, more: set<Kind>)
    requires OnlyKinds(steps, ks) && ks <= more
    ensures OnlyKinds(steps, more)
  {
  }

  /** Running one part after another issues nothing the parts do not. */
  lemma ThenKinds(a: Outcome, b: Outcome, ks: set<Kind>)
    requires OnlyKinds(a.steps, ks) && OnlyKinds(b.steps, ks)
    ensures OnlyKinds(Then(a, b).steps, ks)
  {
    if a.status == Ok {
      forall i | |a.steps| <= i < |a.steps + b.steps|
        ensures KindOf((a.steps + b.steps)[i]) in ks
      {
        assert (a.steps + b.steps)[i] == b.steps[i - |a.steps|];
      }
    }
  }

  /** A fail-fast run issues only commands of its list. */
  lemma {:induction false} MustRunAllKinds(cs: seq<Command>, exit: Command -> int, ks: set<Kind>)
    requires OnlyKinds(cs, ks)
    ensures OnlyKinds(MustRunAll(cs, exit).steps, ks)
  {
    if cs != [] {
      assert OnlyKinds(cs[1..], ks) by {
        forall i | 0 <= i < |cs[1..]| ensures KindOf(cs[1..][i]) in ks {
          assert cs[1..][i] == cs[i + 1];
        }
      }
      MustRunAllKinds(cs[1..], exit, ks);
      ThenKinds(Fatal(cs[0], exit, ProcessFailed(cs[0])), MustRunAll(cs[1..], exit), ks);
    }
  }

  lemma SourcePrepKinds(root: string, gitRef: string, noDev: bool, version: Option<string>, env: Env,
                        exit: Command -> int)
    ensures OnlyKinds(SourcePrep(root, gitRef, noDev, version, env, exit).steps, {Shell, Clone, Checkout})
  {
    var ks := {Shell, Clone, Checkout};
    forall i | 0 <= i < |PrepSteps(root, env)| ensures KindOf(PrepSteps(root, env)[i]) in ks {
      PrepStepKinds(root, env, i);
    }
    var v := DevshopVersion(version, gitRef);
    var origin := if !noDev then Ignored(SetOrigin) else Done;
    ThenKinds(MakeStep(root, v, noDev, env.existing, exit), origin, ks);
    ThenKinds(Outcome(PrepSteps(root, env), Ok), Then(MakeStep(root, v, noDev, env.existing, exit), origin), ks);
  }

  /** The compose pipeline runs processes and nothing else. */
  lemma ComposeFlowKinds(o: UpOptions, env: Env, exit: Command -> int)
    ensures OnlyKinds(ComposeFlow(o, env, exit).steps, {Proc})
  {
    var lines := ComposeCommands(o.test, o.testUpgrade, o.follow);
    ProcessesEach(lines, ComposeFile(o.test, o.testUpgrade), IsTty(env));
    MustRunAllKinds(Processes(lines, ComposeFile(o.test, o.testUpgrade), IsTty(env)), exit, {Proc});
  }

  lemma UpgradeFlowKinds(options: string, noDev: bool, uid: string, githubRef: string, root: string,
                         exit: Command -> int)
    ensures OnlyKinds(UpgradeFlow(options, noDev, uid, githubRef, root, exit).steps, {Shell, InContainer})
  {
    var ks := {Shell, InContainer};
    var upgrade := UpgradeCommand(githubRef);
    var install := OldInstall(UpgradeInstallOptions(options, noDev, uid));
    ThenKinds(Fatal(DockerExec(Container, upgrade), exit, UpgradeFailed(upgrade)), Fatal(StatusCheck, exit, StatusFailed), ks);
    ThenKinds(Fatal(install, exit, OldInstallFailed(UpgradeFromVersion)),
              Then(Fatal(DockerExec(Container, upgrade), exit, UpgradeFailed(upgrade)), Fatal(StatusCheck, exit, StatusFailed)), ks);
    var steps := UpgradeSteps(install, upgrade, exit);
    ThenKinds(Ignored(FetchOldInstaller(root)), steps, ks);
    ThenKinds(Ignored(GalaxyShim), Then(Ignored(FetchOldInstaller(root)), steps), ks);
  }

  lemma ProvisioningKinds(o: UpOptions, env: Env, uid: string, root: string, exit: Command -> int)
    ensures OnlyKinds(Provisioning(o, env, uid, root, exit).steps, {Shell, InContainer})
  {
    var ks := {Shell, InContainer};
    UpgradeFlowKinds(o.installShOptions, o.noDev, uid, env.githubRef, root, exit);
    var tests := if o.test then Fatal(RunTests, exit, TestsFailed) else Done;
    ThenKinds(Installation(o, env, uid, root, exit), tests, ks);
  }

  /** The scripted flow starts a container and then only runs commands in
      it, apart from downloading the old installer for the upgrade test. */
  lemma ScriptedFlowKinds(o: UpOptions, env: Env, uid: string, root: string, exit: Command -> int)
    ensures OnlyKinds(ScriptedFlow(o, env, uid, root, exit).steps, {Run, InContainer, Shell})
  {
    var ks := {Run, InContainer, Shell};
    ThenKinds(Fatal(LaunchContainer(o, env, uid, root), exit, DockerRunFailed), ImageFixup(o.installShImage, exit), ks);
    var rest := Provisioning(o, env, uid, root, exit);
    ProvisioningKinds(o, env, uid, root, exit);
    Widen(rest.steps, {Shell, InContainer}, ks);
    ThenKinds(Ignored(ChownHome(uid)), rest, ks);
    ThenKinds(Ignored(ListHome), Then(Ignored(ChownHome(uid)), rest), ks);
    ThenKinds(ContainerStart(o, env, uid, root, exit), Then(Ignored(ListHome), Then(Ignored(ChownHome(uid)), rest)), ks);
  }
}
