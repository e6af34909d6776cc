/** Properties of `robo up` as a whole: the host is checked first, the
    build happens exactly when asked for, nothing of the launch runs before
    the preparation has finished, and each mode issues only its own kind of
    command. */
module UpProps {
  import opened Text
  import opened Process
  import opened Launch
  import opened PrepProps
  import opened Kinds

  const DockerInfo := Exec("docker info")
  const DockerVersion := Exec("docker -v")
  const ComposeVersion := Exec("docker-compose -v")

  /** The host check comes first: without a working `docker info` nothing
      else is issued; without `docker-compose` nothing after the three
      probes is; otherwise the three probes open the run. */
  lemma UpPreflight(o: UpOptions, env: Env, gitRef: string, root: string, exit: Command -> int)
    ensures var out := Up(o, env, gitRef, root, exit);
      && |out.steps| >= 1 && out.steps[0] == DockerInfo
      && (exit(DockerInfo) != 0 ==> out == Outcome([DockerInfo], Failed(HostUnavailable)))
      && (exit(DockerInfo) == 0 && exit(ComposeVersion) != 0 ==>
            out == Outcome([DockerInfo, DockerVersion, ComposeVersion], Failed(HostUnavailable)))
      && (exit(DockerInfo) == 0 && exit(ComposeVersion) == 0 ==>
            |out.steps| >= 3 && out.steps[..3] == [DockerInfo, DockerVersion, ComposeVersion])
  {
    var out := Up(o, env, gitRef, root, exit);
    if exit(DockerInfo) == 0 && exit(ComposeVersion) == 0 {
      var rest := Rollout(o, env, gitRef, root, exit);
      assert HostCheck(exit) == Outcome([DockerInfo, DockerVersion, ComposeVersion], Ok);
      assert out.steps == [DockerInfo, DockerVersion, ComposeVersion] + rest.steps;
      assert out.steps[..3] == [DockerInfo, DockerVersion, ComposeVersion];
    }
  }

  /** The container build as `up --build` issues it. */
  function UpBuild(o: UpOptions, env: Env): Command {
    DockerBuild("Dockerfile.fast", "devshop/server:local", LocalHostname, Uid(o.userUid, env),
                AnsibleVerbosity(env.verbosity), BuildPlaybook(o.test, o.testUpgrade))
  }

  /** Every kind of command the deployment (preparation and launch) can issue. */
  const DeployKinds := {Shell, Clone, Checkout, Proc, Run, InContainer}

  lemma ModeFlowKinds(o: UpOptions, env: Env, uid: string, root: string, exit: Command -> int)
    ensures OnlyKinds(ModeFlow(o, env, uid, root, exit).steps, DeployKinds)
  {
    if o.mode == "docker-compose" {
      ComposeFlowKinds(o, env, exit);
      Widen(ComposeFlow(o, env, exit).steps, {Proc}, DeployKinds);
    } else if o.mode == "install.sh" || o.mode == "manual" {
      ScriptedFlowKinds(o, env, uid, root, exit);
      Widen(ScriptedFlow(o, env, uid, root, exit).steps, {Run, InContainer, Shell}, DeployKinds);
    }
  }

  lemma DeploymentKinds(o: UpOptions, env: Env, gitRef: string, root: string, exit: Command -> int)
    ensures OnlyKinds(Deployment(o, env, gitRef, root, exit).steps, DeployKinds)
  {
    var version := Some(DevshopVersion(o.devshopVersion, gitRef));
    SourcePrepKinds(root, gitRef, o.noDev, version, env, exit);
    Widen(SourcePrep(root, gitRef, o.noDev, version, env, exit).steps, {Shell, Clone, Checkout}, DeployKinds);
    ModeFlowKinds(o, env, Uid(o.userUid, env), root, exit);
    var prep := if PrepWanted(o, env) then SourcePrep(root, gitRef, o.noDev, version, env, exit) else Done;
    ThenKinds(prep, ModeFlow(o, env, Uid(o.userUid, env), root, exit), DeployKinds);
  }

  /** Once the host is usable, `--build` builds the image right after the
      probes, for the host name devshop.local.computer, the resolved uid,
      the console's verbosity and the testing playbook exactly when a test
      is asked for; a failed build stops the run. */
  lemma UpBuildStep(o: UpOptions, env: Env, gitRef: string, root: string, exit: Command -> int)
    requires exit(DockerInfo) == 0 && exit(ComposeVersion) == 0
    requires o.build
    ensures var out := Up(o, env, gitRef, root, exit);
      && |out.steps| >= 4 && out.steps[3] == UpBuild(o, env)
      && (exit(UpBuild(o, env)) != 0 ==>
            out == Outcome([DockerInfo, DockerVersion, ComposeVersion, UpBuild(o, env)], Failed(DockerBuildFailed)))
      && (UpBuild(o, env).playbook == "playbook.testing.yml" <==> o.test || o.testUpgrade)
  {
    assert HostCheck(exit) == Outcome([DockerInfo, DockerVersion, ComposeVersion], Ok);
  }

  /** Without `--build` no image is built. */
  lemma UpNoBuild(o: UpOptions, env: Env, gitRef: string, root: string, exit: Command -> int)
    requires !o.build
    ensures forall i :: 0 <= i < |Up(o, env, gitRef, root, exit).steps| ==> !Up(o, env, gitRef, root, exit).steps[i].DockerBuild?
  {
    DeploymentKinds(o, env, gitRef, root, exit);
    RolloutWithin(o, env, gitRef, root, exit, DeployKinds);
    UpWithin(o, env, gitRef, root, exit, DeployKinds);
    var steps := Up(o, env, gitRef, root, exit).steps;
    forall i | 0 <= i < |steps| ensures !steps[i].DockerBuild? {
      assert KindOf(steps[i]) in DeployKinds;
    }
  }

  /** The deployment issues only preparation commands and what the mode
      flow issues; without preparation it is the mode flow alone. */
  lemma DeploymentWithin(o: UpOptions, env: Env, gitRef: string, root: string, exit: Command -> int, ks: set<Kind>)
    requires OnlyKinds(ModeFlow(o, env, Uid(o.userUid, env), root, exit).steps, ks)
    requires PrepWanted(o, env) ==> Shell in ks && Clone in ks && Checkout in ks
    ensures OnlyKinds(Deployment(o, env, gitRef, root, exit).steps, ks)
  {
    if PrepWanted(o, env) {
      var version := Some(DevshopVersion(o.devshopVersion, gitRef));
      SourcePrepKinds(root, gitRef, o.noDev, version, env, exit);
      Widen(SourcePrep(root, gitRef, o.noDev, version, env, exit).steps, {Shell, Clone, Checkout}, ks);
      ThenKinds(SourcePrep(root, gitRef, o.noDev, version, env, exit), ModeFlow(o, env, Uid(o.userUid, env), root, exit), ks);
    }
  }

  /** The build adds only the image build; once it has succeeded (or was
      not asked for), the rollout ends as the deployment does. */
  lemma RolloutWithin(o: UpOptions, env: Env, gitRef: string, root: string, exit: Command -> int, ks: set<Kind>)
    requires OnlyKinds(Deployment(o, env, gitRef, root, exit).steps, ks)
    requires o.build ==> Build in ks
    ensures OnlyKinds(Rollout(o, env, gitRef, root, exit).steps, ks)
    ensures !o.build || exit(UpBuild(o, env)) == 0 ==>
      Rollout(o, env, gitRef, root, exit).status == Deployment(o, env, gitRef, root, exit).status
  {
    var build :=
      if o.build then ContainerBuild(Some(Uid(o.userUid, env)), LocalHostname, BuildPlaybook(o.test, o.testUpgrade),
                                     "Dockerfile.fast", env, exit)
      else Done;
    ThenKinds(build, Deployment(o, env, gitRef, root, exit), ks);
  }

  /** The host check adds only shell probes; once it has passed, `up`
      ends as the rollout does. */
  lemma UpWithin(o: UpOptions, env: Env, gitRef: string, root: string, exit: Command -> int, ks: set<Kind>)
    requires OnlyKinds(Rollout(o, env, gitRef, root, exit).steps, ks)
    requires Shell in ks
    ensures OnlyKinds(Up(o, env, gitRef, root, exit).steps, ks)
    ensures exit(DockerInfo) == 0 && exit(ComposeVersion) == 0 ==>
      Up(o, env, gitRef, root, exit).status == Rollout(o, env, gitRef, root, exit).status
  {
    ThenKinds(HostCheck(exit), Rollout(o, env, gitRef, root, exit), ks);
  }

  /** The mode decides the launch: docker-compose only adds compose
      processes, install.sh and manual only add a container and commands
      run inside it (and the download of the old installer), and any other
      mode adds nothing to the host check, the build and the preparation.
      Without source preparation nothing is cloned or checked out. */
  lemma ModeDispatch(o: UpOptions, env: Env, gitRef: string, root: string, exit: Command -> int)
    ensures var out := Up(o, env, gitRef, root, exit);
      && (o.mode == "docker-compose" ==> OnlyKinds(out.steps, {Shell, Build, Clone, Checkout, Proc}))
      && (o.mode == "install.sh" || o.mode == "manual" ==>
            OnlyKinds(out.steps, {Shell, Build, Clone, Checkout, Run, InContainer}))
      && (o.mode != "docker-compose" && o.mode != "install.sh" && o.mode != "manual" ==>
            OnlyKinds(out.steps, {Shell, Build, Clone, Checkout}))
      && (!PrepWanted(o, env) ==> OnlyKinds(out.steps, {Shell, Build, Proc, Run, InContainer}))
  {
    var uid := Uid(o.userUid, env);
    var steps := Up(o, env, gitRef, root, exit).steps;
    var flow := ModeFlow(o, env, uid, root, exit).steps;
    var ks: set<Kind>;
    if o.mode == "docker-compose" {
      ComposeFlowKinds(o, env, exit);
      ks := {Proc};
    } else if o.mode == "install.sh" || o.mode == "manual" {
      ScriptedFlowKinds(o, env, uid, root, exit);
      ks := {Run, InContainer, Shell};
    } else {
      ks := {};
    }
    var all := {Shell, Build, Clone, Checkout} + ks;
    Widen(flow, ks, all);
    DeploymentWithin(o, env, gitRef, root, exit, all);
    RolloutWithin(o, env, gitRef, root, exit, all);
    UpWithin(o, env, gitRef, root, exit, all);
    if !PrepWanted(o, env) {
      var bare := {Shell, Build} + ks;
      Widen(flow, ks, bare);
      DeploymentWithin(o, env, gitRef, root, exit, bare);
      RolloutWithin(o, env, gitRef, root, exit, bare);
      UpWithin(o, env, gitRef, root, exit, bare);
      Widen(steps, bare, {Shell, Build, Proc, Run, InContainer});
    }
  }

  /** Nothing of the launch runs until the preparation has finished: when
      the host is usable and the build (if any) succeeded but the source
      preparation fails, `up` stops with the preparation's failure having
      issued only probes, the build and preparation commands.  (A failed
      host check or build stops even earlier: UpPreflight, UpBuildStep.) */
  lemma UpPrepFails(o: UpOptions, env: Env, gitRef: string, root: string, exit: Command -> int)
    requires exit(DockerInfo) == 0 && exit(ComposeVersion) == 0
    requires o.build ==> exit(UpBuild(o, env)) == 0
    requires PrepWanted(o, env)
    requires SourcePrep(root, gitRef, o.noDev, Some(DevshopVersion(o.devshopVersion, gitRef)), env, exit).status.Failed?
    ensures Up(o, env, gitRef, root, exit).status
         == SourcePrep(root, gitRef, o.noDev, Some(DevshopVersion(o.devshopVersion, gitRef)), env, exit).status
    ensures OnlyKinds(Up(o, env, gitRef, root, exit).steps, {Shell, Build, Clone, Checkout})
  {
    var version := Some(DevshopVersion(o.devshopVersion, gitRef));
    var ks := {Shell, Build, Clone, Checkout};
    SourcePrepKinds(root, gitRef, o.noDev, version, env, exit);
    Widen(SourcePrep(root, gitRef, o.noDev, version, env, exit).steps, {Shell, Clone, Checkout}, ks);
    assert Deployment(o, env, gitRef, root, exit) == SourcePrep(root, gitRef, o.noDev, version, env, exit);
    RolloutWithin(o, env, gitRef, root, exit, ks);
    UpWithin(o, env, gitRef, root, exit, ks);
  }
}
