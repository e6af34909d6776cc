/** The RoboFile object: the launcher's own state (`git_ref`,
    `devshop_root_path`) and its commands, run against a `Host`.  Every
    method is proved to issue exactly the commands, in the order, that the
    matching function of module Launch describes, and to end the same way. */
module Robo {
  import opened Text
  import opened Process
  import opened Launch

  class RoboFile {
    /** The directory the RoboFile lives in (`__DIR__`). */
    const dir: string
    /** `$this->git_ref`: the branch or tag being launched. */
    var gitRef: string
    /** `$this->devshop_root_path`: "" until a command sets it to `dir`. */
    var rootPath: string

    ghost predicate Valid()
      reads this
    {
      rootPath == "" || rootPath == dir
    }

    /** Derives the git ref from the output of `git describe --tags
        --exact-match || git symbolic-ref -q HEAD`, falling back to
        GITHUB_REF. */
    constructor (dir: string, describe: string, githubRef: string)
      ensures Valid() && this.dir == dir && rootPath == ""
      ensures gitRef == GitRef(describe, githubRef)
    {
      this.dir := dir;
      rootPath := "";
      gitRef := Trim(RemoveAll(describe, HeadsPrefix));
      new;
      if PhpEmpty(gitRef) && !PhpEmpty(githubRef) {
        gitRef := githubRef;
      }
    }

    /** Checks that docker and docker-compose answer. */
    method PrepareHost(host: Host) returns (st: Status)
      modifies host
      ensures host.log == old(host.log) + HostCheck(host.exit).steps
      ensures st == HostCheck(host.exit).status
    {
      var code := host.Execute(Exec("docker info"));
      if code != 0 {
        return Failed(HostUnavailable);
      }
      code := host.Execute(Exec("docker -v"));
      code := host.Execute(Exec("docker-compose -v"));
      if code != 0 {
        return Failed(HostUnavailable);
      }
      return Ok;
    }

    /** Builds the devshop/server:local image. */
    method PrepareContainers(host: Host, userUid: Option<string>, hostname: string, playbook: string,
                             file: string, env: Env) returns (st: Status)
      modifies host
      ensures host.log == old(host.log) + ContainerBuild(userUid, hostname, playbook, file, env, host.exit).steps
      ensures st == ContainerBuild(userUid, hostname, playbook, file, env, host.exit).status
    {
      var uid := if userUid.None? then Trim(env.idU) else userUid.value;
      var verbosity := AnsibleVerbosity(env.verbosity);
      var code := host.Execute(DockerBuild(file, "devshop/server:local", hostname, uid, verbosity, playbook));
      if code != 0 {
        return Failed(DockerBuildFailed);
      }
      return Ok;
    }

    /** Clones what is missing and builds devmaster when it is absent. */
    method PrepareSourcecode(host: Host, noDev: bool, devshopVersion: Option<string>, env: Env)
      returns (st: Status)
      modifies this, host
      ensures Valid() && rootPath == dir && gitRef == old(gitRef)
      ensures host.log == old(host.log) + SourcePrep(dir, gitRef, noDev, devshopVersion, env, host.exit).steps
      ensures st == SourcePrep(dir, gitRef, noDev, devshopVersion, env, host.exit).status
    {
      var version := devshopVersion;
      if version.None? || version.value == "" {
        version := Some(gitRef);
      }
      rootPath := dir;

      ghost var l0 := host.log;
      CloneSources(host, env);
      ghost var l1 := host.log;
      ghost var prepared := Outcome(PrepSteps(dir, env), Ok);
      ghost var origin := if !noDev then Ignored(SetOrigin) else Done;
      st := MakeDevmaster(host, version.value, noDev, env.existing);
      ghost var make := MakeStep(dir, version.value, noDev, env.existing, host.exit);
      if st.Failed? {
        ThenLog(l0, l1, host.log, prepared, Then(make, origin));
        return;
      }
      ghost var l2 := host.log;
      if !noDev {
        var code := host.Execute(SetOrigin);
      } else {
        assert host.log == l2 + origin.steps;
      }
      ThenLog(l1, l2, host.log, make, origin);
      ThenLog(l0, l1, host.log, prepared, Then(make, origin));
    }

    /** The aegir-home scaffold, the repositories and the roles. */
    method CloneSources(host: Host, env: Env)
      modifies host
      ensures host.log == old(host.log) + PrepSteps(rootPath, env)
    {
      ghost var l0 := host.log;
      var commands := CommandsDir(rootPath);
      ghost var scaffold := if commands in env.existing then [] else [MakeDir(commands)];
      if commands !in env.existing {
        var code := host.Execute(MakeDir(commands));
      } else {
        assert host.log == l0 + scaffold;
      }
      ghost var l1 := host.log;
      CloneRepos(host, env.existing);
      ghost var l2 := host.log;
      var roles := CollectRoles(env.requirements);
      CloneRoles(host, roles, env.existing);
      LogAppend(l0, l1, l2, scaffold, RepoSteps(rootPath, Repos, env.existing));
      LogAppend(l0, l2, host.log, scaffold + RepoSteps(rootPath, Repos, env.existing), RoleSteps(rootPath, roles, env.existing));
    }

    /** The loop over the repositories. */
    method CloneRepos(host: Host, existing: set<string>)
      modifies host
      ensures host.log == old(host.log) + RepoSteps(rootPath, Repos, existing)
    {
      var i := 0;
      while i < |Repos|
        invariant 0 <= i <= |Repos|
        invariant host.log == old(host.log) + RepoSteps(rootPath, Repos[..i], existing)
      {
        var path := RepoPath(rootPath, Repos[i].0);
        var code: int;
        if path !in existing {
          code := host.Execute(GitClone(Repos[i].1, path, None));
        }
        if Repos[i].0 == "provision" {
          code := host.Execute(GitCheckout(path, ProvisionBranch));
        }
        assert Repos[..i + 1][..i] == Repos[..i];
        i := i + 1;
      }
      assert Repos[..i] == Repos;
    }

    /** The loop over the clones of roles. */
    method CloneRoles(host: Host, roles: seq<Role>, existing: set<string>)
      modifies host
      ensures host.log == old(host.log) + RoleSteps(rootPath, roles, existing)
    {
      var k := 0;
      while k < |roles|
        invariant 0 <= k <= |roles|
        invariant host.log == old(host.log) + RoleSteps(rootPath, roles[..k], existing)
      {
        var path := RolePath(rootPath, roles[k].name);
        if path !in existing {
          var code := host.Execute(GitClone(roles[k].repo, path, roles[k].version));
        }
        assert roles[..k + 1][..k] == roles[..k];
        k := k + 1;
      }
      assert roles[..k] == roles;
    }

    /** `drush make` into the devmaster directory when it is absent. */
    method MakeDevmaster(host: Host, version: string, noDev: bool, existing: set<string>) returns (st: Status)
      modifies host
      ensures host.log == old(host.log) + MakeStep(rootPath, version, noDev, existing, host.exit).steps
      ensures st == MakeStep(rootPath, version, noDev, existing, host.exit).status
    {
      if MakeDestination(rootPath, version) !in existing {
        var code := host.Execute(DrushMake(rootPath, version, noDev));
        if code != 0 {
          return Failed(DrushMakeFailed(code));
        }
      }
      return Ok;
    }

    /** `robo up`. */
    method Up(host: Host, o: UpOptions, env: Env) returns (st: Status)
      requires Valid()
      modifies this, host
      ensures Valid() && gitRef == old(gitRef)
      ensures HostCheck(host.exit).status == Ok ==> rootPath == dir
      ensures HostCheck(host.exit).status.Failed? ==> rootPath == old(rootPath)
      ensures host.log == old(host.log) + Launch.Up(o, env, gitRef, dir, host.exit).steps
      ensures st == Launch.Up(o, env, gitRef, dir, host.exit).status
    {
      ghost var l0 := host.log;
      st := PrepareHost(host);
      if st.Failed? {
        return;
      }
      ghost var l1 := host.log;
      if PhpEmpty(rootPath) {
        rootPath := dir;
      }
      st := Roll(host, o, env);
      ThenLog(l0, l1, host.log, HostCheck(host.exit), Rollout(o, env, gitRef, dir, host.exit));
    }

    /** The rest of `up`: the optional build, then the deployment. */
    method Roll(host: Host, o: UpOptions, env: Env) returns (st: Status)
      requires rootPath == dir
      modifies this, host
      ensures rootPath == dir && gitRef == old(gitRef)
      ensures host.log == old(host.log) + Rollout(o, env, gitRef, dir, host.exit).steps
      ensures st == Rollout(o, env, gitRef, dir, host.exit).status
    {
      var uid := if o.userUid.None? then Trim(env.idU) else o.userUid.value;
      ghost var l0 := host.log;
      if o.build {
        var playbook := BuildPlaybook(o.test, o.testUpgrade);
        st := PrepareContainers(host, Some(uid), LocalHostname, playbook, "Dockerfile.fast", env);
        if st.Failed? {
          return;
        }
        ghost var l1 := host.log;
        st := Deploy(host, o, env, uid);
        ThenLog(l0, l1, host.log, ContainerBuild(Some(uid), LocalHostname, playbook, "Dockerfile.fast", env, host.exit),
                Deployment(o, env, gitRef, dir, host.exit));
      } else {
        st := Deploy(host, o, env, uid);
      }
    }

    /** The optional source preparation, then the launch for the mode. */
    method Deploy(host: Host, o: UpOptions, env: Env, uid: string) returns (st: Status)
      requires rootPath == dir && uid == Uid(o.userUid, env)
      modifies this, host
      ensures rootPath == dir && gitRef == old(gitRef)
      ensures host.log == old(host.log) + Deployment(o, env, gitRef, dir, host.exit).steps
      ensures st == Deployment(o, env, gitRef, dir, host.exit).status
    {
      var version := o.devshopVersion;
      if version.None? || version.value == "" {
        version := Some(gitRef);
      }
      assert version == Some(DevshopVersion(o.devshopVersion, gitRef));
      ghost var l0 := host.log;
      ghost var prep := if PrepWanted(o, env) then SourcePrep(dir, gitRef, o.noDev, version, env, host.exit) else Done;
      if !o.skipSourcePrep && "aegir-home" !in env.existing {
        st := PrepareSourcecode(host, o.noDev, version, env);
        if st.Failed? {
          return;
        }
      } else {
        assert host.log == l0 + prep.steps;
      }
      ghost var l1 := host.log;
      st := LaunchMode(host, o, env, uid);
      ThenLog(l0, l1, host.log, prep, ModeFlow(o, env, uid, dir, host.exit));
    }

    /** The launch proper, selected by mode. */
    method LaunchMode(host: Host, o: UpOptions, env: Env, uid: string) returns (st: Status)
      requires rootPath == dir
      modifies host
      ensures host.log == old(host.log) + ModeFlow(o, env, uid, dir, host.exit).steps
      ensures st == ModeFlow(o, env, uid, dir, host.exit).status
    {
      if o.mode == "docker-compose" {
        st := LaunchCompose(host, o, env);
      } else if o.mode == "install.sh" || o.mode == "manual" {
        st := LaunchScripted(host, o, env, uid);
      } else {
        st := Ok;
        assert host.log == old(host.log) + [];
      }
    }

    /** The docker-compose branch of `up`: the command list, then each
        command run with mustRun. */
    method LaunchCompose(host: Host, o: UpOptions, env: Env) returns (st: Status)
      modifies host
      ensures host.log == old(host.log) + ComposeFlow(o, env, host.exit).steps
      ensures st == ComposeFlow(o, env, host.exit).status
    {
      var cmd: seq<string> := [ComposeUp, Settle, DockerPs, ListAegir];
      if o.test {
        cmd := cmd + [StopSupervisor, ComposeInstall, AsAegir(TestsScript)];
      } else if o.testUpgrade {
        cmd := cmd + [StopSupervisor, ComposeInstall, AsAegir(UpgradeTestsScript)];
      } else {
        cmd := cmd + [ComposeStatus, ComposeLogin];
        if o.follow {
          cmd := cmd + [FollowLogs];
        }
      }
      assert cmd == ComposeCommands(o.test, o.testUpgrade, o.follow);
      st := MustRunEach(host, cmd, ComposeFile(o.test, o.testUpgrade), IsTty(env));
    }

    /** Each command line as a process with the given environment and TTY,
        run with mustRun: the first failure aborts. */
    method MustRunEach(host: Host, cmd: seq<string>, composeFile: Option<string>, tty: bool) returns (st: Status)
      modifies host
      ensures host.log == old(host.log) + MustRunAll(Processes(cmd, composeFile, tty), host.exit).steps
      ensures st == MustRunAll(Processes(cmd, composeFile, tty), host.exit).status
    {
      ghost var ps := Processes(cmd, composeFile, tty);
      ProcessesEach(cmd, composeFile, tty);
      var i := 0;
      while i < |cmd|
        invariant 0 <= i <= |cmd|
        invariant host.log == old(host.log) + ps[..i]
        invariant forall j :: 0 <= j < i ==> host.exit(ps[j]) == 0
      {
        var process := Process(cmd[i], composeFile, tty, None);
        ghost var before := host.log;
        var code := host.Execute(process);
        assert ps[..i + 1] == ps[..i] + [process];
        LogAppend(old(host.log), before, host.log, ps[..i], [process]);
        if code != 0 {
          MustRunAllFirstFailure(ps, i, host.exit);
          return Failed(ProcessFailed(process));
        }
        i := i + 1;
      }
      assert ps[..i] == ps;
      MustRunAllSucceeds(ps, host.exit);
      return Ok;
    }

    /** The install.sh / manual branch of `up`. */
    method LaunchScripted(host: Host, o: UpOptions, env: Env, uid: string) returns (st: Status)
      requires rootPath == dir
      modifies host
      ensures host.log == old(host.log) + ScriptedFlow(o, env, uid, dir, host.exit).steps
      ensures st == ScriptedFlow(o, env, uid, dir, host.exit).status
    {
      ghost var l0 := host.log;
      st := StartContainer(host, o, env, uid);
      if st.Failed? {
        return;
      }
      ghost var l1 := host.log;
      var code := host.Execute(ListHome);
      ghost var l2 := host.log;
      code := host.Execute(ChownHome(uid));
      ghost var l3 := host.log;
      st := Provision(host, o, env, uid);
      ghost var rest := Provisioning(o, env, uid, dir, host.exit);
      ThenLog(l2, l3, host.log, Ignored(ChownHome(uid)), rest);
      ThenLog(l1, l2, host.log, Ignored(ListHome), Then(Ignored(ChownHome(uid)), rest));
      ThenLog(l0, l1, host.log, ContainerStart(o, env, uid, dir, host.exit),
              Then(Ignored(ListHome), Then(Ignored(ChownHome(uid)), rest)));
    }

    /** The upgrade test, or install.sh when allowed; then the tests. */
    method Provision(host: Host, o: UpOptions, env: Env, uid: string) returns (st: Status)
      requires rootPath == dir
      modifies host
      ensures host.log == old(host.log) + Provisioning(o, env, uid, dir, host.exit).steps
      ensures st == Provisioning(o, env, uid, dir, host.exit).status
    {
      ghost var l0 := host.log;
      ghost var install := Installation(o, env, uid, dir, host.exit);
      ghost var tests := if o.test then Fatal(RunTests, host.exit, TestsFailed) else Done;
      var code: int;
      if o.testUpgrade {
        st := RunUpgradeTest(host, o, env, uid);
        if st.Failed? {
          return;
        }
      } else if o.mode != "manual" && (env.noInteraction || env.confirmInstall) {
        code := host.Execute(InstallSh(o.installShOptions));
        if code != 0 {
          return Failed(InstallShFailed);
        }
      } else {
        assert host.log == l0 + install.steps;
      }
      ghost var l1 := host.log;

      st := Ok;
      if o.test {
        code := host.Execute(RunTests);
        if code != 0 {
          st := Failed(TestsFailed);
        }
      } else {
        assert host.log == l1 + tests.steps;
      }
      ThenLog(l0, l1, host.log, install, tests);
    }

    /** `docker run` of the install image, then the image's fixup. */
    method StartContainer(host: Host, o: UpOptions, env: Env, uid: string) returns (st: Status)
      requires rootPath == dir
      modifies host
      ensures host.log == old(host.log) + ContainerStart(o, env, uid, dir, host.exit).steps
      ensures st == ContainerStart(o, env, uid, dir, host.exit).status
    {
      var init := InitFor(o.installShImage);
      var siteHosts := env.siteHosts;
      if PhpEmpty(siteHosts) {
        siteHosts := LocalHostname;
      }
      var token := if PhpEmpty(env.githubToken) then "" else env.githubToken;
      var code := host.Execute(DockerRun(o.installShImage, init, rootPath, siteHosts, token, env.githubRef, uid));
      if code != 0 {
        return Failed(DockerRunFailed);
      }
      if o.installShImage == "ubuntu:14.04" {
        code := host.Execute(PolicyFixup);
        if code != 0 {
          return Failed(InitPolicyFailed);
        }
      }
      return Ok;
    }

    /** The test-upgrade part of the install.sh branch of `up`. */
    method RunUpgradeTest(host: Host, o: UpOptions, env: Env, uid: string) returns (st: Status)
      requires rootPath == dir
      modifies host
      ensures host.log == old(host.log)
        + UpgradeFlow(o.installShOptions, o.noDev, uid, env.githubRef, dir, host.exit).steps
      ensures st == UpgradeFlow(o.installShOptions, o.noDev, uid, env.githubRef, dir, host.exit).status
    {
      ghost var l0 := host.log;
      var code := host.Execute(GalaxyShim);
      ghost var l1 := host.log;
      code := host.Execute(FetchOldInstaller(rootPath));
      ghost var l2 := host.log;
      var options := ExtendInstallOptions(o.installShOptions, o.noDev, uid);
      st := Upgrade(host, OldInstall(options), UpgradeCommand(env.githubRef));
      ghost var rest := UpgradeSteps(OldInstall(options), UpgradeCommand(env.githubRef), host.exit);
      ThenLog(l1, l2, host.log, Ignored(FetchOldInstaller(rootPath)), rest);
      ThenLog(l0, l1, host.log, Ignored(GalaxyShim), Then(Ignored(FetchOldInstaller(rootPath)), rest));
    }

    /** The old release's install.sh options, extended one flag at a time. */
    method ExtendInstallOptions(base: string, noDev: bool, uid: string) returns (options: string)
      ensures options == UpgradeInstallOptions(base, noDev, uid)
    {
      options := base;
      options := options + MakefileOption(noDev);
      options := options + InstallPathFlag;
      options := options + ForceRolesFlag;
      if !PhpEmpty(uid) {
        options := options + (" --aegir-uid=" + uid);
      }
    }

    /** Install the old release, upgrade it, check its status; each fatal. */
    method Upgrade(host: Host, install: Command, upgrade: string) returns (st: Status)
      modifies host
      ensures host.log == old(host.log) + UpgradeSteps(install, upgrade, host.exit).steps
      ensures st == UpgradeSteps(install, upgrade, host.exit).status
    {
      var code := host.Execute(install);
      if code != 0 {
        return Failed(OldInstallFailed(UpgradeFromVersion));
      }
      code := host.Execute(DockerExec(Container, upgrade));
      if code != 0 {
        return Failed(UpgradeFailed(upgrade));
      }
      code := host.Execute(StatusCheck);
      if code != 0 {
        return Failed(StatusFailed);
      }
      return Ok;
    }
  }
}
