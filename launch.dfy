/** What the devshop launcher (RoboFile) does, as functions: for each
    operation, the commands it issues in order and how it ends, given the
    options, what it reads from its surroundings and the exit code of every
    command. */
module Launch {
  import opened Text
  import opened Process

  // Constants of the RoboFile class.
  const UpgradeFromVersion := "1.0.0-rc4-testing"
  const DevshopInstall :=
    "ansible-playbook /usr/share/devshop/docker/playbook.server.yml --tags install-devmaster --extra-vars \"devmaster_skip_install=false\""
  const DevshopUsername := "aegir"
  const LocalHostname := "devshop.local.computer"
  const Container := "devshop_container"
  const HeadsPrefix := "refs/heads/"

  // Symfony console verbosity levels (OutputInterface::VERBOSITY_*).
  const VerbosityVerbose := 64
  const VerbosityVeryVerbose := 128
  const VerbosityDebug := 256

  /** One entry of requirements.yml, already parsed. */
  datatype Requirement = Requirement(name: string, version: Option<string>)

  /** A role to clone: its name, repository and version. */
  datatype Role = Role(name: string, repo: string, version: Option<string>)

  /** The options of `robo up`; `None` stands for an option left NULL. */
  datatype UpOptions = UpOptions(
    follow: bool,
    test: bool,
    testUpgrade: bool,
    mode: string,
    installShImage: string,
    installShOptions: string,
    userUid: Option<string>,
    noDev: bool,
    devshopVersion: Option<string>,
    build: bool,
    skipSourcePrep: bool)

  /** What the launcher reads from outside: process environment ($_SERVER,
      "" for an unset variable), the console, the output of `id -u`, the
      filesystem (the set of paths that exist) and requirements.yml. */
  datatype Env = Env(
    idU: string,
    githubRef: string,
    githubToken: string,
    xdgSessionType: string,
    siteHosts: string,
    verbosity: int,
    noInteraction: bool,
    confirmInstall: bool,
    existing: set<string>,
    requirements: seq<Requirement>)

  // ---------------------------------------------------------------- git ref

  /** The branch or tag the checkout is on: `git describe` / `git
      symbolic-ref` output with every "refs/heads/" deleted and trimmed,
      or GITHUB_REF when that leaves nothing. */
  function GitRef(describe: string, githubRef: string): string {
    var r := Trim(RemoveAll(describe, HeadsPrefix));
    if PhpEmpty(r) && !PhpEmpty(githubRef) then githubRef else r
  }

  /** `devshop-version` left NULL (or "", which PHP's `== NULL` equates
      with it) falls back to the git ref. */
  function DevshopVersion(v: Option<string>, gitRef: string): string {
    if v.None? || v.value == "" then gitRef else v.value
  }

  /** `user-uid` left NULL falls back to the trimmed output of `id -u`. */
  function Uid(uid: Option<string>, env: Env): string {
    if uid.None? then Trim(env.idU) else uid.value
  }

  // ------------------------------------------------------------ prepareHost

  /** `docker info` must succeed (then `docker -v` is shown, its result
      ignored), and `docker-compose -v` must succeed. */
  function HostCheck(exit: Command -> int): Outcome {
    Then(Fatal(Exec("docker info"), exit, HostUnavailable),
    Then(Ignored(Exec("docker -v")),
         Fatal(Exec("docker-compose -v"), exit, HostUnavailable)))
  }

  // ------------------------------------------------------ prepareContainers

  /** Robo's verbosity passed on to Ansible: -v, -vv, -vvv give 1, 2, 3 and
      every other level 0. */
  function AnsibleVerbosity(v: int): (n: nat)
    ensures n <= 3
    ensures n == 0 <==> v != VerbosityVerbose && v != VerbosityVeryVerbose && v != VerbosityDebug
    ensures v == VerbosityVerbose <==> n == 1
    ensures v == VerbosityVeryVerbose <==> n == 2
    ensures v == VerbosityDebug <==> n == 3
  {
    if v == VerbosityVerbose then 1
    else if v == VerbosityVeryVerbose then 2
    else if v == VerbosityDebug then 3
    else 0
  }

  /** The container build, fatal when it fails. */
  function ContainerBuild(uid: Option<string>, hostname: string, playbook: string, file: string,
                          env: Env, exit: Command -> int): Outcome {
    Fatal(DockerBuild(file, "devshop/server:local", hostname, Uid(uid, env),
                      AnsibleVerbosity(env.verbosity), playbook),
          exit, DockerBuildFailed)
  }

  /** The playbook `up --build` builds with. */
  function BuildPlaybook(test: bool, testUpgrade: bool): string {
    if test || testUpgrade then "playbook.testing.yml" else "docker/playbook.server.yml"
  }

  // ----------------------------------------------------- prepareSourcecode

  /** The repositories cloned beside the launcher, as path and URL, in order. */
  const Repos: seq<(string, string)> := [
    ("provision", "http://git.drupal.org/project/provision.git"),
    ("aegir-home/.drush/commands/registry_rebuild", "http://git.drupal.org/project/registry_rebuild.git"),
    ("documentation", "http://github.com/opendevshop/documentation.git"),
    ("aegir-dockerfiles", "http://github.com/aegir-project/dockerfiles.git")
  ]

  /** The Ansible roles the launcher knows how to clone. */
  const RoleRepos: map<string, string> := map[
    "geerlingguy.apache" := "http://github.com/geerlingguy/ansible-role-apache.git",
    "geerlingguy.composer" := "http://github.com/geerlingguy/ansible-role-composer.git",
    "geerlingguy.git" := "http://github.com/geerlingguy/ansible-role-git.git",
    "geerlingguy.mysql" := "http://github.com/geerlingguy/ansible-role-mysql.git",
    "geerlingguy.nginx" := "http://github.com/geerlingguy/ansible-role-nginx.git",
    "geerlingguy.php" := "http://github.com/geerlingguy/ansible-role-php.git",
    "geerlingguy.php-versions" := "http://github.com/geerlingguy/ansible-role-php-versions.git",
    "geerlingguy.php-mysql" := "http://github.com/geerlingguy/ansible-role-php-mysql.git",
    "geerlingguy.supervisor" := "http://github.com/geerlingguy/ansible-role-supervisor.git"
  ]

  const ProvisionBranch := "7.x-3.x-devshop"
  const DevshopSshUrl := "git@github.com:opendevshop/devshop.git"
  const SetOrigin := Exec("git remote set-url origin " + DevshopSshUrl)

  function CommandsDir(root: string): string {
    root + "/aegir-home/.drush/commands"
  }

  /** What the loop over the repositories does for one of them: clone it
      when its path is absent; check provision out, whether cloned or not. */
  function MakeDir(path: string): Command {
    Exec("mkdir -p " + path)
  }

  function RepoPath(root: string, rel: string): string {
    root + "/" + rel
  }

  function RepoStep(root: string, repo: (string, string), existing: set<string>): seq<Command> {
    var path := RepoPath(root, repo.0);
    (if path in existing then [] else [GitClone(repo.1, path, None)])
    + (if repo.0 == "provision" then [GitCheckout(path, ProvisionBranch)] else [])
  }

  function RepoSteps(root: string, repos: seq<(string, string)>, existing: set<string>): seq<Command> {
    if repos == [] then []
    else RepoSteps(root, repos[..|repos| - 1], existing) + RepoStep(root, repos[|repos| - 1], existing)
  }

  function RolePath(root: string, name: string): string {
    root + "/roles/" + name
  }

  /** Clone each role whose path is absent. */
  function RoleSteps(root: string, roles: seq<Role>, existing: set<string>): seq<Command> {
    if roles == [] then []
    else
      var r := roles[|roles| - 1];
      var path := RolePath(root, r.name);
      RoleSteps(root, roles[..|roles| - 1], existing)
      + (if path in existing then [] else [GitClone(r.repo, path, r.version)])
  }

  /** `$roles[$name] = ...` on a PHP array: a key already present keeps its
      place and takes the new value; a new key goes at the end. */
  function Upsert(roles: seq<Role>, r: Role): seq<Role> {
    if roles == [] then [r]
    else if roles[0].name == r.name then [r] + roles[1..]
    else [roles[0]] + Upsert(roles[1..], r)
  }

  /** The loop that collects the roles, as `prepareSourcecode` runs it
      over requirements.yml. */
  method CollectRoles(reqs: seq<Requirement>) returns (roles: seq<Role>)
    ensures roles == SelectRoles(reqs)
  {
    roles := [];
    var j := 0;
    while j < |reqs|
      invariant 0 <= j <= |reqs|
      invariant roles == SelectRoles(reqs[..j])
    {
      if reqs[j].name in RoleRepos {
        roles := Upsert(roles, Role(reqs[j].name, RoleRepos[reqs[j].name], reqs[j].version));
      }
      assert reqs[..j + 1][..j] == reqs[..j];
      j := j + 1;
    }
    assert reqs[..j] == reqs;
  }

  /** The roles of requirements.yml that the launcher knows, with the
      repository from its own table and the version from the file. */
  function SelectRoles(reqs: seq<Requirement>): seq<Role> {
    if reqs == [] then []
    else
      var prev := SelectRoles(reqs[..|reqs| - 1]);
      var q := reqs[|reqs| - 1];
      if q.name in RoleRepos then Upsert(prev, Role(q.name, RoleRepos[q.name], q.version)) else prev
  }

  /** The makefile: the release one with no-dev, the development one otherwise. */
  function Makefile(noDev: bool): string {
    if noDev then "build-devmaster.make" else "build-devmaster-dev.make.yml"
  }

  function MakeDestination(root: string, version: string): string {
    root + "/aegir-home/devmaster-" + version
  }

  function DrushMake(root: string, version: string, noDev: bool): Command {
    Exec("bin/drush make " + root + "/" + Makefile(noDev) + " " + MakeDestination(root, version)
         + " --working-copy --no-gitinfofile")
  }

  /** Build devmaster when its destination is absent; a failed build
      raises with the build's exit code. */
  function MakeStep(root: string, version: string, noDev: bool, existing: set<string>,
                    exit: Command -> int): Outcome {
    if MakeDestination(root, version) in existing then Done
    else
      var c := DrushMake(root, version, noDev);
      Fatal(c, exit, DrushMakeFailed(exit(c)))
  }

  /** Everything prepareSourcecode issues before the build: the aegir-home
      scaffold, the repositories and the roles.  None of these can abort. */
  function PrepSteps(root: string, env: Env): seq<Command> {
    (if CommandsDir(root) in env.existing then [] else [MakeDir(CommandsDir(root))])
    + RepoSteps(root, Repos, env.existing)
    + RoleSteps(root, SelectRoles(env.requirements), env.existing)
  }

  /** prepareSourcecode. */
  function SourcePrep(root: string, gitRef: string, noDev: bool, version: Option<string>,
                      env: Env, exit: Command -> int): Outcome {
    var v := DevshopVersion(version, gitRef);
    Then(Outcome(PrepSteps(root, env), Ok),
    Then(MakeStep(root, v, noDev, env.existing, exit),
         if !noDev then Ignored(SetOrigin) else Done))
  }

  // ---------------------------------------------------------- up: compose

  const ComposeUp := "docker-compose up -d"
  const Settle := "sleep 1"
  const DockerPs := "docker ps"
  const ListAegir := "docker-compose exec -T devshop ls -la /var/aegir"
  const StopSupervisor := "docker-compose exec -T devshop service supervisord stop"
  const ComposeInstall := "docker-compose exec -T devshop " + DevshopInstall
  const ComposeStatus := "docker-compose exec -T devshop devshop status"
  const ComposeLogin := "docker-compose exec -T devshop devshop login"
  const FollowLogs := "docker-compose logs -f"
  const TestsScript := "/usr/share/devshop/tests/devshop-tests.sh"
  const UpgradeTestsScript := "/usr/share/devshop/tests/devshop-tests-upgrade.sh"

  /** A test script run in the devshop service as the application user. */
  function AsAegir(script: string): string {
    "docker-compose exec -T --user " + DevshopUsername + " devshop " + script
  }

  /** The compose command list, as `up` builds it. */
  function ComposeCommands(test: bool, testUpgrade: bool, follow: bool): seq<string> {
    var base := [ComposeUp, Settle, DockerPs, ListAegir];
    if test then base + [StopSupervisor, ComposeInstall, AsAegir(TestsScript)]
    else if testUpgrade then base + [StopSupervisor, ComposeInstall, AsAegir(UpgradeTestsScript)]
    else base + [ComposeStatus, ComposeLogin] + (if follow then [FollowLogs] else [])
  }

  /** COMPOSE_FILE is overridden for test runs only. */
  function ComposeFile(test: bool, testUpgrade: bool): Option<string> {
    if test || testUpgrade then Some("docker-compose-tests.yml") else None
  }

  /** A TTY is attached only in a tty session. */
  function IsTty(env: Env): bool {
    !PhpEmpty(env.xdgSessionType) && env.xdgSessionType == "tty"
  }

  /** Each command line as a process with the given environment and TTY
      and no timeout. */
  function Processes(lines: seq<string>, composeFile: Option<string>, tty: bool): seq<Command> {
    if lines == [] then []
    else Processes(lines[..|lines| - 1], composeFile, tty) + [Process(lines[|lines| - 1], composeFile, tty, None)]
  }

  /** One process per line, in order, each with the same environment and
      TTY and no timeout. */
  lemma {:induction false} ProcessesEach(lines: seq<string>, composeFile: Option<string>, tty: bool)
    ensures var ps := Processes(lines, composeFile, tty);
      && |ps| == |lines|
      && forall i :: 0 <= i < |lines| ==> ps[i] == Process(lines[i], composeFile, tty, None)
  {
    if lines != [] {
      ProcessesEach(lines[..|lines| - 1], composeFile, tty);
    }
  }

  function ComposeFlow(o: UpOptions, env: Env, exit: Command -> int): Outcome {
    MustRunAll(Processes(ComposeCommands(o.test, o.testUpgrade, o.follow),
                         ComposeFile(o.test, o.testUpgrade), IsTty(env)), exit)
  }

  // -------------------------------------------- up: install.sh and manual

  /** Init executables of the base images the launcher knows. */
  const InitMap: map<string, string> := map[
    "centos:7" := "/usr/lib/systemd/systemd",
    "ubuntu:14.04" := "/sbin/init",
    "geerlingguy/docker-ubuntu1404-ansible" := "/sbin/init",
    "geerlingguy/docker-ubuntu1604-ansible" := "/lib/systemd/systemd",
    "geerlingguy/docker-ubuntu1804-ansible" := "/lib/systemd/systemd",
    "geerlingguy/docker-centos7-ansible" := "/usr/lib/systemd/systemd"
  ]

  /** The init executable of `image`, "/sbin/init" for an unknown image. */
  function InitFor(image: string): string {
    if image in InitMap then InitMap[image] else "/sbin/init"
  }

  function SiteHosts(env: Env): string {
    if PhpEmpty(env.siteHosts) then LocalHostname else env.siteHosts
  }

  /** `$_SERVER['GITHUB_TOKEN'] ?: ''`. */
  function GithubToken(env: Env): string {
    if PhpEmpty(env.githubToken) then "" else env.githubToken
  }

  function LaunchContainer(o: UpOptions, env: Env, uid: string, root: string): Command {
    DockerRun(o.installShImage, InitFor(o.installShImage), root, SiteHosts(env),
              GithubToken(env), env.githubRef, uid)
  }

  const PolicyFixup := DockerExec(Container, "sed -i 's/101/0/' /usr/sbin/policy-rc.d")
  const ListHome := DockerExec(Container, "ls -la /var/aegir")
  const GalaxyShim := DockerExec(Container, "ansible-galaxy install geerlingguy.git geerlingguy.apache")
  const StatusCheck := DockerExec(Container, "/usr/share/devshop/bin/devshop status")
  const RunTests := DockerExec(Container, "su - aegir -c  - " + TestsScript)

  function ChownHome(uid: string): Command {
    DockerExec(Container, "chown " + uid + " /var/aegir -R")
  }

  /** The only image-specific fixup: ubuntu:14.04's policy-rc.d, fatal. */
  function ImageFixup(image: string, exit: Command -> int): Outcome {
    if image == "ubuntu:14.04" then Fatal(PolicyFixup, exit, InitPolicyFailed) else Done
  }

  function InstallSh(options: string): Command {
    DockerExec(Container, "/usr/share/devshop/install.sh " + options)
  }

  /** install.sh, gated by mode and by --no-interaction or a confirmation. */
  function InstallGate(mode: string, options: string, noInteraction: bool, confirmed: bool,
                       exit: Command -> int): Outcome {
    if mode != "manual" && (noInteraction || confirmed) then
      Fatal(InstallSh(options), exit, InstallShFailed)
    else Done
  }

  // ------------------------------------------------- up: upgrade test flow

  function FetchOldInstaller(root: string): Command {
    Exec("curl -fsSL https://raw.githubusercontent.com/opendevshop/devshop/" + UpgradeFromVersion
         + "/install.sh -o " + root + "/install." + UpgradeFromVersion + ".sh")
  }

  const InstallPathFlag := " --install-path=/usr/share/devshop-" + UpgradeFromVersion
  const ForceRolesFlag := " --force-ansible-role-install"

  /** The makefile option: the old release's makefile, chosen as for a
      fresh install. */
  function MakefileOption(noDev: bool): string {
    " --makefile=https://raw.githubusercontent.com/opendevshop/devshop/" + UpgradeFromVersion + "/" + Makefile(noDev)
  }

  /** The uid option, only when a uid is given. */
  function UidOption(uid: string): string {
    if !PhpEmpty(uid) then " --aegir-uid=" + uid else ""
  }

  /** The install.sh options for the old release, extended in this order. */
  function UpgradeInstallOptions(base: string, noDev: bool, uid: string): string {
    base + MakefileOption(noDev) + InstallPathFlag + ForceRolesFlag + UidOption(uid)
  }

  function OldInstall(options: string): Command {
    DockerExec(Container, "bash /usr/share/devshop/install." + UpgradeFromVersion + ".sh " + options)
  }

  /** The branch to upgrade to: GITHUB_REF, or "1.x" when it is empty.
      Either way the upgrade names a branch. */
  function UpgradeBranch(githubRef: string): (b: string)
    ensures !PhpEmpty(b)
    ensures b == githubRef || (b == "1.x" && PhpEmpty(githubRef))
  {
    if !PhpEmpty(githubRef) then githubRef else "1.x"
  }

  function UpgradeCommand(githubRef: string): string {
    "/usr/share/devshop/bin/devshop upgrade -n " + UpgradeBranch(githubRef)
  }

  /** Old release installed, upgraded in place, status verified: the
      galaxy shim and the download are unchecked, the rest is fatal. */
  function UpgradeFlow(options: string, noDev: bool, uid: string, githubRef: string, root: string,
                       exit: Command -> int): Outcome {
    Then(Ignored(GalaxyShim),
    Then(Ignored(FetchOldInstaller(root)),
         UpgradeSteps(OldInstall(UpgradeInstallOptions(options, noDev, uid)), UpgradeCommand(githubRef), exit)))
  }

  /** The fatal part of the upgrade test: install, upgrade, status. */
  function UpgradeSteps(install: Command, upgrade: string, exit: Command -> int): Outcome {
    Then(Fatal(install, exit, OldInstallFailed(UpgradeFromVersion)),
    Then(Fatal(DockerExec(Container, upgrade), exit, UpgradeFailed(upgrade)),
         Fatal(StatusCheck, exit, StatusFailed)))
  }

  /** The container started, fatal when `docker run` fails, then fixed up. */
  function ContainerStart(o: UpOptions, env: Env, uid: string, root: string, exit: Command -> int): Outcome {
    Then(Fatal(LaunchContainer(o, env, uid, root), exit, DockerRunFailed),
         ImageFixup(o.installShImage, exit))
  }

  /** The install.sh / manual branch of `up`. */
  function ScriptedFlow(o: UpOptions, env: Env, uid: string, root: string, exit: Command -> int): Outcome {
    Then(ContainerStart(o, env, uid, root, exit),
    Then(Ignored(ListHome),
    Then(Ignored(ChownHome(uid)),
         Provisioning(o, env, uid, root, exit))))
  }

  /** The upgrade test, or install.sh when allowed; then the tests. */
  function Provisioning(o: UpOptions, env: Env, uid: string, root: string, exit: Command -> int): Outcome {
    Then(Installation(o, env, uid, root, exit),
         if o.test then Fatal(RunTests, exit, TestsFailed) else Done)
  }

  /** The upgrade test with `--test-upgrade`, the gated install.sh otherwise. */
  function Installation(o: UpOptions, env: Env, uid: string, root: string, exit: Command -> int): Outcome {
    if o.testUpgrade then UpgradeFlow(o.installShOptions, o.noDev, uid, env.githubRef, root, exit)
    else InstallGate(o.mode, o.installShOptions, env.noInteraction, env.confirmInstall, exit)
  }

  // ------------------------------------------------------------------- up

  /** Whether `up` prepares the source: only when not skipped and there is
      no `aegir-home` in the working directory. */
  predicate PrepWanted(o: UpOptions, env: Env) {
    !o.skipSourcePrep && "aegir-home" !in env.existing
  }

  /** The launch proper, selected by mode; any other mode issues nothing. */
  function ModeFlow(o: UpOptions, env: Env, uid: string, root: string, exit: Command -> int): Outcome {
    if o.mode == "docker-compose" then ComposeFlow(o, env, exit)
    else if o.mode == "install.sh" || o.mode == "manual" then ScriptedFlow(o, env, uid, root, exit)
    else Done
  }

  /** `robo up`: the host check, then the rest. */
  function Up(o: UpOptions, env: Env, gitRef: string, root: string, exit: Command -> int): Outcome {
    Then(HostCheck(exit), Rollout(o, env, gitRef, root, exit))
  }

  /** What `up` does once the host is found usable: the optional build,
      then the deployment. */
  function Rollout(o: UpOptions, env: Env, gitRef: string, root: string, exit: Command -> int): Outcome {
    var build :=
      if o.build then ContainerBuild(Some(Uid(o.userUid, env)), LocalHostname, BuildPlaybook(o.test, o.testUpgrade),
                                     "Dockerfile.fast", env, exit)
      else Done;
    Then(build, Deployment(o, env, gitRef, root, exit))
  }

  /** The optional source preparation, then the launch for the mode. */
  function Deployment(o: UpOptions, env: Env, gitRef: string, root: string, exit: Command -> int): Outcome {
    var prep :=
      if PrepWanted(o, env) then
        SourcePrep(root, gitRef, o.noDev, Some(DevshopVersion(o.devshopVersion, gitRef)), env, exit)
      else Done;
    Then(prep, ModeFlow(o, env, Uid(o.userUid, env), root, exit))
  }
}
