# devshop launcher: the `robo up` orchestration, modelled in Dafny

This project models the launch orchestration of devshop's `RoboFile.php`. That file is the Robo task file that prepares a devshop development environment and starts it. The model covers:

- the constructor, which works out the git ref of the checkout;
- `prepareHost`, which checks that docker and docker-compose are reachable;
- `prepareContainers`, the image build;
- `prepareSourcecode`, which clones repositories and roles and runs `drush make`;
- `up`. This is the pre-flight, the optional build and source preparation, and then one of the launch modes:
  - `docker-compose`: a fail-fast list of compose commands;
  - `install.sh` and `manual`: one container started with an image-specific init, then the install script or the upgrade test, then the tests.

The world is represented by three things:

- An exit-code oracle `exit: Command -> int`. It gives the exit code every external command would return.
- An `Env` value. It holds the process environment, the console verbosity, the answer to the install prompt, the output of `id -u`, the set of paths that exist and the parsed `requirements.yml`.
- A `Host` object whose `log` records, in order, every command issued.

Each operation is written twice:

- as a pure function (module `Launch`), which gives the commands issued and how the run ends (`Outcome(steps, status)`);
- as a method of the class `Robo.RoboFile`, written step by step the way the PHP code is. Each method is proved to append exactly the function's commands to the log and to return its status.

The remaining modules prove what those functions mean:

- `Process`: the fail-fast behaviour of `mustRun` pipelines.
- `Text`: PHP's `trim`, `str_replace` and `empty`.
- `Roles`: the role table built from requirements.yml.
- `PrepProps`: which clones happen and when `drush make` runs.
- `UpProps`, `ComposeProps`, `ScriptedProps`, `UpgradeProps`: the order, the mode dispatch and the abort conditions of `up`.
- `Kinds`: which kinds of command each branch can issue.
- `BestEffort`: which exit codes are ignored.
- `Blame`: every abort follows the failing command, with nothing issued after it.
- `RefProps`: what the git ref is.

Behaviours of the code worth knowing:

- In `docker-compose` mode, every compose command is run with `mustRun`, so the diagnostic `docker ps` and `ls -la` steps are fatal too (`RoboFile.php:456-469`).
- When both `--test` and `--test-upgrade` are given in `docker-compose` mode, `--test` wins (`RoboFile.php:432-445`). There, `--test-upgrade` only runs a different test script.
- In the `install.sh` mode, `--test-upgrade` replaces the install step and `--test` still runs afterwards (`RoboFile.php:567-651`).
- `prepareSourcecode` checks out the provision branch on every run, whether or not the clone existed (`RoboFile.php:173-178`). A second run with nothing missing therefore still issues that checkout and, in development mode, the `set-url` command. `PrepProps.SourcePrepAllPresent` states exactly what such a run issues.
- PHP's `empty()` treats `"0"` as empty (`Text.PhpEmpty`). So a checkout on a branch named `0` falls back to `GITHUB_REF`, and a user id `0` never becomes `--aegir-uid`.

## Model

| member | source | states |
|---|---|---|
| Robo.RoboFile.constructor | RoboFile.php:60-66 | the git ref is the output of `git describe` with `refs/heads/` removed and trimmed, or GITHUB_REF when that is empty |
| RefProps.GitRefOfOutput | RoboFile.php:62-65 | for the output `[refs/heads/]name\n`, the ref is the branch name, or GITHUB_REF when the name is PHP-empty and GITHUB_REF is not |
| RefProps.GitRefOfBlank | RoboFile.php:62-65 | a blank `git describe` output yields GITHUB_REF, or "" when that is empty too |
| RefProps.GitRefShape | RoboFile.php:62-65 | the ref is GITHUB_REF or a trimmed piece of the describe output with `refs/heads/` removed; it is empty only if GITHUB_REF is |
| Text.TrimPiece | RoboFile.php:62 | `trim` leaves a contiguous piece of its input with no blank at either end |
| Text.TrimTrailingBlanks | RoboFile.php:62 | `trim` of a tidy word followed by blanks (a trailing newline) is the word |
| Text.TrimLeftSuffix | RoboFile.php:62 | `ltrim` removes exactly the leading blanks |
| Text.TrimRightPrefix | RoboFile.php:62 | `rtrim` removes exactly the trailing blanks |
| Text.RemoveAllAbsent | RoboFile.php:62 | `str_replace` leaves a string without the pattern unchanged |
| Text.RemoveAllLeading | RoboFile.php:62 | `str_replace` deletes a leading occurrence and goes on after it |
| Robo.RoboFile.PrepareHost | RoboFile.php:91-118 | issues `docker info`, then `docker -v` and `docker-compose -v`; fails with HostUnavailable when `docker info` or `docker-compose -v` fails, and ignores `docker -v` |
| UpProps.UpPreflight | RoboFile.php:386 | `up` starts with the host check; a failing `docker info` stops it after one command, a failing `docker-compose -v` after three |
| Launch.AnsibleVerbosity | RoboFile.php:291-304 | -v, -vv and -vvv give 1, 2 and 3; every other verbosity gives 0 |
| Robo.RoboFile.PrepareContainers | RoboFile.php:281-320 | issues the one `docker build` with the uid, hostname, verbosity and playbook, and fails when it exits non-zero |
| UpProps.UpBuildStep | RoboFile.php:408-413 | with `--build`, the fourth command is the image build; a failing build stops `up` there; the testing playbook is used iff `--test` or `--test-upgrade` |
| UpProps.UpNoBuild | RoboFile.php:408-413 | without `--build`, `up` builds no image |
| Robo.RoboFile.PrepareSourcecode | RoboFile.php:133-275 | issues exactly the source preparation's commands (clones, checkout, make, set-url) and ends as it does; the root path becomes the RoboFile's directory |
| Robo.RoboFile.CloneSources | RoboFile.php:152-222 | issues the scaffold directory, repository and role commands for what is missing |
| Robo.RoboFile.CloneRepos | RoboFile.php:162-179 | clones each missing repository of the fixed list in order and checks out the provision branch |
| Launch.CollectRoles | RoboFile.php:201-210 | the loop over requirements.yml builds exactly the role table `SelectRoles` describes |
| Roles.SelectRolesSpec | RoboFile.php:201-210 | the role table is keyed by name, holds exactly the known role names of requirements.yml, each with the fixed repository and the version of the last entry naming it |
| Roles.UpsertNew | RoboFile.php:205-208 | assigning a new role name appends it |
| Roles.UpsertExisting | RoboFile.php:205-208 | assigning an existing role name replaces that entry in place |
| Robo.RoboFile.CloneRoles | RoboFile.php:212-222 | clones, in table order, each role whose directory is missing |
| PrepProps.RepoStepsClones | RoboFile.php:162-179 | no repository clone targets an existing path |
| PrepProps.RoleStepsClones | RoboFile.php:212-222 | no role clone targets an existing path |
| PrepProps.RoleStepsCloneMissing | RoboFile.php:212-222 | every role whose directory is missing is cloned with its repository and version |
| PrepProps.RoleStepsPresent | RoboFile.php:212-222 | when every role directory exists, no role command is issued |
| PrepProps.PrepStepsActions | RoboFile.php:152-222 | clones only into missing paths, always checks out provision, clones provision when it is missing, and clones every missing role |
| PrepProps.RepoStepsCloneMissing | RoboFile.php:162-171 | every repository whose path is missing is cloned from its URL |
| PrepProps.PrepStepsMissing | RoboFile.php:151-171 | the aegir-home scaffold is made iff it is missing, and every repository of the fixed list whose path is missing is cloned |
| Robo.RoboFile.MakeDevmaster | RoboFile.php:225-243 | runs `drush make` only when the devmaster directory is missing, and fails with its exit code |
| PrepProps.SourcePrepMake | RoboFile.php:225-243 | `drush make` runs iff the devmaster directory is missing; preparation succeeds iff it is present or make exits 0; a failure is DrushMakeFailed with make as the last command |
| PrepProps.SourcePrepAllPresent | RoboFile.php:146-254 | with everything already present, preparation issues only the provision checkout and, in development mode, the `set-url`, and succeeds |
| PrepProps.PrepNoDrushMake | RoboFile.php:152-222 | the clone phase never runs `drush make` |
| Kinds.SourcePrepKinds | RoboFile.php:133-275 | source preparation issues only shell, clone and checkout commands |
| Robo.RoboFile.Up | RoboFile.php:365-653 | issues exactly `up`'s commands in order and ends as it does; after a successful host check the root path is the RoboFile's directory, and after a failed one it is unchanged |
| Robo.RoboFile.Roll | RoboFile.php:403-473 | computes the uid, builds the image when asked, then deploys |
| Robo.RoboFile.Deploy | RoboFile.php:399-473 | defaults the devshop version to the git ref, prepares the sources when wanted (stopping if that fails), then launches the mode |
| UpProps.UpPrepFails | RoboFile.php:415-417 | a failing source preparation is `up`'s failure, and nothing is launched after it |
| UpProps.DeploymentWithin | RoboFile.php:415-473 | the deployment issues nothing beyond the kinds its mode and the preparation issue |
| UpProps.RolloutWithin | RoboFile.php:408-473 | the build adds only a build command; after a successful build, `up` ends as the deployment does |
| UpProps.UpWithin | RoboFile.php:385-473 | the pre-flight adds only shell commands; after it succeeds, `up` ends as the rollout does |
| UpProps.ModeFlowKinds | RoboFile.php:419-652 | a launch mode issues only deployment kinds of command |
| UpProps.DeploymentKinds | RoboFile.php:415-652 | the deployment issues only deployment kinds of command |
| UpProps.ModeDispatch | RoboFile.php:415-652 | compose mode runs no container commands; install.sh and manual modes run no compose processes; an unknown mode launches nothing; with preparation skipped or unneeded, nothing is cloned or checked out |
| Robo.RoboFile.LaunchMode | RoboFile.php:419-652 | dispatches on the mode: compose, install.sh or manual, otherwise nothing |
| Robo.RoboFile.LaunchCompose | RoboFile.php:419-469 | builds the compose command list and runs it fail-fast |
| Robo.RoboFile.MustRunEach | RoboFile.php:456-469 | runs each process in turn and stops at the first one that fails |
| ComposeProps.ComposeTestCommands | RoboFile.php:425-445 | starts with up, sleep, ps and ls; the test script runs iff `--test`; the upgrade script runs iff `--test-upgrade` without `--test`; install and supervisor stop run iff either is given |
| ComposeProps.ComposeInteractiveCommands | RoboFile.php:446-454 | status and login run iff neither test option is given; the log follow runs iff also `--follow`, and then it is last |
| ComposeProps.IsTtySpec | RoboFile.php:465-466 | a TTY is used iff XDG_SESSION_TYPE is `tty` |
| ComposeProps.ComposeFlowSpec | RoboFile.php:456-469 | each command is a process with the test compose file iff testing, with a TTY iff in a tty session; the run succeeds iff every process does, and otherwise stops at the first failing one |
| ComposeProps.ProcessRun | RoboFile.php:456-468 | a fail-fast run of processes issues a prefix of them and stops exactly at the first one that fails |
| Launch.ProcessesEach | RoboFile.php:456-467 | each command of the list becomes one process with the same compose file and TTY setting |
| Kinds.ComposeFlowKinds | RoboFile.php:456-469 | compose mode issues only processes |
| Process.MustRunAllSucceeds | RoboFile.php:468 | when every command succeeds, all of them run and the run succeeds |
| Process.MustRunAllFirstFailure | RoboFile.php:468 | the run stops right after the first failing command and blames it |
| Process.MustRunAllFailFast | RoboFile.php:468 | the issued commands are a prefix; success iff all succeed; a failure blames the last command issued, and all before it succeeded |
| Process.MustRunAllBlames | RoboFile.php:468 | a failed run always ends on a command that exited non-zero |
| Robo.RoboFile.LaunchScripted | RoboFile.php:473-652 | starts the container, lists and chowns the home directory, then provisions |
| Robo.RoboFile.StartContainer | RoboFile.php:475-528 | runs the container and applies the image fixup |
| ScriptedProps.InitForSpec | RoboFile.php:475-484 | the init is one of three; centos images get /usr/lib/systemd/systemd, ubuntu 16.04 and 18.04 images get /lib/systemd/systemd, and every other image gets /sbin/init |
| ScriptedProps.LaunchContainerSpec | RoboFile.php:486-517 | the container runs the chosen image with its init, the root path, the uid, GITHUB_TOKEN and a non-empty site host list (SITE_HOSTS, or the local hostname when that is empty) |
| ScriptedProps.ContainerStartSpec | RoboFile.php:493-528 | `docker run` is followed by the policy fixup iff the image needs it; start succeeds iff both succeed; a failed run is DockerRunFailed, a failed fixup InitPolicyFailed |
| ScriptedProps.ScriptedFlowSpec | RoboFile.php:556-564 | a failed start ends the branch; otherwise the home listing and the chown always follow and the branch ends as provisioning does |
| ScriptedProps.InstallGateSpec | RoboFile.php:625-637 | without the upgrade test, install.sh runs iff the mode is install.sh and the run is non-interactive or confirmed; it fails as InstallShFailed |
| ScriptedProps.UpgradeSkipsInstallSh | RoboFile.php:567-637 | with the upgrade test, install.sh is never run |
| ScriptedProps.InstallationNoTests | RoboFile.php:566-637 | the installation never runs the test suite |
| ScriptedProps.ProvisioningTests | RoboFile.php:639-651 | the test suite runs iff `--test` and the installation succeeded; then it is the last command, and a failure is TestsFailed |
| Kinds.ScriptedFlowKinds | RoboFile.php:473-652 | the scripted branch issues only docker run, docker exec and shell commands |
| Kinds.ProvisioningKinds | RoboFile.php:566-651 | provisioning issues only shell and in-container commands |
| Robo.RoboFile.Provision | RoboFile.php:566-651 | runs the upgrade test or the gated install.sh, then the tests when asked |
| Robo.RoboFile.RunUpgradeTest | RoboFile.php:567-624 | installs the roles shim, fetches the old installer, then runs the old install, the upgrade and the status check |
| Robo.RoboFile.ExtendInstallOptions | RoboFile.php:586-596 | the install options are extended exactly as the upgrade test extends them |
| Robo.RoboFile.Upgrade | RoboFile.php:598-623 | runs the old install, the upgrade and the status check, stopping at the first failure |
| UpgradeProps.UpgradeFlowSpec | RoboFile.php:567-624 | the upgrade test issues the shim, fetch, old install, upgrade and status check in order; it succeeds iff the last three succeed; each failure has its own cause and nothing runs after it |
| UpgradeProps.UpgradeOptionsShape | RoboFile.php:586-596 | the options are the user's options, then the old makefile, install path and force-roles flags, then `--aegir-uid` only for a non-empty uid |
| Launch.UpgradeBranch | RoboFile.php:609-610 | the upgrade names GITHUB_REF, or 1.x when that is empty |
| Kinds.UpgradeFlowKinds | RoboFile.php:567-624 | the upgrade test issues only shell and in-container commands |
| BestEffort.ScriptedFlowAgree | RoboFile.php:473-652 | two hosts that agree on the checked commands make the branch issue the same commands and end the same way |
| BestEffort.ProvisioningAgree | RoboFile.php:566-651 | the same for provisioning |
| BestEffort.HomeUnchecked | RoboFile.php:556-564 | the home listing and the chown are not among the checked commands |
| BestEffort.ShimUnchecked | RoboFile.php:575-578 | the galaxy shim is not among the checked commands |
| BestEffort.BestEffortIgnored | RoboFile.php:556-584 | the exit codes of the home listing, the chown, the galaxy shim and the download never change what the branch does |
| Blame.SourcePrepBlames | RoboFile.php:133-275 | a failed preparation ends on a command that exited non-zero |
| Blame.UpgradeFlowBlames | RoboFile.php:567-624 | a failed upgrade test ends on a command that exited non-zero |
| Blame.ProvisioningBlames | RoboFile.php:566-651 | a failed provisioning ends on a command that exited non-zero |
| Blame.ScriptedFlowBlames | RoboFile.php:473-652 | a failed scripted branch ends on a command that exited non-zero |
| Blame.ModeFlowBlames | RoboFile.php:419-652 | a failed launch ends on a command that exited non-zero |
| Blame.DeploymentBlames | RoboFile.php:399-652 | a failed deployment ends on a command that exited non-zero |
| Blame.UpBlamesLast | RoboFile.php:365-653 | whenever `up` fails, the last command it issued exited non-zero |

## Left out

- Process spawning, output capture, `sleep` and `putenv` are not modelled. Each command is a value; its exit code comes from the `exit` oracle, and the one-second settle (`sleep 1`) is a command like any other.
- The outputs of `git describe` and `id -u` are inputs (`Env` fields or a constructor parameter). `docker -v` is issued, but neither its output nor its exit code is used, as in the code.
- The Robo task builders are kept as opaque commands. The fixed volumes, ports, environment flags and hostname of `docker run`, and the fixed flags of `docker build`, are not represented beyond the fields that vary with the input.
- Reading and parsing requirements.yml is left out: the model takes the parsed list of entries. `file_exists` is membership in the set `Env.existing`.
- The interactive confirmation is the boolean `Env.confirmInstall`; the prompt text is not modelled.
- `say`, `yell` and the exception messages are not modelled. A failure carries its cause (`Failure`) instead of a message.
- The upgrade test throws `RunException`, a class the file never imports (`RoboFile.php:602`). Either way the run aborts, so the model treats it as an ordinary abort with `OldInstallFailed`.
- The commented-out D-Bus block for ubuntu images (`RoboFile.php:529-554`) has no effect and is not modelled.
- The other Robo commands of the file (`stop`, `destroy`, `logs`, `watchdog`, `restart`, `shell`, `test`, `login`, `release`, `moleculeTest` and `moleculeConverge`) and the commented-out `launch` are not part of this model.
- `Robo.RoboFile.Up` and the other methods: their contracts use `old(...)` and tie the log to the specification functions. The properties listed above are proved about those functions, not repeated on each method.
