/** Properties of the upgrade test of `up --test-upgrade`: the old release
    is installed with extended options, upgraded in place and checked, and
    each of these three steps aborts the run when it fails. */
module UpgradeProps {
  import opened Text
  import opened Process
  import opened Launch

  /** The commands the upgrade test may issue, in order. */
  function UpgradeCommands(options: string, noDev: bool, uid: string, githubRef: string, root: string): seq<Command> {
    [GalaxyShim, FetchOldInstaller(root), OldInstall(UpgradeInstallOptions(options, noDev, uid)),
     DockerExec(Container, UpgradeCommand(githubRef)), StatusCheck]
  }

  /** The upgrade test issues the galaxy shim and the download, then the
      old install, the upgrade and the status check, stopping after the
      first of the last three that fails; it finishes exactly when all
      three succeed, and each failure names its step. */
  lemma UpgradeFlowSpec(options: string, noDev: bool, uid: string, githubRef: string, root: string,
                        exit: Command -> int)
    ensures var out := UpgradeFlow(options, noDev, uid, githubRef, root, exit);
      var install := OldInstall(UpgradeInstallOptions(options, noDev, uid));
      var upgrade := DockerExec(Container, UpgradeCommand(githubRef));
      var all := UpgradeCommands(options, noDev, uid, githubRef, root);
      && 3 <= |out.steps| <= 5 && out.steps == all[..|out.steps|]
      && (out.status == Ok <==> exit(install) == 0 && exit(upgrade) == 0 && exit(StatusCheck) == 0)
      && (out.status == Ok ==> out.steps == all)
      && (exit(install) != 0 ==> out.status == Failed(OldInstallFailed(UpgradeFromVersion)) && |out.steps| == 3)
      && (exit(install) == 0 && exit(upgrade) != 0 ==>
            out.status == Failed(UpgradeFailed(UpgradeCommand(githubRef))) && |out.steps| == 4)
      && (exit(install) == 0 && exit(upgrade) == 0 && exit(StatusCheck) != 0 ==>
            out.status == Failed(StatusFailed) && |out.steps| == 5)
  {
    var install := OldInstall(UpgradeInstallOptions(options, noDev, uid));
    var upgrade := DockerExec(Container, UpgradeCommand(githubRef));
    var all := UpgradeCommands(options, noDev, uid, githubRef, root);
    var out := UpgradeFlow(options, noDev, uid, githubRef, root, exit);
    if exit(install) != 0 {
      assert out.steps == all[..3];
    } else if exit(upgrade) != 0 {
      assert out.steps == all[..4];
    } else {
      assert out.steps == all[..5];
    }
  }

  /** The install.sh options of the old release: the user's options first,
      unchanged; then the makefile of the old release (the release or the
      development one, as for a fresh install), its own install path and
      the forced role install; then the uid flag exactly when a uid is
      given. */
  lemma UpgradeOptionsShape(base: string, noDev: bool, uid: string)
    ensures var s := UpgradeInstallOptions(base, noDev, uid);
      var fixed := MakefileOption(noDev) + InstallPathFlag + ForceRolesFlag;
      && |s| >= |base| + |fixed|
      && s[..|base|] == base
      && s[|base|..|base| + |fixed|] == fixed
      && s[|base| + |fixed|..] == (if PhpEmpty(uid) then "" else " --aegir-uid=" + uid)
  {
    Pieces(base, MakefileOption(noDev), InstallPathFlag, ForceRolesFlag, UidOption(uid));
  }

  /** Cutting `base + x + y + z + t` back into its parts. */
  lemma Pieces(base: string, x: string, y: string, z: string, t: string)
    ensures var s := base + x + y + z + t;
      && |s| == |base| + |x + y + z| + |t|
      && s[..|base|] == base
      && s[|base|..|base| + |x + y + z|] == x + y + z
      && s[|base| + |x + y + z|..] == t
  {
    var s := base + x + y + z + t;
    assert s == base + (x + y + z) + t;
  }
}
