/** The commands run in the container are told apart by a character near
    the start of their command line (or by its length): these facts let
    the properties of `up` say that one command is not another. */
module Distinct {
  import opened Text
  import opened Process
  import opened Launch

  lemma InstallShShape(options: string)
    ensures InstallSh(options).line[0] == '/' && InstallSh(options).line[19] == 'i'
  {
    var a := "/usr/share/devshop/install.sh ";
    assert (a + options)[0] == a[0] && (a + options)[19] == a[19];
  }

  lemma OldInstallShape(options: string)
    ensures OldInstall(options).line[0] == 'b' && OldInstall(options).line[19] == 's'
  {
  }

  lemma UpgradeShape(githubRef: string)
    ensures var c := DockerExec(Container, UpgradeCommand(githubRef));
      c.line[0] == '/' && c.line[19] == 'b'
  {
    var b := "/usr/share/devshop/bin/devshop upgrade -n ";
    assert (b + UpgradeBranch(githubRef))[0] == b[0] && (b + UpgradeBranch(githubRef))[19] == b[19];
  }

  lemma ChownShape(uid: string)
    ensures ChownHome(uid).line[0] == 'c'
  {
    var a := "chown ";
    assert (a + uid + " /var/aegir -R")[0] == a[0];
  }

  lemma FixedShapes()
    ensures ListHome.line[0] == 'l' && RunTests.line[0] == 's' && PolicyFixup.line[0] == 's'
    ensures StatusCheck.line[0] == '/' && StatusCheck.line[19] == 'b' && GalaxyShim.line[19] == 'a'
    ensures |GalaxyShim.line| == 57 && |RunTests.line| == 58 && |PolicyFixup.line| == 39 && |StatusCheck.line| == 37
  {
  }
}
