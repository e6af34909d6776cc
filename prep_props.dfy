/** Properties of `prepareSourcecode`: what already exists is left alone,
    what is missing is created, provision is always checked out, and only
    `drush make` can abort the preparation. */
module PrepProps {
  import opened Text
  import opened Process
  import opened Launch
  import opened Roles

  /** Every clone in `steps` goes to a path that did not exist. */
  ghost predicate ClonesOnlyAbsent(steps: seq<Command>, existing: set<string>) {
    forall i :: 0 <= i < |steps| && steps[i].GitClone? ==> steps[i].dest !in existing
  }

  lemma ClonesOnlyAbsentAppend(a: seq<Command>, b: seq<Command>, existing: set<string>)
    requires ClonesOnlyAbsent(a, existing) && ClonesOnlyAbsent(b, existing)
    ensures ClonesOnlyAbsent(a + b, existing)
  {
    forall i | 0 <= i < |a + b| && (a + b)[i].GitClone?
      ensures (a + b)[i].dest !in existing
    {
      if i >= |a| {
        assert (a + b)[i] == b[i - |a|];
      }
    }
  }

  /** The repository loop over the launcher's four repositories, written out. */
  lemma ReposUnrolled(root: string, existing: set<string>)
    ensures RepoSteps(root, Repos, existing)
      == RepoStep(root, Repos[0], existing) + RepoStep(root, Repos[1], existing)
       + RepoStep(root, Repos[2], existing) + RepoStep(root, Repos[3], existing)
  {
    var s0 := RepoStep(root, Repos[0], existing);
    var s1 := RepoStep(root, Repos[1], existing);
    var s2 := RepoStep(root, Repos[2], existing);
    assert Repos[..1][..0] == [];
    assert RepoSteps(root, Repos[..1], existing) == s0;
    assert Repos[..2][..1] == Repos[..1];
    assert RepoSteps(root, Repos[..2], existing) == s0 + s1;
    assert Repos[..3][..2] == Repos[..2];
    assert RepoSteps(root, Repos[..3], existing) == s0 + s1 + s2;
    assert Repos[..3] == Repos[..|Repos| - 1];
  }

  lemma {:induction false} RepoStepsClones(root: string, repos: seq<(string, string)>, existing: set<string>)
    ensures ClonesOnlyAbsent(RepoSteps(root, repos, existing), existing)
  {
    if repos != [] {
      RepoStepsClones(root, repos[..|repos| - 1], existing);
      ClonesOnlyAbsentAppend(RepoSteps(root, repos[..|repos| - 1], existing),
                             RepoStep(root, repos[|repos| - 1], existing), existing);
    }
  }

  lemma {:induction false} RoleStepsClones(root: string, roles: seq<Role>, existing: set<string>)
    ensures ClonesOnlyAbsent(RoleSteps(root, roles, existing), existing)
  {
    if roles != [] {
      var r := roles[|roles| - 1];
      RoleStepsClones(root, roles[..|roles| - 1], existing);
      ClonesOnlyAbsentAppend(RoleSteps(root, roles[..|roles| - 1], existing),
                             if RolePath(root, r.name) in existing then [] else [GitClone(r.repo, RolePath(root, r.name), r.version)],
                             existing);
    }
  }

  /** Each role whose path is absent is cloned from its repository at its
      version. */
  lemma {:induction false} RoleStepsCloneMissing(root: string, roles: seq<Role>, existing: set<string>)
    ensures forall i :: 0 <= i < |roles| && RolePath(root, roles[i].name) !in existing ==>
      GitClone(roles[i].repo, RolePath(root, roles[i].name), roles[i].version) in RoleSteps(root, roles, existing)
  {
    if roles != [] {
      var init := roles[..|roles| - 1];
      RoleStepsCloneMissing(root, init, existing);
      forall i | 0 <= i < |roles| - 1
        ensures roles[i] == init[i]
      {
      }
    }
  }

  /** Each repository whose path is absent is cloned from its URL. */
  lemma {:induction false} RepoStepsCloneMissing(root: string, repos: seq<(string, string)>, existing: set<string>)
    ensures forall i :: 0 <= i < |repos| && RepoPath(root, repos[i].0) !in existing ==>
      GitClone(repos[i].1, RepoPath(root, repos[i].0), None) in RepoSteps(root, repos, existing)
  {
    if repos != [] {
      var init := repos[..|repos| - 1];
      RepoStepsCloneMissing(root, init, existing);
      forall i | 0 <= i < |repos| - 1
        ensures repos[i] == init[i]
      {
      }
    }
  }

  /** A role whose path exists is not cloned again. */
  lemma {:induction false} RoleStepsPresent(root: string, roles: seq<Role>, existing: set<string>)
    requires forall i :: 0 <= i < |roles| ==> RolePath(root, roles[i].name) in existing
    ensures RoleSteps(root, roles, existing) == []
  {
    if roles != [] {
      RoleStepsPresent(root, roles[..|roles| - 1], existing);
    }
  }

  /** Source preparation never clones over an existing path; it checks
      provision out on every run, whether or not it was cloned; and it
      clones every known role of requirements.yml whose path is missing. */
  lemma PrepStepsActions(root: string, env: Env)
    ensures ClonesOnlyAbsent(PrepSteps(root, env), env.existing)
    ensures GitCheckout(RepoPath(root, "provision"), ProvisionBranch) in PrepSteps(root, env)
    ensures RepoPath(root, "provision") !in env.existing ==>
      GitClone("http://git.drupal.org/project/provision.git", RepoPath(root, "provision"), None) in PrepSteps(root, env)
    ensures forall r :: r in SelectRoles(env.requirements) && RolePath(root, r.name) !in env.existing ==>
      GitClone(r.repo, RolePath(root, r.name), r.version) in PrepSteps(root, env)
  {
    var scaffold := if CommandsDir(root) in env.existing then [] else [MakeDir(CommandsDir(root))];
    var repos := RepoSteps(root, Repos, env.existing);
    var roles := RoleSteps(root, SelectRoles(env.requirements), env.existing);
    RepoStepsClones(root, Repos, env.existing);
    RoleStepsClones(root, SelectRoles(env.requirements), env.existing);
    ClonesOnlyAbsentAppend(scaffold, repos, env.existing);
    ClonesOnlyAbsentAppend(scaffold + repos, roles, env.existing);
    ReposUnrolled(root, env.existing);
    var first := RepoStep(root, Repos[0], env.existing);
    assert first[|first| - 1] == GitCheckout(RepoPath(root, "provision"), ProvisionBranch);
    assert PrepSteps(root, env)[|scaffold| + |first| - 1] == first[|first| - 1];
    if RepoPath(root, "provision") !in env.existing {
      assert PrepSteps(root, env)[|scaffold|] == first[0];
    }
    RoleStepsCloneMissing(root, SelectRoles(env.requirements), env.existing);
    forall r | r in SelectRoles(env.requirements) && RolePath(root, r.name) !in env.existing
      ensures GitClone(r.repo, RolePath(root, r.name), r.version) in PrepSteps(root, env)
    {
      var c := GitClone(r.repo, RolePath(root, r.name), r.version);
      var k :| 0 <= k < |roles| && roles[k] == c;
      assert PrepSteps(root, env)[|scaffold + repos| + k] == c;
    }
  }

  /** The converse of `PrepStepsActions` for what is created when missing:
      the aegir-home scaffold is made iff it is absent, and every repository
      of the fixed list whose path is absent is cloned from its URL. */
  lemma PrepStepsMissing(root: string, env: Env)
    ensures MakeDir(CommandsDir(root)) in PrepSteps(root, env) <==> CommandsDir(root) !in env.existing
    ensures forall i :: 0 <= i < |Repos| && RepoPath(root, Repos[i].0) !in env.existing ==>
      GitClone(Repos[i].1, RepoPath(root, Repos[i].0), None) in PrepSteps(root, env)
  {
    var scaffold := if CommandsDir(root) in env.existing then [] else [MakeDir(CommandsDir(root))];
    var repos := RepoSteps(root, Repos, env.existing);
    var roles := RoleSteps(root, SelectRoles(env.requirements), env.existing);
    if CommandsDir(root) in env.existing {
      RepoStepsGit(root, Repos, env.existing);
      RoleStepsGit(root, SelectRoles(env.requirements), env.existing);
      forall i | 0 <= i < |PrepSteps(root, env)|
        ensures PrepSteps(root, env)[i] != MakeDir(CommandsDir(root))
      {
        if i < |repos| {
          assert PrepSteps(root, env)[i] == repos[i];
        } else {
          assert PrepSteps(root, env)[i] == roles[i - |repos|];
        }
      }
    } else {
      assert PrepSteps(root, env)[0] == MakeDir(CommandsDir(root));
    }
    RepoStepsCloneMissing(root, Repos, env.existing);
    forall i | 0 <= i < |Repos| && RepoPath(root, Repos[i].0) !in env.existing
      ensures GitClone(Repos[i].1, RepoPath(root, Repos[i].0), None) in PrepSteps(root, env)
    {
      var c := GitClone(Repos[i].1, RepoPath(root, Repos[i].0), None);
      var k :| 0 <= k < |repos| && repos[k] == c;
      assert PrepSteps(root, env)[|scaffold| + k] == c;
    }
  }

  /** When the scaffold, every repository, every selected role and the
      devmaster directory already exist, preparation only checks provision
      out and, in development mode, resets the origin remote. */
  lemma SourcePrepAllPresent(root: string, gitRef: string, noDev: bool, version: Option<string>,
                             env: Env, exit: Command -> int)
    requires CommandsDir(root) in env.existing
    requires forall i :: 0 <= i < |Repos| ==> RepoPath(root, Repos[i].0) in env.existing
    requires forall r :: r in SelectRoles(env.requirements) ==> RolePath(root, r.name) in env.existing
    requires MakeDestination(root, DevshopVersion(version, gitRef)) in env.existing
    ensures SourcePrep(root, gitRef, noDev, version, env, exit)
      == Outcome([GitCheckout(RepoPath(root, "provision"), ProvisionBranch)] + (if noDev then [] else [SetOrigin]), Ok)
  {
    ReposUnrolled(root, env.existing);
    var roles := SelectRoles(env.requirements);
    assert forall i :: 0 <= i < |roles| ==> roles[i] in roles;
    RoleStepsPresent(root, roles, env.existing);
    assert PrepSteps(root, env) == [GitCheckout(RepoPath(root, "provision"), ProvisionBranch)];
  }

  /** `drush make` is issued exactly when the devmaster directory is missing,
      and it is the only thing that can make preparation fail; a failure
      carries the exit code of the build. */
  lemma SourcePrepMake(root: string, gitRef: string, noDev: bool, version: Option<string>,
                       env: Env, exit: Command -> int)
    ensures var v := DevshopVersion(version, gitRef);
      var make := DrushMake(root, v, noDev);
      var out := SourcePrep(root, gitRef, noDev, version, env, exit);
      && (make in out.steps <==> MakeDestination(root, v) !in env.existing)
      && (out.status == Ok <==> MakeDestination(root, v) in env.existing || exit(make) == 0)
      && (out.status.Failed? ==> out.status.failure == DrushMakeFailed(exit(make)) && out.steps[|out.steps| - 1] == make)
  {
    var v := DevshopVersion(version, gitRef);
    var make := DrushMake(root, v, noDev);
    var out := SourcePrep(root, gitRef, noDev, version, env, exit);
    var prep := PrepSteps(root, env);
    PrepNoDrushMake(root, env, v, noDev);
    if MakeDestination(root, v) !in env.existing {
      assert out.steps[|prep|] == make;
    } else {
      assert make != SetOrigin by { assert make.line[0] != SetOrigin.line[0]; }
      assert out.steps == prep + (if noDev then [] else [SetOrigin]);
    }
  }

  /** None of the commands before the build is the build. */
  lemma PrepNoDrushMake(root: string, env: Env, v: string, noDev: bool)
    ensures DrushMake(root, v, noDev) !in PrepSteps(root, env)
  {
    var make := DrushMake(root, v, noDev);
    var prep := PrepSteps(root, env);
    assert make.line[0] == 'b';
    ReposUnrolled(root, env.existing);
    forall i | 0 <= i < |prep| ensures prep[i] != make {
      PrepStepKinds(root, env, i);
    }
  }

  /** Before the build, preparation only makes the scaffold, clones and
      checks out. */
  lemma PrepStepKinds(root: string, env: Env, i: nat)
    requires i < |PrepSteps(root, env)|
    ensures var c := PrepSteps(root, env)[i];
      c.GitClone? || c.GitCheckout? || c == MakeDir(CommandsDir(root))
  {
    var scaffold := if CommandsDir(root) in env.existing then [] else [MakeDir(CommandsDir(root))];
    var repos := RepoSteps(root, Repos, env.existing);
    var roles := RoleSteps(root, SelectRoles(env.requirements), env.existing);
    RepoStepsGit(root, Repos, env.existing);
    RoleStepsGit(root, SelectRoles(env.requirements), env.existing);
    if i >= |scaffold| + |repos| {
      assert PrepSteps(root, env)[i] == roles[i - |scaffold| - |repos|];
    } else if i >= |scaffold| {
      assert PrepSteps(root, env)[i] == repos[i - |scaffold|];
    }
  }

  lemma {:induction false} RepoStepsGit(root: string, repos: seq<(string, string)>, existing: set<string>)
    ensures forall i :: 0 <= i < |RepoSteps(root, repos, existing)| ==>
      RepoSteps(root, repos, existing)[i].GitClone? || RepoSteps(root, repos, existing)[i].GitCheckout?
  {
    if repos != [] {
      RepoStepsGit(root, repos[..|repos| - 1], existing);
    }
  }

  lemma {:induction false} RoleStepsGit(root: string, roles: seq<Role>, existing: set<string>)
    ensures forall i :: 0 <= i < |RoleSteps(root, roles, existing)| ==> RoleSteps(root, roles, existing)[i].GitClone?
  {
    if roles != [] {
      RoleStepsGit(root, roles[..|roles| - 1], existing);
    }
  }
}
