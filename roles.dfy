/** What the role table in `prepareSourcecode` ends up holding: one entry
    per known role named in requirements.yml, keyed by name like the PHP
    array it is, with the repository from the launcher's table and the
    version from the last entry of requirements.yml that names it. */
module Roles {
  import opened Text
  import opened Launch

  /** The names of the entries of a role table. */
  ghost function NameSet(roles: seq<Role>): set<string> {
    set i | 0 <= i < |roles| :: roles[i].name
  }

  /** No two entries share a name: the table is keyed by name. */
  ghost predicate Unique(roles: seq<Role>) {
    forall i, j :: 0 <= i < j < |roles| ==> roles[i].name != roles[j].name
  }

  /** `r` names a role that appears nowhere in `roles`. */
  ghost predicate Absent(roles: seq<Role>, name: string) {
    forall i :: 0 <= i < |roles| ==> roles[i].name != name
  }

  /** Assigning a new key appends the entry at the end. */
  lemma {:induction false} UpsertNew(roles: seq<Role>, r: Role)
    requires Absent(roles, r.name)
    ensures Upsert(roles, r) == roles + [r]
  {
    if roles != [] {
      UpsertNew(roles[1..], r);
      assert roles == [roles[0]] + roles[1..];
    }
  }

  /** Assigning a key already present replaces its entry where it stands. */
  lemma {:induction false} UpsertExisting(roles: seq<Role>, r: Role, k: nat)
    requires k < |roles| && roles[k].name == r.name && Absent(roles[..k], r.name)
    ensures Upsert(roles, r) == roles[k := r]
  {
    if k > 0 {
      assert roles[..k][0] == roles[0];
      assert roles[1..][..k - 1] == roles[..k][1..];
      UpsertExisting(roles[1..], r, k - 1);
      assert roles[k := r] == [roles[0]] + roles[1..][k - 1 := r];
    }
  }

  /** The entry a requirement contributes: known roles only, repository from
      the table, version from the requirement. */
  ghost predicate FromLast(reqs: seq<Requirement>, r: Role) {
    && r.name in RoleRepos
    && r.repo == RoleRepos[r.name]
    && exists j :: 0 <= j < |reqs| && reqs[j].name == r.name && reqs[j].version == r.version
                   && forall k :: j < k < |reqs| ==> reqs[k].name != r.name
  }

  /** The names of the requirements that the role table knows. */
  ghost function KnownNames(reqs: seq<Requirement>): set<string> {
    set j | 0 <= j < |reqs| && reqs[j].name in RoleRepos :: reqs[j].name
  }

  /** The roles selected from requirements.yml: keyed by name, exactly the
      known names, each with the table's repository and the version of the
      last requirement naming it. */
  lemma {:induction false} SelectRolesSpec(reqs: seq<Requirement>)
    ensures var roles := SelectRoles(reqs);
      && Unique(roles)
      && NameSet(roles) == KnownNames(reqs)
      && forall i :: 0 <= i < |roles| ==> FromLast(reqs, roles[i])
  {
    if reqs != [] {
      var init := reqs[..|reqs| - 1];
      var q := reqs[|reqs| - 1];
      var prev := SelectRoles(init);
      SelectRolesSpec(init);
      assert KnownNames(reqs) == KnownNames(init) + (if q.name in RoleRepos then {q.name} else {}) by {
        forall n | n in KnownNames(reqs) ensures n in KnownNames(init) || (q.name in RoleRepos && n == q.name) {
          var j :| 0 <= j < |reqs| && reqs[j].name in RoleRepos && reqs[j].name == n;
          if j < |init| {
            assert init[j] == reqs[j];
          }
        }
        forall n | n in KnownNames(init) ensures n in KnownNames(reqs) {
          var j :| 0 <= j < |init| && init[j].name in RoleRepos && init[j].name == n;
          assert reqs[j] == init[j];
        }
        if q.name in RoleRepos {
          assert reqs[|reqs| - 1].name == q.name;
        }
      }
      if q.name in RoleRepos {
        var r := Role(q.name, RoleRepos[q.name], q.version);
        if Absent(prev, q.name) {
          UpsertNew(prev, r);
          UpsertNewKeeps(reqs, prev, r);
        } else {
          var k := FirstWith(prev, q.name);
          UpsertExisting(prev, r, k);
          UpsertExistingKeeps(reqs, prev, r, k);
        }
      } else {
        forall i | 0 <= i < |prev| ensures FromLast(reqs, prev[i]) {
          StillLast(reqs, prev[i]);
        }
      }
    }
  }

  /** The first index holding `name`, when there is one. */
  lemma FirstWith(roles: seq<Role>, name: string) returns (k: nat)
    requires !Absent(roles, name)
    ensures k < |roles| && roles[k].name == name && Absent(roles[..k], name)
  {
    k := 0;
    while roles[k].name != name
      invariant k < |roles| && Absent(roles[..k], name)
      invariant exists i :: k <= i < |roles| && roles[i].name == name
      decreases |roles| - k
    {
      assert roles[..k + 1] == roles[..k] + [roles[k]];
      k := k + 1;
    }
  }

  /** An entry of the table built from all but the last requirement still
      comes from the last requirement naming it, when the new requirement
      names another role. */
  lemma StillLast(reqs: seq<Requirement>, r: Role)
    requires reqs != [] && reqs[|reqs| - 1].name != r.name
    requires FromLast(reqs[..|reqs| - 1], r)
    ensures FromLast(reqs, r)
  {
    var init := reqs[..|reqs| - 1];
    var j :| 0 <= j < |init| && init[j].name == r.name && init[j].version == r.version
             && forall k :: j < k < |init| ==> init[k].name != r.name;
    assert reqs[j] == init[j];
    forall k | j < k < |reqs| ensures reqs[k].name != r.name {
      if k < |init| {
        assert reqs[k] == init[k];
      }
    }
  }

  /** The entry the last requirement contributes comes from it. */
  lemma NewIsLast(reqs: seq<Requirement>, r: Role)
    requires reqs != [] && reqs[|reqs| - 1].name == r.name && reqs[|reqs| - 1].version == r.version
    requires r.name in RoleRepos && r.repo == RoleRepos[r.name]
    ensures FromLast(reqs, r)
  {
    assert reqs[|reqs| - 1].name == r.name;
  }

  lemma UpsertNewKeeps(reqs: seq<Requirement>, prev: seq<Role>, r: Role)
    requires reqs != [] && reqs[|reqs| - 1].name == r.name && reqs[|reqs| - 1].version == r.version
    requires r.name in RoleRepos && r.repo == RoleRepos[r.name]
    requires Unique(prev) && Absent(prev, r.name)
    requires forall i :: 0 <= i < |prev| ==> FromLast(reqs[..|reqs| - 1], prev[i])
    requires NameSet(prev) + {r.name} == KnownNames(reqs)
    ensures var roles := prev + [r];
      && Unique(roles)
      && NameSet(roles) == KnownNames(reqs)
      && forall i :: 0 <= i < |roles| ==> FromLast(reqs, roles[i])
  {
    var roles := prev + [r];
    forall i | 0 <= i < |roles| ensures FromLast(reqs, roles[i]) {
      if i < |prev| {
        StillLast(reqs, prev[i]);
      } else {
        NewIsLast(reqs, r);
      }
    }
    assert NameSet(roles) == NameSet(prev) + {r.name} by {
      forall n | n in NameSet(roles) ensures n in NameSet(prev) + {r.name} {
        var i :| 0 <= i < |roles| && roles[i].name == n;
        if i < |prev| {
          assert prev[i] == roles[i];
        }
      }
      forall n | n in NameSet(prev) ensures n in NameSet(roles) {
        var i :| 0 <= i < |prev| && prev[i].name == n;
        assert roles[i] == prev[i];
      }
      assert roles[|prev|] == r;
    }
  }

  lemma UpsertExistingKeeps(reqs: seq<Requirement>, prev: seq<Role>, r: Role, k: nat)
    requires reqs != [] && reqs[|reqs| - 1].name == r.name && reqs[|reqs| - 1].version == r.version
    requires r.name in RoleRepos && r.repo == RoleRepos[r.name]
    requires Unique(prev) && k < |prev| && prev[k].name == r.name
    requires forall i :: 0 <= i < |prev| ==> FromLast(reqs[..|reqs| - 1], prev[i])
    requires NameSet(prev) + {r.name} == KnownNames(reqs)
    ensures var roles := prev[k := r];
      && Unique(roles)
      && NameSet(roles) == KnownNames(reqs)
      && forall i :: 0 <= i < |roles| ==> FromLast(reqs, roles[i])
  {
    var roles := prev[k := r];
    forall i | 0 <= i < |roles| ensures FromLast(reqs, roles[i]) {
      if i != k {
        StillLast(reqs, prev[i]);
      } else {
        NewIsLast(reqs, r);
      }
    }
    assert NameSet(roles) == NameSet(prev) by {
      forall n | n in NameSet(roles) ensures n in NameSet(prev) {
        var i :| 0 <= i < |roles| && roles[i].name == n;
        assert prev[i].name == n;
      }
      forall n | n in NameSet(prev) ensures n in NameSet(roles) {
        var i :| 0 <= i < |prev| && prev[i].name == n;
        assert roles[i].name == n;
      }
    }
  }
}
