/** Properties of the git ref the launcher derives when it is constructed:
    the branch or tag name git prints, without "refs/heads/" and without the
    trailing newline, or GITHUB_REF when git prints nothing usable. */
module RefProps {
  import opened Text
  import opened Launch

  /** Output of `git symbolic-ref` ("refs/heads/" + branch + newline) or of
      `git describe` (tag + newline) yields the branch or the tag, as long
      as the name itself holds no "refs/heads/" and has no blank at either
      end; a name PHP calls empty ("0") gives way to GITHUB_REF when that is
      set. */
  lemma GitRefOfOutput(name: string, heads: bool, githubRef: string)
    requires Tidy(name) && !Occurs(name, HeadsPrefix)
    ensures var describe := (if heads then HeadsPrefix else "") + name + "\n";
      GitRef(describe, githubRef) == (if PhpEmpty(name) && !PhpEmpty(githubRef) then githubRef else name)
  {
    var line := name + "\n";
    OccursAppend(name, '\n', HeadsPrefix);
    RemoveAllAbsent(line, HeadsPrefix);
    var describe := (if heads then HeadsPrefix else "") + name + "\n";
    if heads {
      RemoveAllLeading(HeadsPrefix, line);
      assert describe == HeadsPrefix + line;
    } else {
      assert describe == line;
    }
    assert RemoveAll(describe, HeadsPrefix) == line;
    TrimTrailingBlanks(name, "\n");
  }

  /** When git prints nothing but blanks (or nothing at all: outside a
      checkout, or detached without a tag), the ref is GITHUB_REF, or ""
      when that is unset too. */
  lemma GitRefOfBlank(describe: string, githubRef: string)
    requires forall i :: 0 <= i < |describe| ==> IsBlank(describe[i])
    ensures GitRef(describe, githubRef) == (if PhpEmpty(githubRef) then "" else githubRef)
  {
    assert !Occurs(describe, HeadsPrefix) by {
      forall i | 0 <= i < |describe|
        ensures !OccursAt(describe, HeadsPrefix, i)
      {
        assert IsBlank(describe[i]) && !IsBlank(HeadsPrefix[0]);
        if i + |HeadsPrefix| <= |describe| {
          assert describe[i..i + |HeadsPrefix|][0] == describe[i];
        }
      }
    }
    RemoveAllAbsent(describe, HeadsPrefix);
    TrimLeftAllBlank(describe);
  }

  /** Whatever git prints, the ref is GITHUB_REF or a piece of the output
      (after "refs/heads/" is deleted) with no blank at either end; it is
      empty, in PHP's sense, only when GITHUB_REF is too. */
  lemma GitRefShape(describe: string, githubRef: string)
    ensures var r := GitRef(describe, githubRef);
      && (r == githubRef || (Tidy(r) && Occurs(RemoveAll(describe, HeadsPrefix), r)))
      && (PhpEmpty(r) ==> PhpEmpty(githubRef))
  {
    TrimPiece(RemoveAll(describe, HeadsPrefix));
  }
}
