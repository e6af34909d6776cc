/** The few PHP string built-ins the launcher's decisions depend on:
    `empty()` on strings, `trim()` and `str_replace(..., '', ...)`. */
module Text {

  datatype Option<+T> = None | Some(value: T)

  /** PHP's `empty()` applied to a string: true for "" and for "0". */
  predicate PhpEmpty(s: string) {
    s == "" || s == "0"
  }

  /** The characters PHP's `trim()` strips by default. */
  predicate IsBlank(c: char) {
    c == ' ' || c == '\t' || c == '\n' || c == '\r' || c == '\0' || c == '\U{000B}'
  }

  /** `s` has no blank character at either end. */
  predicate Tidy(s: string) {
    s == [] || (!IsBlank(s[0]) && !IsBlank(s[|s| - 1]))
  }

  /** `ltrim`: drops leading blanks. */
  function TrimLeft(s: string): string {
    if s != [] && IsBlank(s[0]) then TrimLeft(s[1..]) else s
  }

  /** What `ltrim` leaves is the suffix of `s` after its leading blanks. */
  lemma {:induction false} TrimLeftSuffix(s: string)
    ensures var r := TrimLeft(s);
      && |r| <= |s| && r == s[|s| - |r|..]
      && (forall i :: 0 <= i < |s| - |r| ==> IsBlank(s[i]))
      && (r == [] || !IsBlank(r[0]))
  {
    if s != [] && IsBlank(s[0]) {
      var t := s[1..];
      TrimLeftSuffix(t);
      assert t[|t| - |TrimLeft(t)|..] == s[|s| - |TrimLeft(t)|..];
      assert forall i :: 1 <= i < |s| ==> s[i] == t[i - 1];
    }
  }

  /** `rtrim`: drops trailing blanks. */
  function TrimRight(s: string): string {
    if s != [] && IsBlank(s[|s| - 1]) then TrimRight(s[..|s| - 1]) else s
  }

  /** What `rtrim` leaves is the prefix of `s` before its trailing blanks. */
  lemma {:induction false} TrimRightPrefix(s: string)
    ensures var r := TrimRight(s);
      && |r| <= |s| && r == s[..|r|]
      && (forall i :: |r| <= i < |s| ==> IsBlank(s[i]))
      && (r == [] || !IsBlank(r[|r| - 1]))
  {
    if s != [] && IsBlank(s[|s| - 1]) {
      TrimRightPrefix(s[..|s| - 1]);
    }
  }

  /** `pat` sits in `s` starting at index `i`. */
  predicate OccursAt(s: string, pat: string, i: int) {
    0 <= i && i + |pat| <= |s| && s[i..i + |pat|] == pat
  }

  /** `pat` occurs somewhere inside `s`. */
  ghost predicate Occurs(s: string, pat: string) {
    exists i :: OccursAt(s, pat, i)
  }

  /** `trim`: blanks removed from both ends. */
  function Trim(s: string): string {
    TrimRight(TrimLeft(s))
  }

  /** What `trim` leaves is a contiguous piece of `s` with no blank at
      either end. */
  lemma TrimPiece(s: string)
    ensures Tidy(Trim(s))
    ensures Occurs(s, Trim(s))
  {
    var l := TrimLeft(s);
    TrimLeftSuffix(s);
    TrimRightPrefix(l);
    assert OccursAt(s, Trim(s), |s| - |l|);
  }

  /** Trimming a tidy string followed by blanks (a command's trailing
      newline, say) gives back the tidy string. */
  lemma {:induction false} TrimTrailingBlanks(b: string, w: string)
    requires Tidy(b)
    requires forall i :: 0 <= i < |w| ==> IsBlank(w[i])
    ensures Trim(b + w) == b
  {
    if b == [] {
      TrimLeftAllBlank(w);
      assert b + w == w;
    } else {
      assert TrimLeft(b + w) == b + w;
      TrimRightBlanks(b, w);
    }
  }

  lemma {:induction false} TrimLeftAllBlank(w: string)
    requires forall i :: 0 <= i < |w| ==> IsBlank(w[i])
    ensures TrimLeft(w) == []
  {
    if w != [] {
      TrimLeftAllBlank(w[1..]);
    }
  }

  lemma {:induction false} TrimRightBlanks(b: string, w: string)
    requires b != [] && !IsBlank(b[|b| - 1])
    requires forall i :: 0 <= i < |w| ==> IsBlank(w[i])
    ensures TrimRight(b + w) == b
  {
    if w == [] {
      assert b + w == b;
    } else {
      var w' := w[..|w| - 1];
      assert (b + w)[..|b + w| - 1] == b + w';
      TrimRightBlanks(b, w');
    }
  }

  /** `str_replace(pat, '', s)`: a left-to-right scan that deletes every
      non-overlapping occurrence of `pat`. */
  function RemoveAll(s: string, pat: string): (r: string)
    requires pat != []
    ensures |r| <= |s|
    decreases |s|
  {
    if |s| < |pat| then s
    else if s[..|pat|] == pat then RemoveAll(s[|pat|..], pat)
    else [s[0]] + RemoveAll(s[1..], pat)
  }

  /** A string in which `pat` does not occur is left as it is. */
  lemma {:induction false} RemoveAllAbsent(s: string, pat: string)
    requires pat != [] && !Occurs(s, pat)
    ensures RemoveAll(s, pat) == s
    decreases |s|
  {
    if |s| >= |pat| {
      assert !OccursAt(s, pat, 0);
      assert s[..|pat|] != pat;
      OccursShift(s, pat);
      RemoveAllAbsent(s[1..], pat);
      assert s == [s[0]] + s[1..];
    }
  }

  /** An occurrence in the tail of `s` is an occurrence in `s`, one further on. */
  lemma OccursShift(s: string, pat: string)
    requires s != []
    ensures forall i :: OccursAt(s[1..], pat, i) ==> OccursAt(s, pat, i + 1)
  {
    forall i | OccursAt(s[1..], pat, i)
      ensures OccursAt(s, pat, i + 1)
    {
      assert s[1..][i..i + |pat|] == s[i + 1..i + 1 + |pat|];
    }
  }

  /** A leading occurrence of `pat` is deleted and the scan goes on after it. */
  lemma RemoveAllLeading(pat: string, s: string)
    requires pat != []
    ensures RemoveAll(pat + s, pat) == RemoveAll(s, pat)
  {
    assert (pat + s)[..|pat|] == pat;
    assert (pat + s)[|pat|..] == s;
  }

  /** Appending one character that cannot end an occurrence of `pat` does
      not create one. */
  lemma OccursAppend(b: string, c: char, pat: string)
    requires pat != [] && !Occurs(b, pat) && c != pat[|pat| - 1]
    ensures !Occurs(b + [c], pat)
  {
    OccursAppendBack(b, c, pat);
  }

  /** Every occurrence in `b + [c]` lies inside `b` when `c` cannot end one. */
  lemma OccursAppendBack(b: string, c: char, pat: string)
    requires pat != [] && c != pat[|pat| - 1]
    ensures forall i :: OccursAt(b + [c], pat, i) ==> OccursAt(b, pat, i)
  {
    var s := b + [c];
    forall i | OccursAt(s, pat, i)
      ensures OccursAt(b, pat, i)
    {
      assert s[i..i + |pat|][|pat| - 1] == s[i + |pat| - 1];
      assert s[|b|] == c;
      assert i + |pat| <= |b|;
      assert b[i..i + |pat|] == s[i..i + |pat|];
    }
  }
}
