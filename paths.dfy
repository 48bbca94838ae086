/** Go's `path.Split`, which both constructors use for the directory to create. */
module Paths {

  /** The index of the last '/' in `s`, or -1 when there is none (`strings.LastIndex(s, "/")`). */
  function LastSlash(s: string): (r: int)
    ensures -1 <= r < |s|
    ensures 0 <= r ==> s[r] == '/'
    ensures forall j :: r < j < |s| ==> s[j] != '/'
  {
    if s == [] then -1
    else if s[|s| - 1] == '/' then |s| - 1
    else LastSlash(s[..|s| - 1])
  }

  /** `path.Split`: the directory is everything up to and including the last '/', the file the rest. */
  function Split(p: string): (r: (string, string))
    ensures IsSplitOf(p, r.0, r.1)
  {
    var i := LastSlash(p);
    SplitAtLastSlash(p);
    (p[..i + 1], p[i + 1..])
  }

  lemma SplitAtLastSlash(p: string)
    ensures IsSplitOf(p, p[..LastSlash(p) + 1], p[LastSlash(p) + 1..])
  {
    SplitAt(p, LastSlash(p));
  }

  /** Cutting right after a '/' (or at the start) with no '/' further on gives a valid split. */
  lemma SplitAt(p: string, i: int)
    requires -1 <= i < |p| && (0 <= i ==> p[i] == '/')
    requires forall j :: i < j < |p| ==> p[j] != '/'
    ensures IsSplitOf(p, p[..i + 1], p[i + 1..])
  {
    PrefixSuffix(p, i + 1);
    NoSlashAfter(p, i, p[i + 1..]);
    DirEndsInSlash(p, i);
  }

  lemma NoSlashAfter(p: string, i: int, file: string)
    requires -1 <= i < |p| && file == p[i + 1..]
    requires forall j :: i < j < |p| ==> p[j] != '/'
    ensures forall j :: 0 <= j < |file| ==> file[j] != '/'
  {
    forall j | 0 <= j < |file| ensures file[j] != '/' {
      assert file[j] == p[i + 1 + j];
    }
  }

  lemma DirEndsInSlash(p: string, i: int)
    requires -1 <= i < |p| && (0 <= i ==> p[i] == '/')
    ensures p[..i + 1] == [] || p[..i + 1][i] == '/'
  {
    if 0 <= i {
      assert p[..i + 1][i] == p[i];
    }
  }

  /** What Split promises: the two parts put back together give the path, the directory is empty or
      ends in '/', and the file part holds no '/'. */
  predicate IsSplitOf(p: string, dir: string, file: string) {
    && dir + file == p
    && (dir == [] || dir[|dir| - 1] == '/')
    && (forall j :: 0 <= j < |file| ==> file[j] != '/')
  }

  /** A path has only one such decomposition, so Split is fully described by IsSplitOf. */
  lemma SplitUnique(p: string, dir: string, file: string)
    requires IsSplitOf(p, dir, file)
    ensures (dir, file) == Split(p)
  {
    var i := LastSlash(p);
    assert forall j :: |dir| <= j < |p| ==> p[j] == file[j - |dir|];
    assert forall j :: 0 <= j < |dir| ==> p[j] == dir[j];
    // the last '/' of p is the last character of dir, if dir has one
    assert |dir| - 1 == i;
    assert dir == p[..|dir|];
    assert file == p[|dir|..];
  }

  lemma PrefixSuffix(s: string, k: nat)
    requires k <= |s|
    ensures s[..k] + s[k..] == s
  {
  }

  /** A bare file name has the empty directory. */
  lemma BareNameHasEmptyDir(p: string)
    requires forall j :: 0 <= j < |p| ==> p[j] != '/'
    ensures Split(p) == ([], p)
  {
    SplitUnique(p, [], p);
  }
}
