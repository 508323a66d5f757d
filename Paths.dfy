/**
  The two POSIX path operations the script uses, with `/` as the only
  separator: `os.path.join(a, b)` for two arguments and the tail that
  `os.path.split(p)` returns.
 */
module Paths {

  const Sep: char := '/'

  /** `os.path.join(a, b)`: an absolute `b` replaces `a`; otherwise one separator goes between them unless `a` is empty or already ends in one. */
  function Join(a: string, b: string): string
  {
    if 0 < |b| && b[0] == Sep then b
    else if a == [] || a[|a| - 1] == Sep then a + b
    else a + [Sep] + b
  }

  /** The tail of `os.path.split(p)`: everything after the last separator (all of `p` when it has none). */
  function BaseName(p: string): string
  {
    if p == [] then []
    else if p[|p| - 1] == Sep then []
    else BaseName(p[..|p| - 1]) + [p[|p| - 1]]
  }

  /** `BaseName` is the longest separator-free suffix of the path. */
  lemma {:induction false} BaseNameIsLastComponent(p: string)
    ensures Sep !in BaseName(p)
    ensures |BaseName(p)| <= |p| && p[|p| - |BaseName(p)|..] == BaseName(p)
    ensures |BaseName(p)| < |p| ==> p[|p| - |BaseName(p)| - 1] == Sep
  {
    if p == [] || p[|p| - 1] == Sep {
    } else {
      var q, c := p[..|p| - 1], p[|p| - 1];
      BaseNameIsLastComponent(q);
      var b := BaseName(q);
      assert BaseName(p) == b + [c];
      assert p == q + [c];
      assert p[|p| - |b + [c]|..] == q[|q| - |b|..] + [c];
      if |b + [c]| < |p| {
        assert p[|p| - |b + [c]| - 1] == q[|q| - |b| - 1];
      }
    }
  }

  /** Appending a separator-free name after a separator (or to nothing) makes that name the last component. */
  lemma {:induction false} BaseNameAfterSep(prefix: string, name: string)
    requires prefix == [] || prefix[|prefix| - 1] == Sep
    requires Sep !in name
    ensures BaseName(prefix + name) == name
    decreases |name|
  {
    if name == [] {
      assert prefix + name == prefix;
    } else {
      var init := name[..|name| - 1];
      BaseNameAfterSep(prefix, init);
      assert (prefix + name)[..|prefix + name| - 1] == prefix + init;
    }
  }

  /** Splitting a joined path gives back the entry name that was joined on. */
  lemma BaseNameOfJoin(dir: string, name: string)
    requires Sep !in name
    ensures BaseName(Join(dir, name)) == name
  {
    if dir == [] || dir[|dir| - 1] == Sep {
      BaseNameAfterSep(dir, name);
    } else {
      BaseNameAfterSep(dir + [Sep], name);
      assert dir + [Sep] + name == (dir + [Sep]) + name;
    }
  }
}
