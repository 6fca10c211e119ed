/** POSIX path handling as Python's `os.path` (posixpath) does it:
    `basename` and the two-argument `join`. Paths are plain strings. */
module Paths {

  /** True when `p` is empty or ends in a separator, so that `p + name` starts
      a new path component. */
  predicate EndsComponent(p: string) {
    p == [] || p[|p| - 1] == '/'
  }

  /** The position just after the last '/' among the first `i` characters of
      `p`, 0 when there is none. */
  function ComponentStart(p: string, i: nat): (r: nat)
    requires i <= |p|
    ensures r <= i
    ensures r > 0 ==> p[r - 1] == '/'
    ensures forall j :: r <= j < i ==> p[j] != '/'
  {
    if i == 0 then 0 else if p[i - 1] == '/' then i else ComponentStart(p, i - 1)
  }

  /** `os.path.basename(p)`: everything after the last '/', the whole path when
      it has none, that is the longest suffix of `p` free of '/'. */
  function Basename(p: string): (r: string)
    ensures '/' !in r && |r| <= |p|
  {
    p[ComponentStart(p, |p|)..]
  }

  /** The basename is the last component: free of '/', a suffix of the path,
      and preceded by '/' unless it is the whole path. */
  lemma BasenameIsLastComponent(p: string)
    ensures '/' !in Basename(p)
    ensures p[|p| - |Basename(p)|..] == Basename(p)
    ensures |Basename(p)| < |p| ==> p[|p| - |Basename(p)| - 1] == '/'
  {
    var k := ComponentStart(p, |p|);
    assert |p| - |Basename(p)| == k;
  }

  /** `os.path.join(a, b)`: an absolute `b` replaces `a`; otherwise `b` is
      appended, with a '/' in between unless `a` is empty or already ends in one. */
  function Join(a: string, b: string): (r: string)
    ensures |b| > 0 && b[0] == '/' ==> r == b
    ensures !(|b| > 0 && b[0] == '/') ==> a <= r && r[|a|..] == (if EndsComponent(a) then b else "/" + b)
  {
    if |b| > 0 && b[0] == '/' then b
    else if EndsComponent(a) then a + b
    else a + "/" + b
  }

  /** Scanning back from `i` stops at a boundary `b` when no '/' lies in between. */
  lemma {:induction false} StartAfterBoundary(q: string, b: nat, i: nat)
    requires b <= i <= |q| && (b == 0 || q[b - 1] == '/')
    requires forall j :: b <= j < i ==> q[j] != '/'
    ensures ComponentStart(q, i) == b
    decreases i
  {
    if i > b {
      StartAfterBoundary(q, b, i - 1);
    }
  }

  /** A name appended after a component boundary is the basename of the result. */
  lemma BasenameAfterBoundary(p: string, name: string)
    requires EndsComponent(p) && '/' !in name
    ensures Basename(p + name) == name
  {
    var q := p + name;
    forall j | |p| <= j < |q|
      ensures q[j] != '/'
    {
      assert q[j] == name[j - |p|];
    }
    StartAfterBoundary(q, |p|, |q|);
    assert q[|p|..] == name;
  }

  /** Joining a directory with a plain file name: the name is the basename of the
      joined path, and the joined path extends the directory. */
  lemma JoinFileName(dir: string, name: string)
    requires '/' !in name
    ensures Basename(Join(dir, name)) == name
    ensures dir <= Join(dir, name)
    ensures Join(dir, name) == dir + name || Join(dir, name) == dir + "/" + name
  {
    if |name| > 0 {
      assert name[0] in name;
    }
    if EndsComponent(dir) {
      BasenameAfterBoundary(dir, name);
    } else {
      assert dir + "/" + name == (dir + "/") + name;
      BasenameAfterBoundary(dir + "/", name);
    }
  }
}
