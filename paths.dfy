/** The two `os.path` operations the validation engine uses to derive a definition's identity
    from its file path (POSIX separators). */
module Paths {

  /** `os.path.basename(p)`: the longest suffix of `p` that holds no '/'. */
  function Basename(p: string): (b: string)
    ensures '/' !in b
    ensures |b| <= |p| && b == p[|p| - |b|..]
    ensures |b| < |p| ==> p[|p| - |b| - 1] == '/'
  {
    if p == [] || p[|p| - 1] == '/' then []
    else Basename(p[..|p| - 1]) + [p[|p| - 1]]
  }

  /** The position of the last `c` in `s`, or -1 when there is none (Python's `str.rfind`). */
  function LastIndexOf(s: string, c: char): (i: int)
    ensures -1 <= i < |s|
    ensures 0 <= i ==> s[i] == c
    ensures forall k :: i < k < |s| ==> s[k] != c
  {
    if s == [] then -1
    else if s[|s| - 1] == c then |s| - 1
    else LastIndexOf(s[..|s| - 1], c)
  }

  /** Every character is a dot. */
  predicate AllDots(s: string) {
    forall k :: 0 <= k < |s| ==> s[k] == '.'
  }

  /** The root that `os.path.splitext` returns for a path without '/': everything before the last
      dot, unless only dots precede it (a leading-dot name such as ".yaml" has no extension). */
  function SplitExtRoot(b: string): (r: string)
    ensures |r| <= |b| && r == b[..|r|]
    ensures r != b ==> |r| > 0 && b[|r|] == '.' && '.' !in b[|r| + 1..] && !AllDots(r)
    ensures r == b ==> forall k :: 0 < k < |b| && b[k] == '.' ==> AllDots(b[..k])
  {
    var d := LastIndexOf(b, '.');
    if d > 0 && !AllDots(b[..d]) then b[..d] else b
  }

  /** The root that `os.path.splitext` gives for the basename of `path`: the file name without
      its directory and its extension. */
  function Stem(path: string): (r: string)
    ensures '/' !in r
    ensures |r| <= |Basename(path)| && r == Basename(path)[..|r|]
    ensures var b := Basename(path);
            r != b ==> |r| > 0 && b[|r|] == '.' && '.' !in b[|r| + 1..] && !AllDots(r)
    ensures var b := Basename(path);
            r == b ==> forall k :: 0 < k < |b| && b[k] == '.' ==> AllDots(b[..k])
  {
    SplitExtRoot(Basename(path))
  }

  /** The basename of a path in a directory is the name after the last separator. */
  lemma {:induction false} BasenameInDirectory(dir: string, name: string)
    requires '/' !in name
    ensures Basename(dir + "/" + name) == name
  {
    var p := dir + "/" + name;
    if name != [] {
      var n := |name| - 1;
      assert p[..|p| - 1] == dir + "/" + name[..n];
      BasenameInDirectory(dir, name[..n]);
      assert name[..n] + [name[n]] == name;
    }
  }

  /** The stem of `dir/name.ext` is `name` when the extension holds no dot and `name` is not made
      of dots only: the case of every definition file the validation engine enumerates. */
  lemma StemOfDefinitionFile(dir: string, name: string, ext: string)
    requires '/' !in name && '/' !in ext && '.' !in ext
    requires !AllDots(name)
    ensures Stem(dir + "/" + name + "." + ext) == name
  {
    var b := name + "." + ext;
    assert dir + "/" + name + "." + ext == dir + "/" + b;
    BasenameInDirectory(dir, b);
    var d := LastIndexOf(b, '.');
    assert b[|name|] == '.';
    assert d == |name|;
    assert b[..d] == name;
  }
}
