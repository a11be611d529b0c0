/** The cache key of a rendered thumbnail (the `resultPath` of `handleResize`):
    "cache/" + the source's directory + the size token + "/" + the source's file name,
    where the source is the parsed URL with its scheme and host removed. */
module CacheKey {
  import opened GoStrings

  const Prefix := "cache/"

  function ResultPath(source: string, size: string): (key: string)
    ensures |key| == |Prefix| + |source| + |size| + 1
    ensures key[..|Prefix|] == Prefix
  {
    var (dir, file) := PathSplit(source);
    Prefix + (dir + size) + "/" + file
  }

  predicate DirLike(d: string) { d == [] || d[|d| - 1] == '/' }

  /** A string splits in only one way into a directory-like part and a slash-free part. */
  lemma UniqueSplit(d1: string, f1: string, d2: string, f2: string)
    requires DirLike(d1) && DirLike(d2) && '/' !in f1 && '/' !in f2
    requires d1 + f1 == d2 + f2
    ensures d1 == d2 && f1 == f2
  {
    PathSplitUnique(d1, f1);
    PathSplitUnique(d2, f2);
  }

  /** For any split of the source into a directory (empty or ending in '/') and a
      slash-free file name, the key puts the size token between the two. */
  lemma ResultPathOfParts(dir: string, file: string, size: string)
    requires DirLike(dir) && '/' !in file
    ensures ResultPath(dir + file, size) == Prefix + (dir + size) + "/" + file
  {
    PathSplitUnique(dir, file);
  }

  /** The key ends in the source's file name: its own `path.Split` finds that name. */
  lemma ResultPathKeepsFileName(source: string, size: string)
    ensures PathSplit(ResultPath(source, size)).1 == PathSplit(source).1
  {
    var (dir, file) := PathSplit(source);
    var m := Prefix + (dir + size) + "/";
    assert ResultPath(source, size) == m + file;
    PathSplitUnique(m, file);
  }

  /** A source at the root keeps its leading slash as the directory, so its key holds
      an empty path segment: "/a.jpg" with "thumb" becomes "cache//thumb/a.jpg". */
  lemma RootSourceKey(file: string, size: string)
    requires '/' !in file
    ensures ResultPath("/" + file, size) == "cache//" + size + "/" + file
  {
    ResultPathOfParts("/", file, size);
  }

  lemma Unwrap(t1: string, t2: string)
    requires Prefix + t1 + "/" == Prefix + t2 + "/"
    ensures t1 == t2
  {
    assert (Prefix + t1 + "/")[|Prefix|..|Prefix| + |t1|] == t1;
    assert (Prefix + t2 + "/")[|Prefix|..|Prefix| + |t2|] == t2;
  }

  /** The key determines the source and the size token, as long as the token holds no
      '/' (a router parameter never does). */
  lemma ResultPathInjective(s1: string, z1: string, s2: string, z2: string)
    requires '/' !in z1 && '/' !in z2
    requires ResultPath(s1, z1) == ResultPath(s2, z2)
    ensures s1 == s2 && z1 == z2
  {
    var (d1, f1) := PathSplit(s1);
    var (d2, f2) := PathSplit(s2);
    var t1, t2 := d1 + z1, d2 + z2;
    // The file name is what follows the last slash of the key ...
    assert f1 == f2 && t1 == t2 by {
      UniqueSplit(Prefix + t1 + "/", f1, Prefix + t2 + "/", f2);
      Unwrap(t1, t2);
    }
    // ... and what precedes that slash is the directory followed by the token.
    UniqueSplit(d1, z1, d2, z2);
  }

  /** Without the slash-free token the key is ambiguous: moving a directory of the
      source into the token gives a different request with the same key, e.g.
      ("a/b.jpg", "thumb") and ("b.jpg", "a/thumb"). */
  lemma SlashInTokenCollides(dir: string, file: string, size: string)
    requires dir != [] && DirLike(dir) && '/' !in file
    ensures ResultPath(dir + file, size) == ResultPath(file, dir + size)
    ensures dir + file != file
  {
    ResultPathOfParts(dir, file, size);
    assert [] + file == file && [] + (dir + size) == dir + size;
    ResultPathOfParts([], file, dir + size);
  }
}
