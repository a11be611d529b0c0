/** The pieces of Go's `strings` and `path` packages that the handler relies on, for a
    one-character separator. */
module GoStrings {

  /** `strings.IndexByte`: the first position of `c` in `s`, or -1. */
  function IndexOf(s: string, c: char): (i: int)
    ensures -1 <= i < |s|
    ensures i == -1 <==> c !in s
    ensures i >= 0 ==> s[i] == c && c !in s[..i]
  {
    if s == [] then -1
    else if s[0] == c then 0
    else
      var j := IndexOf(s[1..], c);
      if j < 0 then -1
      else
        assert s[..j + 1] == [s[0]] + s[1..][..j];
        j + 1
  }

  /** `strings.LastIndex` for a one-character needle: the last position of `c`, or -1. */
  function LastIndex(s: string, c: char): (i: int)
    ensures -1 <= i < |s|
    ensures i == -1 <==> c !in s
    ensures i >= 0 ==> s[i] == c && c !in s[i + 1..]
  {
    if s == [] then -1
    else if s[|s| - 1] == c then |s| - 1
    else
      var i := LastIndex(s[..|s| - 1], c);
      assert s == s[..|s| - 1] + [s[|s| - 1]];
      i
  }

  /** The number of occurrences of `c` in `s`. */
  function Count(s: string, c: char): nat {
    if s == [] then 0 else (if s[0] == c then 1 else 0) + Count(s[1..], c)
  }

  /** `strings.Split(s, sep)` for a one-character `sep`: every piece between
      separators, so there is always one more piece than there are separators. */
  function Split(s: string, sep: char): (parts: seq<string>)
    ensures |parts| >= 1
    decreases |s|
  {
    var i := IndexOf(s, sep);
    if i < 0 then [s] else [s[..i]] + Split(s[i + 1..], sep)
  }

  /** `strings.Join(parts, sep)`. */
  function Join(parts: seq<string>, sep: char): string {
    if parts == [] then ""
    else if |parts| == 1 then parts[0]
    else parts[0] + [sep] + Join(parts[1..], sep)
  }

  lemma {:induction false} CountSplit(s: string, c: char, i: int)
    requires 0 <= i < |s| && c !in s[..i] && s[i] == c
    ensures Count(s, c) == 1 + Count(s[i + 1..], c)
    decreases i
  {
    if i > 0 {
      assert s[0] != c by { assert s[0] == s[..i][0]; }
      assert s[1..][..i - 1] == s[1..i];
      assert c !in s[1..][..i - 1];
      CountSplit(s[1..], c, i - 1);
      assert s[1..][i..] == s[i + 1..];
    }
  }

  lemma {:induction false} CountAbsent(s: string, c: char)
    requires c !in s
    ensures Count(s, c) == 0
    decreases |s|
  {
    if s != [] {
      assert forall k :: 0 <= k < |s| - 1 ==> s[1..][k] == s[k + 1];
      CountAbsent(s[1..], c);
    }
  }

  /** Splitting yields exactly one piece more than there are separators. */
  lemma {:induction false} SplitLength(s: string, sep: char)
    ensures |Split(s, sep)| == Count(s, sep) + 1
    decreases |s|
  {
    var i := IndexOf(s, sep);
    if i < 0 {
      CountAbsent(s, sep);
    } else {
      SplitFirst(s, sep, i);
      CountSplit(s, sep, i);
      SplitLength(s[i + 1..], sep);
    }
  }

  lemma JoinCons(head: string, rest: seq<string>, tail: string, sep: char)
    requires |rest| >= 1 && Join(rest, sep) == tail
    ensures Join([head] + rest, sep) == head + [sep] + tail
  {
    assert ([head] + rest)[1..] == rest;
  }

  /** No piece contains the separator. */
  lemma {:induction false} SplitPiecesFree(s: string, sep: char)
    ensures forall k :: 0 <= k < |Split(s, sep)| ==> sep !in Split(s, sep)[k]
    decreases |s|
  {
    var i := IndexOf(s, sep);
    if i >= 0 {
      SplitPiecesFree(s[i + 1..], sep);
    }
  }

  /** Where the first separator is, the string is the first piece, the separator
      and the rest, and the pieces are the first one and those of the rest. */
  lemma SplitFirst(s: string, sep: char, i: int)
    requires i == IndexOf(s, sep) && i >= 0
    ensures s == s[..i] + [sep] + s[i + 1..]
    ensures Split(s, sep) == [s[..i]] + Split(s[i + 1..], sep)
  {
    Around(s, i);
  }

  lemma Around(s: string, i: int)
    requires 0 <= i < |s|
    ensures s == s[..i] + [s[i]] + s[i + 1..]
  {
    assert s[..i] + [s[i]] == s[..i + 1];
  }

  /** Joining the pieces with the separator gives back the string. */
  lemma {:induction false} JoinSplit(s: string, sep: char)
    ensures Join(Split(s, sep), sep) == s
    decreases |s|
  {
    var i := IndexOf(s, sep);
    if i >= 0 {
      SplitFirst(s, sep, i);
      JoinSplit(s[i + 1..], sep);
      JoinCons(s[..i], Split(s[i + 1..], sep), s[i + 1..], sep);
    }
  }

  /** Splitting a string made of two separator-free halves gives the halves back. */
  lemma SplitPair(a: string, b: string, sep: char)
    requires sep !in a && sep !in b
    ensures Split(a + [sep] + b, sep) == [a, b]
  {
    var s := a + [sep] + b;
    assert s[..|a|] == a && s[|a|] == sep;
    assert IndexOf(s, sep) == |a|;
    assert s[|a| + 1..] == b;
  }

  /** `strings.TrimPrefix`. */
  function TrimPrefix(s: string, prefix: string): (r: string)
    ensures prefix <= s ==> prefix + r == s
    ensures !(prefix <= s) ==> r == s
  {
    if prefix <= s then s[|prefix|..] else s
  }

  /** `path.Split`: the part up to and including the last slash, and the rest. */
  function PathSplit(p: string): (r: (string, string))
    ensures r.0 + r.1 == p
    ensures '/' !in r.1
    ensures r.0 == [] || r.0[|r.0| - 1] == '/'
  {
    var i := LastIndex(p, '/');
    (p[..i + 1], p[i + 1..])
  }

  /** The three properties of `PathSplit` determine its result: any split of `p` into a
      slash-terminated (or empty) directory and a slash-free name is the one it finds. */
  lemma {:induction false} PathSplitUnique(dir: string, file: string)
    requires dir == [] || dir[|dir| - 1] == '/'
    requires '/' !in file
    ensures PathSplit(dir + file) == (dir, file)
    decreases |file|
  {
    if file == [] {
      assert dir + file == dir;
      if dir != [] {
        assert LastIndex(dir, '/') == |dir| - 1;
      }
    } else {
      var p := dir + file;
      var f' := file[..|file| - 1];
      assert p[..|p| - 1] == dir + f';
      assert p[|p| - 1] == file[|file| - 1];
      assert '/' !in f' by {
        assert forall k :: 0 <= k < |f'| ==> f'[k] == file[k];
      }
      PathSplitUnique(dir, f');
      assert LastIndex(p, '/') == LastIndex(dir + f', '/');
    }
  }
}
