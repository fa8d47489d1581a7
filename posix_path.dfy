/**
 * The two functions of Python's `posixpath` that the bridge and the graph
 * module use to place files: `dirname` and `join` (for two components).
 */
module PosixPath {

  const Sep: char := '/'

  /** `s.rfind(c)`: the last index holding `c`, or -1. */
  function RFind(s: string, c: char): (i: int)
    ensures -1 <= i < |s|
    ensures i >= 0 ==> s[i] == c
    ensures forall j :: i < j < |s| ==> s[j] != c
    decreases |s|
  {
    if |s| == 0 then -1
    else if s[|s| - 1] == c then |s| - 1
    else RFind(s[..|s| - 1], c)
  }

  /** `s.rstrip(c)` for one character. */
  function RStrip(s: string, c: char): (r: string)
    ensures r <= s
    ensures |r| > 0 ==> r[|r| - 1] != c
    ensures forall j :: |r| <= j < |s| ==> s[j] == c
    decreases |s|
  {
    if |s| > 0 && s[|s| - 1] == c then RStrip(s[..|s| - 1], c) else s
  }

  predicate AllSeparators(s: string)
  {
    forall j :: 0 <= j < |s| ==> s[j] == Sep
  }

  /** `posixpath.dirname(p)`: everything up to the last separator, trailing separators removed unless only separators remain. */
  function Dirname(p: string): (r: string)
    ensures IsDirname(r)
    ensures r <= p
  {
    var head := p[..RFind(p, Sep) + 1];
    if head != "" && !AllSeparators(head) then RStrip(head, Sep) else head
  }

  /** `posixpath.join(a, b)`. */
  function Join(a: string, b: string): string
  {
    if |b| > 0 && b[0] == Sep then b
    else if a == "" || a[|a| - 1] == Sep then a + b
    else a + [Sep] + b
  }

  /** The shapes `dirname` can return: empty, all separators, or not ending in one. */
  predicate IsDirname(d: string)
  {
    d == "" || AllSeparators(d) || d[|d| - 1] != Sep
  }

  /** A single path component: non-empty and free of separators. */
  predicate IsComponent(name: string)
  {
    name != "" && Sep !in name
  }

  lemma RFindAfter(a: string, name: string)
    requires Sep !in name
    ensures RFind(a + name, Sep) == RFind(a, Sep)
    decreases |name|
  {
    if |name| > 0 {
      var s := a + name;
      assert s[..|s| - 1] == a + name[..|name| - 1];
      RFindAfter(a, name[..|name| - 1]);
    } else {
      assert a + name == a;
    }
  }

  /**
   * Joining a directory with one component and taking `dirname` gives the
   * directory back: `dirname` undoes `join` on the values `dirname` itself
   * produces.
   */
  lemma DirnameJoin(d: string, name: string)
    requires IsDirname(d) && IsComponent(name)
    ensures Dirname(Join(d, name)) == d
  {
    if d == "" {
      DirnameJoinEmpty(name);
    } else if d[|d| - 1] == Sep {
      DirnameJoinRoot(d, name);
    } else {
      DirnameJoinPlain(d, name);
    }
  }

  lemma DirnameJoinEmpty(name: string)
    requires IsComponent(name)
    ensures Dirname(Join("", name)) == ""
  {
    RFindAfter("", name);
    assert "" + name == name;
  }

  /** A directory made of separators only, such as `/`. */
  lemma DirnameJoinRoot(d: string, name: string)
    requires d != "" && AllSeparators(d) && IsComponent(name)
    ensures Dirname(Join(d, name)) == d
  {
    var s := d + name;
    assert Join(d, name) == s;
    RFindAfter(d, name);
    assert RFind(s, Sep) == |d| - 1;
    assert s[..|d|] == d;
  }

  /** A directory that does not end in a separator. */
  lemma DirnameJoinPlain(d: string, name: string)
    requires d != "" && d[|d| - 1] != Sep && IsComponent(name)
    ensures Dirname(Join(d, name)) == d
  {
    var head := d + [Sep];
    var s := head + name;
    assert Join(d, name) == s;
    RFindAfter(head, name);
    assert RFind(s, Sep) == |d|;
    assert s[..|d| + 1] == head;
    assert head[|d| - 1] != Sep;
    assert RStrip(head, Sep) == RStrip(d, Sep) by {
      assert head[..|head| - 1] == d;
    }
  }
}
