/**
 * The string operations the Python code relies on: `sep.join(parts)`,
 * repeated `+=` accumulation, `s.split(c)` and ASCII `str.lower`.
 */
module Text {

  /** `sep.join(parts)`. */
  function Join(parts: seq<string>, sep: string): string
  {
    if |parts| == 0 then ""
    else if |parts| == 1 then parts[0]
    else parts[0] + sep + Join(parts[1..], sep)
  }

  /** `"".join(parts)`, which is also what a loop of `acc += part` builds. */
  function Concat(parts: seq<string>): string
  {
    if |parts| == 0 then "" else parts[0] + Concat(parts[1..])
  }

  /** `s.split(c)` for a one-character separator: never an empty list. */
  function Split(s: string, c: char): (r: seq<string>)
    ensures |r| >= 1
    ensures c !in s ==> r == [s]
    decreases |s|
  {
    if |s| == 0 then [""]
    else
      var rest := Split(s[1..], c);
      assert c !in s ==> c !in s[1..] && [s[0]] + s[1..] == s;
      if s[0] == c then [""] + rest else [[s[0]] + rest[0]] + rest[1..]
  }

  lemma {:induction false} ConcatAppend(a: seq<string>, b: seq<string>)
    ensures Concat(a + b) == Concat(a) + Concat(b)
  {
    if |a| == 0 {
      assert a + b == b;
    } else {
      assert (a + b)[1..] == a[1..] + b;
      ConcatAppend(a[1..], b);
    }
  }

  /** Joining with `sep` puts exactly one separator between neighbours. */
  lemma {:induction false} JoinAppend(parts: seq<string>, last: string, sep: string)
    requires |parts| >= 1
    ensures Join(parts + [last], sep) == Join(parts, sep) + sep + last
  {
    if |parts| == 1 {
      assert parts + [last] == [parts[0], last];
    } else {
      assert (parts + [last])[1..] == parts[1..] + [last];
      JoinAppend(parts[1..], last, sep);
    }
  }

  lemma {:induction false} SplitSeparatorFree(p: string, t: string, c: char)
    requires c !in p
    ensures Split(p + t, c) == [p + Split(t, c)[0]] + Split(t, c)[1..]
    decreases |p|
  {
    if |p| == 0 {
      var x := Split(t, c);
      assert p + t == t && p + x[0] == x[0];
      assert x == [x[0]] + x[1..];
    } else {
      assert (p + t)[1..] == p[1..] + t;
      SplitSeparatorFree(p[1..], t, c);
      var x := Split(t, c);
      assert (p + t)[0] == p[0] != c;
      assert [p[0]] + (p[1..] + x[0]) == p + x[0];
    }
  }

  /** Splitting distributes over joining two strings with the separator. */
  lemma {:induction false} SplitConcat(x: string, y: string, c: char)
    ensures Split(x + [c] + y, c) == Split(x, c) + Split(y, c)
    decreases |x|
  {
    var s := x + [c] + y;
    SplitFirst(s, c);
    if |x| == 0 {
      assert s[0] == c && s[1..] == y;
    } else {
      assert s[0] == x[0] && s[1..] == x[1..] + [c] + y;
      SplitConcat(x[1..], y, c);
      SplitFirst(x, c);
      FirstPartStep(x[0], c, Split(x[1..], c), Split(y, c));
    }
  }

  /** The step `SplitConcat` takes: the first character acts the same on the parts with more parts after them. */
  lemma FirstPartStep(h: char, c: char, xs: seq<string>, ys: seq<string>)
    requires |xs| >= 1
    ensures (if h == c then [""] + (xs + ys) else [[h] + (xs + ys)[0]] + (xs + ys)[1..])
            == (if h == c then [""] + xs else [[h] + xs[0]] + xs[1..]) + ys
  {
    assert (xs + ys)[0] == xs[0] && (xs + ys)[1..] == xs[1..] + ys;
  }

  /** One step of `Split`: the first character either ends a part or joins the first part. */
  lemma SplitFirst(s: string, c: char)
    requires |s| > 0
    ensures Split(s, c) == if s[0] == c then [""] + Split(s[1..], c) else [[s[0]] + Split(s[1..], c)[0]] + Split(s[1..], c)[1..]
  {
  }

  /**
   * Splitting a join recovers the parts, provided no part contains the
   * separator: `s.split(c)` undoes `c.join(parts)`.
   */
  lemma {:induction false} SplitJoin(parts: seq<string>, c: char)
    requires |parts| >= 1
    requires forall k :: 0 <= k < |parts| ==> c !in parts[k]
    ensures Split(Join(parts, [c]), c) == parts
  {
    if |parts| == 1 {
      assert Split(parts[0] + "", c) == [parts[0] + Split("", c)[0]] + Split("", c)[1..] by {
        SplitSeparatorFree(parts[0], "", c);
      }
      assert parts[0] + "" == parts[0];
    } else {
      var tail := Join(parts[1..], [c]);
      SplitJoin(parts[1..], c);
      assert Join(parts, [c]) == parts[0] + ([c] + tail);
      SplitSeparatorFree(parts[0], [c] + tail, c);
      assert ([c] + tail)[1..] == tail;
      assert Split([c] + tail, c) == [""] + parts[1..];
      assert parts[0] + "" == parts[0];
    }
  }

  /** Python's `str.lower` on the ASCII letters; every other character is kept. */
  function LowerChar(ch: char): char
  {
    if 'A' <= ch <= 'Z' then (ch as int + 32) as char else ch
  }

  function Lower(s: string): (r: string)
    ensures |r| == |s|
  {
    seq(|s|, i requires 0 <= i < |s| => LowerChar(s[i]))
  }
}
