/**
 * Python string operations the integration relies on: `str.join`, `str.split`
 * with a one-character or a multi-character separator, and the `/`-separated
 * layout of request paths.
 */
module Text {

  /** `sep.join(xs)`. */
  function Join(xs: seq<string>, sep: string): string
  {
    if |xs| == 0 then "" else if |xs| == 1 then xs[0] else xs[0] + sep + Join(xs[1..], sep)
  }

  /** `s.split(c)` for a one-character separator `c`: never an empty list. */
  function SplitOn(s: string, c: char): (pieces: seq<string>)
    ensures |pieces| >= 1
    decreases |s|
  {
    if |s| == 0 then [""]
    else
      var rest := SplitOn(s[1..], c);
      if s[0] == c then [""] + rest
      else [[s[0]] + rest[0]] + rest[1..]
  }

  /** A string without the separator is not split at all. */
  lemma {:induction false} SplitOnFree(s: string, c: char)
    requires c !in s
    ensures SplitOn(s, c) == [s]
  {
    if |s| > 0 {
      SplitOnFree(s[1..], c);
      assert [s[0]] + s[1..] == s;
    }
  }

  /** Splitting at a separator splits the two sides independently. */
  lemma {:induction false} SplitOnCat(x: string, c: char, y: string)
    ensures SplitOn(x + [c] + y, c) == SplitOn(x, c) + SplitOn(y, c)
  {
    if |x| == 0 {
      assert x + [c] + y == [c] + y;
      assert ([c] + y)[1..] == y;
    } else {
      assert (x + [c] + y)[1..] == x[1..] + [c] + y;
      SplitOnCat(x[1..], c, y);
      assert (x + [c] + y)[0] == x[0];
    }
  }

  /** A separator-free prefix only extends the first piece. */
  lemma {:induction false} SplitOnFreePrefix(a: string, c: char, t: string)
    requires c !in a
    ensures SplitOn(a + t, c) == [a + SplitOn(t, c)[0]] + SplitOn(t, c)[1..]
  {
    if |a| > 0 {
      assert (a + t)[0] == a[0] && (a + t)[1..] == a[1..] + t;
      assert a[0] in a;
      SplitOnFreePrefix(a[1..], c, t);
      assert [a[0]] + (a[1..] + SplitOn(t, c)[0]) == a + SplitOn(t, c)[0];
    } else {
      assert a + t == t && a + SplitOn(t, c)[0] == SplitOn(t, c)[0];
      assert [SplitOn(t, c)[0]] + SplitOn(t, c)[1..] == SplitOn(t, c);
    }
  }

  /** `split` undoes `join` when no piece contains the separator. */
  lemma {:induction false} SplitJoin(xs: seq<string>, c: char)
    requires |xs| >= 1
    requires forall k :: 0 <= k < |xs| ==> c !in xs[k]
    ensures SplitOn(Join(xs, [c]), c) == xs
  {
    if |xs| == 1 {
      SplitOnFree(xs[0], c);
    } else {
      SplitJoin(xs[1..], c);
      SplitOnCat(xs[0], c, Join(xs[1..], [c]));
      SplitOnFree(xs[0], c);
      assert xs == [xs[0]] + xs[1..];
    }
  }

  /** The path `/s0/s1/.../sn` made of the given segments: the value of an
      f-string path such as `f"/v3/routes/{route_id}"` is `Path(["v3", "routes", str(route_id)])`. */
  function Path(segs: seq<string>): string
  {
    if segs == [] then "" else "/" + segs[0] + Path(segs[1..])
  }

  /** Paths concatenate as their segment lists do. */
  lemma {:induction false} PathAppend(xs: seq<string>, ys: seq<string>)
    ensures Path(xs + ys) == Path(xs) + Path(ys)
  {
    if xs != [] {
      assert (xs + ys)[0] == xs[0] && (xs + ys)[1..] == xs[1..] + ys;
      PathAppend(xs[1..], ys);
    } else {
      assert xs + ys == ys;
    }
  }

  /** A character other than `/` that no segment contains is absent from the path. */
  lemma {:induction false} PathWithout(segs: seq<string>, ch: char)
    requires ch != '/'
    requires forall k :: 0 <= k < |segs| ==> ch !in segs[k]
    ensures ch !in Path(segs)
  {
    if segs != [] {
      PathWithout(segs[1..], ch);
    }
  }

  /** The `/`-separated segments of a path; a path starting with `/` has an empty first one. */
  function Segments(path: string): seq<string>
  {
    SplitOn(path, '/')
  }

  /** A path built from `/`-free segments splits back into exactly those segments. */
  lemma {:induction false} SegmentsOfPath(segs: seq<string>)
    requires forall k :: 0 <= k < |segs| ==> '/' !in segs[k]
    ensures Segments(Path(segs)) == [""] + segs
  {
    if segs != [] {
      var rest := Path(segs[1..]);
      SegmentsOfPath(segs[1..]);
      assert Path(segs) == [] + ['/'] + (segs[0] + rest);
      SplitOnCat([], '/', segs[0] + rest);
      assert '/' !in segs[0];
      SplitOnFreePrefix(segs[0], '/', rest);
      assert segs[0] + "" == segs[0];
      assert segs == [segs[0]] + segs[1..];
    }
  }

  /** `sep` occurs somewhere inside `s`. */
  predicate Occurs(sep: string, s: string)
    decreases |s|
  {
    |s| >= |sep| && (s[..|sep|] == sep || Occurs(sep, s[1..]))
  }

  /** `s.split(sep)` for a non-empty separator: the pieces between the
      non-overlapping occurrences of `sep`, found from left to right. */
  function Split(s: string, sep: string): (pieces: seq<string>)
    requires |sep| > 0
    ensures |pieces| >= 1
    ensures sep <= s ==> |pieces| >= 2 && pieces[0] == ""
    decreases |s|
  {
    if |s| < |sep| then [s]
    else if s[..|sep|] == sep then [""] + Split(s[|sep|..], sep)
    else
      var rest := Split(s[1..], sep);
      [[s[0]] + rest[0]] + rest[1..]
  }

  /** A string in which the separator never occurs is one piece. */
  lemma {:induction false} SplitWithoutOccurrence(s: string, sep: string)
    requires |sep| > 0 && !Occurs(sep, s)
    ensures Split(s, sep) == [s]
    decreases |s|
  {
    if |s| >= |sep| {
      SplitWithoutOccurrence(s[1..], sep);
      assert [s[0]] + s[1..] == s;
    }
  }

  /** After a leading separator, the second piece is the first piece of the rest. */
  lemma SplitAfterSeparator(sep: string, t: string)
    requires |sep| > 0
    ensures Split(sep + t, sep)[1] == Split(t, sep)[0]
  {
    assert (sep + t)[..|sep|] == sep;
    assert (sep + t)[|sep|..] == t;
  }

  /** A first character that cannot start the separator joins the first piece. */
  lemma SplitAfterForeignChar(ch: char, sep: string, t: string)
    requires |sep| > 0 && sep[0] != ch
    ensures Split([ch] + t, sep)[0] == [ch] + Split(t, sep)[0]
  {
    assert ([ch] + t)[1..] == t;
    if |[ch] + t| >= |sep| {
      assert ([ch] + t)[..|sep|][0] == ch;
    }
  }
}
