/**
 * The string operations the resource-URI code relies on: `String.prototype.split`
 * with a one-character separator, `Array.prototype.join` and `Array.prototype.pop`.
 */
module Paths {
  import opened Wrappers

  /** `segments.join([sep])`: the segments with one separator between neighbours. */
  function Join(segments: seq<string>, sep: char): string
  {
    if segments == [] then ""
    else if |segments| == 1 then segments[0]
    else segments[0] + [sep] + Join(segments[1..], sep)
  }

  /**
   * `s.split(sep)`: the maximal separator-free pieces of `s`, in order. An empty
   * string splits into one empty piece, and every separator starts a new piece.
   */
  function Split(s: string, sep: char): (r: seq<string>)
    ensures |r| >= 1
    ensures Join(r, sep) == s
    ensures forall i :: 0 <= i < |r| ==> sep !in r[i]
  {
    if s == [] then [""]
    else
      var rest := Split(s[1..], sep);
      if s[0] == sep then
        assert s == [sep] + s[1..];
        [""] + rest
      else
        var r := [[s[0]] + rest[0]] + rest[1..];
        assert r[1..] == rest[1..];
        if |rest| == 1 then
          assert s == [s[0]] + s[1..];
          r
        else
          assert rest == [rest[0]] + rest[1..];
          assert Join(rest, sep) == rest[0] + [sep] + Join(rest[1..], sep);
          assert s == [s[0]] + s[1..];
          r
  }

  /** `a.pop()`: the last element (`None` on an empty array) and what remains. */
  function Pop<T>(a: seq<T>): (r: (Option<T>, seq<T>))
    ensures a == [] ==> r == (None, [])
    ensures a != [] ==> r.0 == Some(a[|a| - 1]) && r.1 + [a[|a| - 1]] == a
    ensures a != [] ==> |r.1| == |a| - 1 && forall i :: 0 <= i < |r.1| ==> r.1[i] == a[i]
  {
    if a == [] then (None, []) else (Some(a[|a| - 1]), a[..|a| - 1])
  }

  /** Joining two non-empty lists is joining their joins. */
  lemma {:induction false} JoinAppend(a: seq<string>, b: seq<string>, sep: char)
    requires a != [] && b != []
    ensures Join(a + b, sep) == Join(a, sep) + [sep] + Join(b, sep)
  {
    if |a| == 1 {
      assert (a + b)[1..] == b;
    } else {
      assert (a + b)[1..] == a[1..] + b;
      JoinAppend(a[1..], b, sep);
    }
  }

  /** Splitting at a separator splits the two sides independently. */
  lemma {:induction false} SplitAppend(x: string, y: string, sep: char)
    ensures Split(x + [sep] + y, sep) == Split(x, sep) + Split(y, sep)
  {
    if x == [] {
      assert x + [sep] + y == [sep] + y;
      assert ([sep] + y)[1..] == y;
    } else {
      assert (x + [sep] + y)[0] == x[0];
      assert (x + [sep] + y)[1..] == x[1..] + [sep] + y;
      SplitAppend(x[1..], y, sep);
    }
  }

  /**
   * A join of separator-free segments determines the segments: `Split`
   * undoes `Join`.
   */
  lemma {:induction false} SplitJoin(segments: seq<string>, sep: char)
    requires segments != []
    requires forall i :: 0 <= i < |segments| ==> sep !in segments[i]
    ensures Split(Join(segments, sep), sep) == segments
  {
    if |segments| == 1 {
      NoSeparatorSplit(segments[0], sep);
    } else {
      NoSeparatorSplit(segments[0], sep);
      SplitJoin(segments[1..], sep);
      SplitAppend(segments[0], Join(segments[1..], sep), sep);
      assert segments == [segments[0]] + segments[1..];
    }
  }

  /** A separator-free string is a single piece. */
  lemma {:induction false} NoSeparatorSplit(s: string, sep: char)
    requires sep !in s
    ensures Split(s, sep) == [s]
  {
    if s != [] {
      assert sep !in s[1..] by {
        forall i | 0 <= i < |s[1..]| ensures s[1..][i] != sep { assert s[1..][i] == s[i + 1]; }
      }
      NoSeparatorSplit(s[1..], sep);
      assert [s[0]] + s[1..] == s;
    }
  }
}
