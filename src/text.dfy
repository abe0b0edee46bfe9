/** String helpers shared by the adapters: joining lines, splitting, repetition, containment. */
module Text {

  /** Rust's `parts.join(sep)`: the parts with `sep` between neighbours. */
  function Join(parts: seq<string>, sep: string): (r: string)
    ensures parts == [] ==> r == ""
    ensures |parts| == 1 ==> r == parts[0]
    decreases |parts|
  {
    if parts == [] then ""
    else if |parts| == 1 then parts[0]
    else parts[0] + sep + Join(parts[1..], sep)
  }

  /** Rust's `s.split(sep)`: the pieces between separators; never empty. */
  function Split(s: string, sep: char): (r: seq<string>)
    ensures |r| >= 1
    decreases |s|
  {
    if s == [] then [""]
    else
      var rest := Split(s[1..], sep);
      if s[0] == sep then [""] + rest else [[s[0]] + rest[0]] + rest[1..]
  }

  /** `c.to_string().repeat(n)`. */
  function Repeat(c: char, n: nat): (r: string)
    ensures |r| == n && forall i :: 0 <= i < n ==> r[i] == c
  {
    seq(n, _ => c)
  }

  /** `part` occurs somewhere in `s`, as a contiguous piece (of a string or of a list of lines). */
  predicate Contains<T(==)>(s: seq<T>, part: seq<T>) {
    exists i, j :: 0 <= i <= j <= |s| && s[i..j] == part
  }

  lemma ContainsPiece<T>(a: seq<T>, b: seq<T>, c: seq<T>)
    ensures Contains(a + b + c, b)
  {
    assert (a + b + c)[|a|..|a| + |b|] == b;
  }

  lemma ContainsLeft<T>(a: seq<T>, b: seq<T>, part: seq<T>)
    requires Contains(a, part)
    ensures Contains(a + b, part)
  {
    var i, j :| 0 <= i <= j <= |a| && a[i..j] == part;
    assert (a + b)[i..j] == a[i..j];
  }

  lemma ContainsRight<T>(a: seq<T>, b: seq<T>, part: seq<T>)
    requires Contains(b, part)
    ensures Contains(a + b, part)
  {
    var i, j :| 0 <= i <= j <= |b| && b[i..j] == part;
    assert (a + b)[|a| + i..|a| + j] == b[i..j];
  }

  /** A piece of the middle part is a piece of the whole. */
  lemma ContainsWithin<T>(a: seq<T>, b: seq<T>, c: seq<T>, part: seq<T>)
    requires Contains(b, part)
    ensures Contains(a + b + c, part)
  {
    ContainsPiece(a, b, c);
    ContainsTransitive(a + b + c, b, part);
  }

  /** A piece of a piece of `s` is a piece of `s`. */
  lemma ContainsTransitive<T>(s: seq<T>, part: seq<T>, small: seq<T>)
    requires Contains(s, part) && Contains(part, small)
    ensures Contains(s, small)
  {
    var i, j :| 0 <= i <= j <= |s| && s[i..j] == part;
    var k, l :| 0 <= k <= l <= |part| && part[k..l] == small;
    forall m | 0 <= m < l - k
      ensures s[i + k..i + l][m] == small[m]
    {
      assert small[m] == part[k + m] == s[i + k + m];
    }
    assert s[i + k..i + l] == small;
  }

  /** Splitting at the first separator of `a + [sep] + b`, when `a` holds none. */
  lemma {:induction false} SplitAtFirst(a: string, sep: char, b: string)
    requires sep !in a
    ensures Split(a + [sep] + b, sep) == [a] + Split(b, sep)
    decreases |a|
  {
    if a == [] {
      assert a + [sep] + b == [sep] + b;
      assert ([sep] + b)[1..] == b;
    } else {
      SplitAtFirst(a[1..], sep, b);
      assert (a + [sep] + b)[1..] == a[1..] + [sep] + b;
      assert [a[0]] + a[1..] == a;
    }
  }

  /** A string without separators splits into itself. */
  lemma {:induction false} SplitNoSeparator(a: string, sep: char)
    requires sep !in a
    ensures Split(a, sep) == [a]
    decreases |a|
  {
    if a != [] {
      SplitNoSeparator(a[1..], sep);
      assert [a[0]] + a[1..] == a;
    }
  }

  /** Joining with a one-character separator and splitting on it again gives back the parts. */
  lemma {:induction false} SplitJoin(parts: seq<string>, sep: char)
    requires |parts| >= 1
    requires forall i :: 0 <= i < |parts| ==> sep !in parts[i]
    ensures Split(Join(parts, [sep]), sep) == parts
    decreases |parts|
  {
    if |parts| == 1 {
      SplitNoSeparator(parts[0], sep);
    } else {
      SplitJoin(parts[1..], sep);
      SplitAtFirst(parts[0], sep, Join(parts[1..], [sep]));
      assert [parts[0]] + parts[1..] == parts;
    }
  }
}
