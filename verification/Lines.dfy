/** Separator-terminated text: how a byte or character stream divides into segments. */
module Lines {

  type Byte = b: int | 0 <= b < 256

  const NEWLINE: Byte := 10
  const RETURN: Byte := 13

  /** The runs between separators; `n` separators give `n + 1` runs, some of them empty. */
  function Split<T(==)>(s: seq<T>, sep: T): (parts: seq<seq<T>>)
    ensures |parts| >= 1
  {
    if s == [] then [[]]
    else
      var rest := Split(s[1..], sep);
      if s[0] == sep then [[]] + rest else [[s[0]] + rest[0]] + rest[1..]
  }

  /** The inverse of `Split`: the runs with one separator between neighbours. */
  function Join<T>(parts: seq<seq<T>>, sep: T): seq<T>
    requires |parts| >= 1
  {
    if |parts| == 1 then parts[0] else parts[0] + [sep] + Join(parts[1..], sep)
  }

  ghost predicate SepFree<T>(parts: seq<seq<T>>, sep: T) {
    forall i :: 0 <= i < |parts| ==> sep !in parts[i]
  }

  lemma {:induction false} SplitJoin<T>(s: seq<T>, sep: T)
    ensures SepFree(Split(s, sep), sep)
    ensures Join(Split(s, sep), sep) == s
  {
    if s == [] {
    } else {
      var rest := Split(s[1..], sep);
      SplitJoin(s[1..], sep);
      if s[0] == sep {
        assert ([[]] + rest)[1..] == rest;
      } else {
        var parts := [[s[0]] + rest[0]] + rest[1..];
        assert parts[1..] == rest[1..];
        forall i | 0 <= i < |parts| ensures sep !in parts[i] {
          assert sep !in rest[i];
        }
      }
    }
  }

  lemma {:induction false} SplitSepFree<T>(s: seq<T>, sep: T)
    requires sep !in s
    ensures Split(s, sep) == [s]
  {
    if s != [] {
      SplitSepFree(s[1..], sep);
      assert [s[0]] + s[1..] == s;
    }
  }

  /** Two lists of runs laid end to end: the last run of `p` continues in the first of `q`. */
  function Glue<T>(p: seq<seq<T>>, q: seq<seq<T>>): (r: seq<seq<T>>)
    requires |p| >= 1 && |q| >= 1
    ensures |r| == |p| + |q| - 1
  {
    p[..|p| - 1] + [p[|p| - 1] + q[0]] + q[1..]
  }

  lemma GlueEmptyRun<T>(p: seq<seq<T>>, q: seq<seq<T>>)
    requires |p| >= 1 && |q| >= 1
    ensures Glue([[]] + p, q) == [[]] + Glue(p, q)
  {
    var p1: seq<seq<T>> := [[]] + p;
    assert p1[..|p1| - 1] == [[]] + p[..|p| - 1];
  }

  lemma GlueLonger<T>(c: T, p: seq<seq<T>>, q: seq<seq<T>>)
    requires |p| >= 1 && |q| >= 1
    ensures Glue([[c] + p[0]] + p[1..], q) == [[c] + Glue(p, q)[0]] + Glue(p, q)[1..]
  {
    var p1 := [[c] + p[0]] + p[1..];
    if |p| == 1 {
      assert [c] + (p[0] + q[0]) == p1[0] + q[0];
    } else {
      assert p1[..|p1| - 1] == [p1[0]] + p[1..|p| - 1];
      assert Glue(p, q)[1..] == p[1..|p| - 1] + [p[|p| - 1] + q[0]] + q[1..];
    }
  }

  /** Splitting a concatenation only joins the two runs that meet. */
  lemma {:induction false} SplitConcat<T>(a: seq<T>, b: seq<T>, sep: T)
    ensures Split(a + b, sep) == Glue(Split(a, sep), Split(b, sep))
  {
    if a == [] {
      assert a + b == b;
      var q := Split(b, sep);
      assert [] + q[0] == q[0];
    } else {
      SplitConcat(a[1..], b, sep);
      assert (a + b)[1..] == a[1..] + b;
      assert (a + b)[0] == a[0];
      var p', q := Split(a[1..], sep), Split(b, sep);
      if a[0] == sep {
        GlueEmptyRun(p', q);
      } else {
        GlueLonger(a[0], p', q);
      }
    }
  }

  /** A separator-free run, then a separator, then the rest. */
  lemma SplitAtSep<T>(run: seq<T>, rest: seq<T>, sep: T)
    requires sep !in run
    ensures Split(run + [sep] + rest, sep) == [run] + Split(rest, sep)
  {
    var tail := [sep] + rest;
    assert tail[1..] == rest;
    assert run + [sep] + rest == run + tail;
    SplitSepFree(run, sep);
    SplitConcat(run, tail, sep);
    GlueRun(run, Split(rest, sep));
  }

  lemma GlueRun<T>(run: seq<T>, q: seq<seq<T>>)
    ensures Glue([run], [[]] + q) == [run] + q
  {
    assert run + [] == run;
  }

  /** Every terminated line of a stream; what follows the last separator is not one. */
  function Terminated<T(==)>(s: seq<T>, sep: T): seq<seq<T>> {
    var parts := Split(s, sep);
    parts[..|parts| - 1]
  }

  /** The bytes after the last separator. */
  function Remainder<T(==)>(s: seq<T>, sep: T): seq<T> {
    var parts := Split(s, sep);
    parts[|parts| - 1]
  }

  /** The remainder is what follows the last separator, if there is one. */
  lemma RemainderIsSuffix<T>(s: seq<T>, sep: T)
    ensures var rest := Remainder(s, sep);
            && |rest| <= |s| && s[|s| - |rest|..] == rest && sep !in rest
            && (|rest| < |s| ==> s[|s| - |rest| - 1] == sep)
  {
    var parts := Split(s, sep);
    SplitJoin(s, sep);
    JoinLast(parts, sep);
    if |parts| > 1 {
      var front := Join(parts[..|parts| - 1], sep) + [sep];
      assert s == front + parts[|parts| - 1];
    }
  }

  lemma {:induction false} JoinLast<T>(parts: seq<seq<T>>, sep: T)
    requires |parts| >= 1
    ensures |parts| > 1 ==>
      Join(parts, sep) == Join(parts[..|parts| - 1], sep) + [sep] + parts[|parts| - 1]
  {
    if |parts| == 2 {
      assert parts[1..] == [parts[1]] && parts[..1] == [parts[0]];
    } else if |parts| > 2 {
      var rest, front := parts[1..], parts[..|parts| - 1];
      JoinLast(rest, sep);
      assert front[1..] == rest[..|rest| - 1];
      var middle, last := Join(front[1..], sep), parts[|parts| - 1];
      assert parts[0] + [sep] + (middle + [sep] + last) == parts[0] + [sep] + middle + [sep] + last;
    }
  }

  /** The concatenation of a list of lists. */
  function Flatten<T>(parts: seq<seq<T>>): seq<T> {
    if parts == [] then [] else parts[0] + Flatten(parts[1..])
  }

  lemma ConcatAssoc<T>(a: seq<T>, b: seq<T>, c: seq<T>)
    ensures (a + b) + c == a + (b + c)
  {}

  lemma {:induction false} FlattenConcat<T>(a: seq<seq<T>>, b: seq<seq<T>>)
    ensures Flatten(a + b) == Flatten(a) + Flatten(b)
  {
    if a == [] {
      assert a + b == b;
    } else {
      FlattenConcat(a[1..], b);
      assert (a + b)[1..] == a[1..] + b;
      ConcatAssoc(a[0], Flatten(a[1..]), Flatten(b));
    }
  }

  lemma FlattenStep<T>(before: seq<T>, parts: seq<seq<T>>, i: nat)
    requires i < |parts|
    ensures before + parts[i] + Flatten(parts[i + 1..]) == before + Flatten(parts[i..])
  {
    assert parts[i..][1..] == parts[i + 1..];
    ConcatAssoc(before, parts[i], Flatten(parts[i + 1..]));
  }

  /** A chunk that holds no separator before its last element ends or extends one line. */
  lemma SplitPart<T>(s: seq<T>, part: seq<T>, sep: T)
    requires part != [] && sep !in part[..|part| - 1]
    ensures part[|part| - 1] != sep ==>
              Terminated(s + part, sep) == Terminated(s, sep) &&
              Remainder(s + part, sep) == Remainder(s, sep) + part
    ensures part[|part| - 1] == sep ==>
              Terminated(s + part, sep) == Terminated(s, sep) + [Remainder(s, sep) + part[..|part| - 1]] &&
              Remainder(s + part, sep) == []
  {
    var body, end := part[..|part| - 1], part[|part| - 1];
    SplitConcat(s, part, sep);
    assert part == body + [end];
    if end != sep {
      SplitSepFree(part, sep);
    } else {
      SplitAtSep(body, [], sep);
      assert body + [sep] + [] == part;
    }
  }

  /** The length of the first line, its separator included; a line may lack one only at the end. */
  function LineLength<T(==)>(s: seq<T>, sep: T): (n: nat)
    requires s != []
    ensures 1 <= n <= |s| && sep !in s[..n - 1] && (n < |s| ==> s[n - 1] == sep)
  {
    if s[0] == sep || |s| == 1 then 1
    else
      var n := LineLength(s[1..], sep);
      assert s[..n] == [s[0]] + s[1..][..n - 1];
      1 + n
  }

  /** Iterating over a file: lines keep their separator. */
  function StreamLines<T(==)>(s: seq<T>, sep: T): (lines: seq<seq<T>>)
    decreases |s|
  {
    if s == [] then []
    else
      var n := LineLength(s, sep);
      [s[..n]] + StreamLines(s[n..], sep)
  }

  lemma {:induction false} LineLengthConcat<T>(a: seq<T>, b: seq<T>, sep: T)
    requires a != [] && a[|a| - 1] == sep
    ensures LineLength(a + b, sep) == LineLength(a, sep)
    decreases |a|
  {
    if a[0] != sep {
      LineLengthConcat(a[1..], b, sep);
      assert (a + b)[1..] == a[1..] + b;
    }
  }

  lemma {:induction false} StreamLinesConcat<T>(a: seq<T>, b: seq<T>, sep: T)
    requires a != [] && a[|a| - 1] == sep
    ensures StreamLines(a + b, sep) == StreamLines(a, sep) + StreamLines(b, sep)
    decreases |a|
  {
    var n := LineLength(a, sep);
    LineLengthConcat(a, b, sep);
    SliceConcat(a, b, n);
    if n < |a| {
      assert a[n..][|a[n..]| - 1] == sep;
      StreamLinesConcat(a[n..], b, sep);
      ConcatAssoc([a[..n]], StreamLines(a[n..], sep), StreamLines(b, sep));
    } else {
      assert a[n..] == [];
      assert a[n..] + b == b;
    }
  }

  lemma SliceConcat<T>(a: seq<T>, b: seq<T>, n: nat)
    requires n <= |a|
    ensures (a + b)[..n] == a[..n] && (a + b)[n..] == a[n..] + b
  {}
}
