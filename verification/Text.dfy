/** Splitting and joining on a one-symbol separator, as Go's strings.Split and JavaScript's String.split do. */
module Text {
  /** `s` contains no occurrence of `sep`. */
  predicate Free<T(==)>(s: seq<T>, sep: T) {
    forall i | 0 <= i < |s| :: s[i] != sep
  }

  function Split<T(==)>(s: seq<T>, sep: T): (parts: seq<seq<T>>)
    ensures |parts| > 0
  {
    if s == [] then [[]]
    else
      var rest := Split(s[1..], sep);
      if s[0] == sep then [[]] + rest else [[s[0]] + rest[0]] + rest[1..]
  }

  function Join<T>(parts: seq<seq<T>>, sep: T): seq<T>
    requires |parts| > 0
  {
    if |parts| == 1 then parts[0] else parts[0] + [sep] + Join(parts[1..], sep)
  }

  lemma JoinCons<T>(head: seq<T>, rest: seq<seq<T>>, sep: T)
    requires |rest| > 0
    ensures Join([head] + rest, sep) == head + [sep] + Join(rest, sep)
  {
    assert ([head] + rest)[1..] == rest;
  }

  lemma JoinPair<T>(a: seq<T>, b: seq<T>, sep: T)
    ensures Join([a, b], sep) == a + [sep] + b
  {
    assert [a, b][1..] == [b];
  }

  lemma JoinThree<T>(a: seq<T>, b: seq<T>, c: seq<T>, sep: T)
    ensures Join([a, b, c], sep) == a + [sep] + b + [sep] + c
  {
    JoinPair(b, c, sep);
    JoinCons(a, [b, c], sep);
    assert [a] + [b, c] == [a, b, c];
  }

  lemma {:induction false} SplitFree<T>(s: seq<T>, sep: T)
    requires Free(s, sep)
    ensures Split(s, sep) == [s]
  {
    if s != [] {
      SplitFree(s[1..], sep);
      assert [s[0]] + s[1..] == s;
    }
  }

  lemma {:induction false} SplitHead<T>(head: seq<T>, sep: T, tail: seq<T>)
    requires Free(head, sep)
    ensures Split(head + [sep] + tail, sep) == [head] + Split(tail, sep)
  {
    var s := head + [sep] + tail;
    if head == [] {
      assert s[1..] == tail;
    } else {
      assert s[1..] == head[1..] + [sep] + tail;
      SplitHead(head[1..], sep, tail);
      assert [head[0]] + head[1..] == head;
    }
  }

  /** Splitting undoes joining when no part contains the separator. */
  lemma {:induction false} SplitJoin<T>(parts: seq<seq<T>>, sep: T)
    requires |parts| > 0
    requires forall i | 0 <= i < |parts| :: Free(parts[i], sep)
    ensures Split(Join(parts, sep), sep) == parts
  {
    if |parts| == 1 {
      SplitFree(parts[0], sep);
    } else {
      SplitHead(parts[0], sep, Join(parts[1..], sep));
      SplitJoin(parts[1..], sep);
    }
  }

  /** How often a symbol occurs. */
  function Count<T(==)>(s: seq<T>, x: T): nat {
    if s == [] then 0 else (if s[0] == x then 1 else 0) + Count(s[1..], x)
  }

  /** There is one part more than there are separators. */
  lemma {:induction false} SplitCounts<T>(s: seq<T>, sep: T)
    ensures |Split(s, sep)| == 1 + Count(s, sep)
  {
    if s != [] {
      SplitCounts(s[1..], sep);
    }
  }
}
