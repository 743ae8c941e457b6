/** Ordering rows by a numeric column, largest first (`ORDER BY column DESC`), and taking a
    page of them (`OFFSET skip LIMIT take`). */
module Sorting {

  predicate Descending<T>(key: T -> int, s: seq<T>) {
    forall i, j :: 0 <= i < j < |s| ==> key(s[i]) >= key(s[j])
  }

  /** Puts `x` in front of the first element whose key is not larger. */
  function Insert<T>(key: T -> int, x: T, s: seq<T>): (out: seq<T>)
    requires Descending(key, s)
    ensures Descending(key, out)
    ensures multiset(out) == multiset(s) + multiset{x}
  {
    if s == [] || key(x) >= key(s[0]) then [x] + s
    else
      TailDescending(key, s);
      var rest := Insert(key, x, s[1..]);
      HeadFirst(key, s[0], s[1..], x, rest);
      [s[0]] + rest
  }

  /** The tail of a descending sequence is descending. */
  lemma TailDescending<T>(key: T -> int, s: seq<T>)
    requires s != [] && Descending(key, s)
    ensures s == [s[0]] + s[1..] && Descending(key, s[1..])
  {
    assert s == [s[0]] + s[1..];
  }

  /** An element at least as large as every element of `s` and as `x` can go in front of any
      arrangement of them. */
  lemma HeadFirst<T>(key: T -> int, h: T, s: seq<T>, x: T, rest: seq<T>)
    requires Descending(key, [h] + s)
    requires key(h) >= key(x)
    requires Descending(key, rest)
    requires multiset(rest) == multiset(s) + multiset{x}
    ensures Descending(key, [h] + rest)
    ensures multiset([h] + rest) == multiset([h] + s) + multiset{x}
  {
    forall j | 0 <= j < |rest|
      ensures key(h) >= key(rest[j])
    {
      assert rest[j] in multiset(rest);
      if rest[j] != x {
        assert rest[j] in multiset(s);
        var m :| 0 <= m < |s| && s[m] == rest[j];
        assert ([h] + s)[0] == h && ([h] + s)[m + 1] == rest[j];
        assert key(([h] + s)[0]) >= key(([h] + s)[m + 1]);
      }
    }
    var out := [h] + rest;
    forall i, j | 0 <= i < j < |out|
      ensures key(out[i]) >= key(out[j])
    {
      if i > 0 {
        assert out[i] == rest[i - 1] && out[j] == rest[j - 1];
      } else {
        assert out[j] == rest[j - 1];
      }
    }
  }

  /** Insertion sort, largest key first. */
  function SortDescending<T>(key: T -> int, s: seq<T>): (out: seq<T>)
    ensures Descending(key, out)
    ensures multiset(out) == multiset(s)
  {
    if s == [] then []
    else
      assert s == [s[0]] + s[1..];
      Insert(key, s[0], SortDescending(key, s[1..]))
  }

  /** Sorting keeps the length and the elements. */
  lemma SortKeeps<T>(key: T -> int, s: seq<T>)
    ensures |SortDescending(key, s)| == |s|
    ensures forall x :: x in SortDescending(key, s) <==> x in s
  {
    var out := SortDescending(key, s);
    assert |out| == |multiset(out)| == |multiset(s)| == |s|;
    forall x
      ensures x in out <==> x in s
    {
      assert x in out <==> x in multiset(out);
      assert x in s <==> x in multiset(s);
    }
  }

  /** `x`, but no more than `n`. */
  function AtMost(x: int, n: int): int {
    if x <= n then x else n
  }

  /** `OFFSET skip LIMIT take`: the elements from position `skip` on, `take` of them or as
      many as remain, none when `skip` is past the end. */
  function Window<T>(s: seq<T>, skip: nat, take: nat): (w: seq<T>)
    ensures |w| <= take
    ensures |w| == if skip >= |s| then 0 else if skip + take <= |s| then take else |s| - skip
    ensures forall k :: 0 <= k < |w| ==> skip + k < |s| && w[k] == s[skip + k]
  {
    s[AtMost(skip, |s|)..AtMost(skip + take, |s|)]
  }

  /** A page of a descending sequence is descending, and is a run of consecutive elements
      of it starting at `skip`. */
  lemma WindowOfDescending<T>(key: T -> int, s: seq<T>, skip: nat, take: nat)
    requires Descending(key, s)
    ensures Descending(key, Window(s, skip, take))
    ensures forall k :: 0 <= k < |Window(s, skip, take)| ==> skip + k < |s| && Window(s, skip, take)[k] == s[skip + k]
    ensures |Window(s, skip, take)| == if skip >= |s| then 0 else if skip + take <= |s| then take else |s| - skip
  {
    var w := Window(s, skip, take);
    forall i, j | 0 <= i < j < |w|
      ensures key(w[i]) >= key(w[j])
    {
      assert w[i] == s[skip + i] && w[j] == s[skip + j];
    }
  }
}
