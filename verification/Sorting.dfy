/** Python's stable `sorted`, as insertion sort. */
module Sorting {

  ghost predicate TotalOrder<T(!new)>(leq: (T, T) -> bool)
  {
    && (forall a, b :: leq(a, b) || leq(b, a))
    && (forall a, b, c :: leq(a, b) && leq(b, c) ==> leq(a, c))
  }

  predicate Ordered<T>(s: seq<T>, leq: (T, T) -> bool)
  {
    forall i, j :: 0 <= i < j < |s| ==> leq(s[i], s[j])
  }

  function Insert<T(!new)>(x: T, s: seq<T>, leq: (T, T) -> bool): (r: seq<T>)
    ensures |r| == |s| + 1
    ensures forall y :: y in r <==> y == x || y in s
  {
    if s == [] then [x]
    else if leq(x, s[0]) then [x] + s
    else
      assert forall y :: y in s <==> y == s[0] || y in s[1..];
      [s[0]] + Insert(x, s[1..], leq)
  }

  function Sort<T(!new)>(s: seq<T>, leq: (T, T) -> bool): (r: seq<T>)
    ensures |r| == |s|
    ensures forall y :: y in r <==> y in s
  {
    if s == [] then []
    else
      assert forall y :: y in s <==> y == s[0] || y in s[1..];
      Insert(s[0], Sort(s[1..], leq), leq)
  }

  lemma {:induction false} InsertOrdered<T(!new)>(x: T, s: seq<T>, leq: (T, T) -> bool)
    requires TotalOrder(leq) && Ordered(s, leq)
    ensures Ordered(Insert(x, s, leq), leq)
  {
    if s != [] && !leq(x, s[0]) {
      var r := Insert(x, s[1..], leq);
      InsertOrdered(x, s[1..], leq);
      forall j | 0 <= j < |r| ensures leq(s[0], r[j]) {
        assert r[j] in r;
      }
    }
  }

  lemma {:induction false} SortOrdered<T(!new)>(s: seq<T>, leq: (T, T) -> bool)
    requires TotalOrder(leq)
    ensures Ordered(Sort(s, leq), leq)
  {
    if s != [] {
      SortOrdered(s[1..], leq);
      InsertOrdered(s[0], Sort(s[1..], leq), leq);
    }
  }

  ghost predicate DistinctKeys<T, K>(s: seq<T>, key: T -> K)
  {
    forall i, j :: 0 <= i < j < |s| ==> key(s[i]) != key(s[j])
  }

  lemma DistinctCons<T, K>(x: T, s: seq<T>, key: T -> K)
    requires DistinctKeys(s, key) && forall j :: 0 <= j < |s| ==> key(s[j]) != key(x)
    ensures DistinctKeys([x] + s, key)
  {
    var r := [x] + s;
    forall i, j | 0 <= i < j < |r| ensures key(r[i]) != key(r[j]) {
      assert r[j] == s[j - 1];
      if i > 0 { assert r[i] == s[i - 1]; }
    }
  }

  lemma DistinctTail<T, K>(s: seq<T>, key: T -> K)
    requires DistinctKeys(s, key) && s != []
    ensures DistinctKeys(s[1..], key) && forall y :: y in s[1..] ==> key(y) != key(s[0])
  {
    forall i, j | 0 <= i < j < |s[1..]| ensures key(s[1..][i]) != key(s[1..][j]) {
      assert s[1..][i] == s[i + 1] && s[1..][j] == s[j + 1];
    }
    forall j | 0 <= j < |s[1..]| ensures key(s[1..][j]) != key(s[0]) {
      assert s[1..][j] == s[j + 1];
    }
  }

  /** Distinct keys stay distinct. */
  lemma {:induction false} SortKeepsDistinct<T(!new), K>(s: seq<T>, leq: (T, T) -> bool, key: T -> K)
    requires DistinctKeys(s, key)
    ensures DistinctKeys(Sort(s, leq), key)
  {
    if s != [] {
      DistinctTail(s, key);
      SortKeepsDistinct(s[1..], leq, key);
      InsertKeepsDistinct(s[0], Sort(s[1..], leq), leq, key);
    }
  }

  lemma {:induction false} InsertKeepsDistinct<T(!new), K>(x: T, s: seq<T>, leq: (T, T) -> bool, key: T -> K)
    requires DistinctKeys(s, key)
    requires forall y :: y in s ==> key(y) != key(x)
    ensures DistinctKeys(Insert(x, s, leq), key)
  {
    if s == [] {
    } else if leq(x, s[0]) {
      DistinctCons(x, s, key);
    } else {
      DistinctTail(s, key);
      InsertKeepsDistinct(x, s[1..], leq, key);
      assert s[0] in s;
      DistinctCons(s[0], Insert(x, s[1..], leq), key);
    }
  }

  // --------------------------------------------------------------------- unique order

  ghost predicate Antisymmetric<K(!new)>(leq: (K, K) -> bool)
  {
    forall a, b :: leq(a, b) && leq(b, a) ==> a == b
  }

  ghost predicate AllDiffer<K>(s: seq<K>)
  {
    forall i, j :: 0 <= i < j < |s| ==> s[i] != s[j]
  }

  lemma TailHas<K>(s: seq<K>, k: K)
    requires s != [] && AllDiffer(s)
    ensures k in s[1..] <==> k in s && k != s[0]
  {
    if k in s && k != s[0] {
      var i :| 0 <= i < |s| && s[i] == k;
      assert s[1..][i - 1] == k;
    }
    if k in s[1..] {
      var i :| 0 <= i < |s[1..]| && s[1..][i] == k;
      assert s[i + 1] == k;
    }
  }

  lemma FirstIsLeast<K>(s: seq<K>, leq: (K, K) -> bool, k: K)
    requires s != [] && Ordered(s, leq) && k in s
    ensures k == s[0] || leq(s[0], k)
  {
  }

  /** Two ordered lists of the same different keys are one. */
  lemma {:induction false} OrderedIsUnique<K(!new)>(s: seq<K>, t: seq<K>, leq: (K, K) -> bool)
    requires Antisymmetric(leq) && Ordered(s, leq) && Ordered(t, leq) && AllDiffer(s) && AllDiffer(t)
    requires forall k :: k in s <==> k in t
    ensures s == t
  {
    if s == [] {
      assert forall i :: 0 <= i < |t| ==> t[i] in s;
    } else {
      assert s[0] in t;
      assert t[0] in s;
      FirstIsLeast(s, leq, t[0]);
      FirstIsLeast(t, leq, s[0]);
      assert s[0] == t[0];
      forall k
        ensures k in s[1..] <==> k in t[1..]
      {
        TailHas(s, k);
        TailHas(t, k);
      }
      OrderedIsUnique(s[1..], t[1..], leq);
      assert s == [s[0]] + s[1..] && t == [t[0]] + t[1..];
    }
  }
}
