// The stable sort the source relies on, by a comparison of keys.
module Sorting {
  ghost predicate TotalPreorder<T(!new)>(leq: (T, T) -> bool) {
    && (forall x, y :: leq(x, y) || leq(y, x))
    && (forall x, y, z :: leq(x, y) && leq(y, z) ==> leq(x, z))
  }

  ghost predicate Ordered<T>(leq: (T, T) -> bool, s: seq<T>) {
    forall i, j :: 0 <= i < j < |s| ==> leq(s[i], s[j])
  }

  // x goes behind everything it does not have to precede.
  function Insert<T>(leq: (T, T) -> bool, s: seq<T>, x: T): seq<T> {
    if s == [] || leq(s[|s| - 1], x) then s + [x]
    else Insert(leq, s[..|s| - 1], x) + [s[|s| - 1]]
  }

  function Sort<T>(leq: (T, T) -> bool, s: seq<T>): seq<T> {
    if s == [] then [] else Insert(leq, Sort(leq, s[..|s| - 1]), s[|s| - 1])
  }

  lemma {:induction false} InsertPermutes<T>(leq: (T, T) -> bool, s: seq<T>, x: T)
    ensures multiset(Insert(leq, s, x)) == multiset(s) + multiset{x}
  {
    if s != [] && !leq(s[|s| - 1], x) {
      InsertPermutes(leq, s[..|s| - 1], x);
      assert s == s[..|s| - 1] + [s[|s| - 1]];
    }
  }

  lemma {:induction false} SortPermutes<T>(leq: (T, T) -> bool, s: seq<T>)
    ensures multiset(Sort(leq, s)) == multiset(s)
  {
    if s != [] {
      SortPermutes(leq, s[..|s| - 1]);
      InsertPermutes(leq, Sort(leq, s[..|s| - 1]), s[|s| - 1]);
      assert s == s[..|s| - 1] + [s[|s| - 1]];
    }
  }

  lemma SortLength<T>(leq: (T, T) -> bool, s: seq<T>)
    ensures |Sort(leq, s)| == |s|
  {
    SortPermutes(leq, s);
    assert |multiset(Sort(leq, s))| == |multiset(s)|;
  }

  lemma SortMembers<T>(leq: (T, T) -> bool, s: seq<T>)
    ensures forall x :: x in Sort(leq, s) <==> x in s
  {
    SortPermutes(leq, s);
    assert forall x :: x in Sort(leq, s) <==> x in multiset(Sort(leq, s));
  }

  lemma {:induction false} InsertOrders<T(!new)>(leq: (T, T) -> bool, s: seq<T>, x: T)
    requires TotalPreorder(leq) && Ordered(leq, s)
    ensures Ordered(leq, Insert(leq, s, x))
    ensures forall y :: y in Insert(leq, s, x) ==> y in s || y == x
  {
    if s != [] && !leq(s[|s| - 1], x) {
      var last := s[|s| - 1];
      InsertOrders(leq, s[..|s| - 1], x);
      var front := Insert(leq, s[..|s| - 1], x);
      forall i | 0 <= i < |front|
        ensures leq(front[i], last)
      {
        assert front[i] in front;
        if front[i] != x {
          var k :| 0 <= k < |s| - 1 && s[k] == front[i];
        }
      }
    } else if s != [] {
      forall i | 0 <= i < |s|
        ensures leq(s[i], x)
      {
        assert i == |s| - 1 || leq(s[i], s[|s| - 1]);
      }
    }
  }

  lemma {:induction false} SortOrders<T(!new)>(leq: (T, T) -> bool, s: seq<T>)
    requires TotalPreorder(leq)
    ensures Ordered(leq, Sort(leq, s))
  {
    if s != [] {
      SortOrders(leq, s[..|s| - 1]);
      InsertOrders(leq, Sort(leq, s[..|s| - 1]), s[|s| - 1]);
    }
  }

  // The elements that rank with z, in order.
  function Alike<T>(leq: (T, T) -> bool, s: seq<T>, z: T): seq<T> {
    if s == [] then []
    else
      var before := Alike(leq, s[..|s| - 1], z);
      var y := s[|s| - 1];
      if leq(y, z) && leq(z, y) then before + [y] else before
  }

  lemma AlikeMore<T>(leq: (T, T) -> bool, s: seq<T>, x: T, z: T)
    ensures Alike(leq, s + [x], z) == Alike(leq, s, z) + if leq(x, z) && leq(z, x) then [x] else []
  {
    assert (s + [x])[..|s|] == s;
  }

  lemma {:induction false} InsertIsStable<T(!new)>(leq: (T, T) -> bool, s: seq<T>, x: T, z: T)
    requires TotalPreorder(leq)
    ensures Alike(leq, Insert(leq, s, x), z) == Alike(leq, s, z) + if leq(x, z) && leq(z, x) then [x] else []
  {
    if s == [] || leq(s[|s| - 1], x) {
      AlikeMore(leq, s, x, z);
    } else {
      InsertIsStable(leq, s[..|s| - 1], x, z);
      AlikeMore(leq, Insert(leq, s[..|s| - 1], x), s[|s| - 1], z);
    }
  }

  // Elements that rank alike keep their order.
  lemma {:induction false} SortIsStable<T(!new)>(leq: (T, T) -> bool, s: seq<T>, z: T)
    requires TotalPreorder(leq)
    ensures Alike(leq, Sort(leq, s), z) == Alike(leq, s, z)
  {
    if s != [] {
      SortIsStable(leq, s[..|s| - 1], z);
      InsertIsStable(leq, Sort(leq, s[..|s| - 1]), s[|s| - 1], z);
    }
  }

  // Sorting an ordered sequence changes nothing, not even among equal keys.
  lemma {:induction false} SortOfOrdered<T>(leq: (T, T) -> bool, s: seq<T>)
    requires Ordered(leq, s)
    ensures Sort(leq, s) == s
  {
    if s != [] {
      var front := s[..|s| - 1];
      SortOfOrdered(leq, front);
      assert s == front + [s[|s| - 1]];
      if front != [] {
        assert leq(s[|s| - 2], s[|s| - 1]);
      }
    }
  }
}
