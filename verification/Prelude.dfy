// Small definitions shared by the other modules.
module Prelude {

  datatype Option<+T> = None | Some(value: T) {
    function GetOr(default: T): T {
      match this
      case Some(v) => v
      case None => default
    }
  }

  datatype Result<+T> = Success(value: T) | Failure(error: string)

  function Max(a: int, b: int): int {
    if a >= b then a else b
  }

  function MaxReal(a: real, b: real): real {
    if a >= b then a else b
  }

  function MinReal(a: real, b: real): real {
    if a <= b then a else b
  }

  function Abs(x: real): real {
    if x < 0.0 then -x else x
  }

  ghost predicate NoDuplicates<T>(s: seq<T>) {
    forall i, j :: 0 <= i < j < |s| ==> s[i] != s[j]
  }

  function Elements<T>(s: seq<T>): set<T> {
    set x | x in s
  }

  lemma MemberAt<T>(s: seq<T>, x: T) returns (k: nat)
    requires x in s
    ensures k < |s| && s[k] == x
  {
    k :| k < |s| && s[k] == x;
  }

  // A sequence without duplicates is as long as its set of elements is large.
  lemma {:induction false} DistinctLength<T>(s: seq<T>)
    requires NoDuplicates(s)
    ensures |Elements(s)| == |s|
  {
    if s != [] {
      var n := |s| - 1;
      DistinctLength(s[..n]);
      assert s == s[..n] + [s[n]];
      assert Elements(s) == Elements(s[..n]) + {s[n]};
    }
  }

  // A set of integers in [lo, hi) has at most hi - lo members.
  lemma {:induction false} RangeSize(s: set<int>, lo: int, hi: int)
    requires lo <= hi
    requires forall x :: x in s ==> lo <= x < hi
    ensures |s| <= hi - lo
    decreases hi - lo
  {
    if lo == hi {
      assert s == {};
    } else {
      var rest := s - {hi - 1};
      RangeSize(rest, lo, hi - 1);
      assert s <= rest + {hi - 1};
      SubsetSize(s, rest + {hi - 1});
    }
  }

  lemma {:induction false} SubsetSize<T>(a: set<T>, b: set<T>)
    requires a <= b
    ensures |a| <= |b|
    decreases a
  {
    if a != {} {
      var x :| x in a;
      SubsetSize(a - {x}, b - {x});
    }
  }

  // The keys that are left when a dictionary drops one.
  function Without(ids: seq<int>, id: int): seq<int> {
    if ids == [] then []
    else
      var rest := Without(ids[..|ids| - 1], id);
      if ids[|ids| - 1] == id then rest else rest + [ids[|ids| - 1]]
  }

  lemma {:induction false} WithoutMembers(ids: seq<int>, id: int)
    requires NoDuplicates(ids)
    ensures NoDuplicates(Without(ids, id))
    ensures forall x :: x in Without(ids, id) <==> x in ids && x != id
  {
    if ids != [] {
      var n := |ids| - 1;
      WithoutMembers(ids[..n], id);
      assert ids == ids[..n] + [ids[n]];
      assert ids[n] !in ids[..n];
      var rest := Without(ids[..n], id);
      assert NoDuplicates(rest + [ids[n]]);
    }
  }

  lemma {:induction false} WithoutSubset(ids: seq<int>, id: int)
    ensures forall x :: x in Without(ids, id) ==> x in ids && x != id
  {
    if ids != [] {
      WithoutSubset(ids[..|ids| - 1], id);
    }
  }

  // ----- numbers as text -----

  function Digit(n: nat): char
    requires n < 10
  {
    "0123456789"[n]
  }

  function Decimal(n: int): string
    decreases if n < 0 then 1 - n else n
  {
    if n < 0 then "-" + Decimal(-n)
    else if n < 10 then [Digit(n)]
    else Decimal(n / 10) + [Digit(n % 10)]
  }
}
