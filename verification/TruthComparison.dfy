// scripts/compare_factory2_app_run_to_truth_ledger.py: the two-pointer
// comparison of an app run with a truth ledger.
module TruthComparison {
  import opened Prelude
  import Sorting

  datatype LedgerEvent = LedgerEvent(name: string, ts: Option<real>, countTotal: Option<int>, runtimeTotal: Option<int>)

  // Events of the report are named by their place in the sorted lists.
  datatype Pair = Pair(truth: nat, observed: nat)

  datatype Divergence =
    | UnexpectedObserved(observed: nat)
    | MissingTruth(truth: nat)
    | IncompleteCoverage(truth: nat)

  datatype Report = Report(
    matched: seq<Pair>,
    missing: seq<nat>,
    pending: seq<nat>,
    unexpected: seq<nat>,
    first: Option<Divergence>)

  const EMPTY := Report([], [], [], [], None)

  datatype Coverage = Coverage(complete: bool, end: Option<real>)

  function Time(e: LedgerEvent): real {
    e.ts.GetOr(0.0)
  }

  function Total(e: LedgerEvent): int {
    if e.countTotal.Some? && e.countTotal.value != 0 then e.countTotal.value else e.runtimeTotal.GetOr(0)
  }

  function NotAfter(a: LedgerEvent, b: LedgerEvent): bool {
    Time(a) < Time(b) || (Time(a) == Time(b) && Total(a) <= Total(b))
  }

  function Times(events: seq<LedgerEvent>): seq<real> {
    seq(|events|, i requires 0 <= i < |events| => Time(events[i]))
  }

  ghost predicate Ascending(ts: seq<real>) {
    forall i, j :: 0 <= i < j < |ts| ==> ts[i] <= ts[j]
  }

  predicate Close(a: real, b: real, tolerance: real) {
    Abs(b - a) <= tolerance
  }

  // ----- the three loops -----

  function Diverged(r: Report, d: Divergence): Report {
    if r.first.None? then r.(first := Some(d)) else r
  }

  function AddUnexpected(r: Report, j: nat): Report {
    Diverged(r, UnexpectedObserved(j)).(unexpected := r.unexpected + [j])
  }

  function AddMissing(r: Report, i: nat): Report {
    Diverged(r, MissingTruth(i)).(missing := r.missing + [i])
  }

  function AddPending(r: Report, i: nat): Report {
    Diverged(r, IncompleteCoverage(i)).(pending := r.pending + [i])
  }

  predicate NotYetCovered(coverage: Coverage, time: real, tolerance: real) {
    !coverage.complete && coverage.end.Some? && time > coverage.end.value + tolerance
  }

  function Walk(truth: seq<real>, observed: seq<real>, tolerance: real, coverage: Coverage,
                i: nat, j: nat, r: Report): Report
    requires i <= |truth| && j <= |observed|
    decreases |truth| - i + |observed| - j
  {
    if i < |truth| && j < |observed| then
      if Close(truth[i], observed[j], tolerance) then
        Walk(truth, observed, tolerance, coverage, i + 1, j + 1, r.(matched := r.matched + [Pair(i, j)]))
      else if observed[j] < truth[i] then
        Walk(truth, observed, tolerance, coverage, i, j + 1, AddUnexpected(r, j))
      else
        Walk(truth, observed, tolerance, coverage, i + 1, j, AddMissing(r, i))
    else if i < |truth| then
      Walk(truth, observed, tolerance, coverage, i + 1, j,
           if NotYetCovered(coverage, truth[i], tolerance) then AddPending(r, i) else AddMissing(r, i))
    else if j < |observed| then
      Walk(truth, observed, tolerance, coverage, i, j + 1, AddUnexpected(r, j))
    else r
  }

  function MaxTime(observed: seq<real>): real
    requires observed != []
  {
    if |observed| == 1 then observed[0]
    else MaxReal(MaxTime(observed[..|observed| - 1]), observed[|observed| - 1])
  }

  // Without a declared end the coverage ends with the last observed event.
  function Effective(coverage: Coverage, observed: seq<real>): Coverage {
    if coverage.end.None? && observed != [] then coverage.(end := Some(MaxTime(observed))) else coverage
  }

  function Compare(truth: seq<LedgerEvent>, observed: seq<LedgerEvent>, tolerance: real, coverage: Coverage): Report {
    var ts := Times(Sorting.Sort(NotAfter, truth));
    var os := Times(Sorting.Sort(NotAfter, observed));
    Walk(ts, os, tolerance, Effective(coverage, os), 0, 0, EMPTY)
  }

  method LatestTime(observed: seq<real>) returns (latest: real)
    requires observed != []
    ensures latest == MaxTime(observed)
    ensures latest in observed && forall t :: t in observed ==> t <= latest
  {
    latest := observed[0];
    for k := 1 to |observed|
      invariant latest == MaxTime(observed[..k])
      invariant latest in observed && forall t :: t in observed[..k] ==> t <= latest
    {
      assert observed[..k + 1][..k] == observed[..k];
      assert observed[..k + 1] == observed[..k] + [observed[k]];
      latest := MaxReal(latest, observed[k]);
    }
    assert observed[..|observed|] == observed;
  }

  method CompareAppRun(truth: seq<LedgerEvent>, observed: seq<LedgerEvent>, tolerance: real, coverage: Coverage)
    returns (r: Report)
    ensures r == Compare(truth, observed, tolerance, coverage)
  {
    hide Sorting.Sort, Times, Close, NotYetCovered, AddUnexpected, AddMissing, AddPending;
    var ts := Times(Sorting.Sort(NotAfter, truth));
    var os := Times(Sorting.Sort(NotAfter, observed));
    var covered := coverage;
    if coverage.end.None? && os != [] {
      var latest := LatestTime(os);
      covered := coverage.(end := Some(latest));
    }
    var i, j := 0, 0;
    r := EMPTY;
    while i < |ts| && j < |os|
      invariant 0 <= i <= |ts| && 0 <= j <= |os|
      invariant Walk(ts, os, tolerance, covered, i, j, r) == Walk(ts, os, tolerance, covered, 0, 0, EMPTY)
      decreases |ts| - i + |os| - j
    {
      if Close(ts[i], os[j], tolerance) {
        r := r.(matched := r.matched + [Pair(i, j)]);
        i, j := i + 1, j + 1;
      } else if os[j] < ts[i] {
        r := AddUnexpected(r, j);
        j := j + 1;
      } else {
        r := AddMissing(r, i);
        i := i + 1;
      }
    }
    while i < |ts|
      invariant 0 <= i <= |ts| && 0 <= j <= |os| && (i < |ts| ==> j == |os|)
      invariant Walk(ts, os, tolerance, covered, i, j, r) == Walk(ts, os, tolerance, covered, 0, 0, EMPTY)
    {
      if NotYetCovered(covered, ts[i], tolerance) {
        r := AddPending(r, i);
      } else {
        r := AddMissing(r, i);
      }
      i := i + 1;
    }
    while j < |os|
      invariant i == |ts| && 0 <= j <= |os|
      invariant Walk(ts, os, tolerance, covered, i, j, r) == Walk(ts, os, tolerance, covered, 0, 0, EMPTY)
    {
      r := AddUnexpected(r, j);
      j := j + 1;
    }
  }

  // ----- every event is accounted for, once -----

  ghost predicate TruthUsed(r: Report, i: nat) {
    (exists k :: 0 <= k < |r.matched| && r.matched[k].truth == i) || i in r.missing || i in r.pending
  }

  ghost predicate ObservedUsed(r: Report, j: nat) {
    (exists k :: 0 <= k < |r.matched| && r.matched[k].observed == j) || j in r.unexpected
  }

  // The report has dealt with exactly the first i truths and j observed events:
  // as many entries as events, and each event in some entry.
  ghost predicate Partial(truth: seq<real>, observed: seq<real>, tolerance: real, coverage: Coverage,
                          i: nat, j: nat, r: Report)
  {
    && i <= |truth| && j <= |observed|
    && |r.matched| + |r.missing| + |r.pending| == i
    && |r.matched| + |r.unexpected| == j
    && (forall k: nat :: k < i ==> TruthUsed(r, k))
    && (forall k: nat :: k < j ==> ObservedUsed(r, k))
    && (forall k :: 0 <= k < |r.matched| ==>
          r.matched[k].truth < i && r.matched[k].observed < j
          && Close(truth[r.matched[k].truth], observed[r.matched[k].observed], tolerance))
    && (forall k, l :: 0 <= k < l < |r.matched| ==>
          r.matched[k].truth < r.matched[l].truth && r.matched[k].observed < r.matched[l].observed)
    && (forall k :: k in r.pending ==> k < |truth| && NotYetCovered(coverage, truth[k], tolerance))
  }

  lemma UsedStays(r: Report, r': Report, k: nat)
    requires r.matched <= r'.matched && r.missing <= r'.missing && r.pending <= r'.pending
    requires r.unexpected <= r'.unexpected
    ensures TruthUsed(r, k) ==> TruthUsed(r', k)
    ensures ObservedUsed(r, k) ==> ObservedUsed(r', k)
  {
    if exists n :: 0 <= n < |r.matched| && r.matched[n].truth == k {
      var n :| 0 <= n < |r.matched| && r.matched[n].truth == k;
      assert r'.matched[n].truth == k;
    }
    if exists n :: 0 <= n < |r.matched| && r.matched[n].observed == k {
      var n :| 0 <= n < |r.matched| && r.matched[n].observed == k;
      assert r'.matched[n].observed == k;
    }
  }

  lemma AllUsedStays(r: Report, r': Report)
    requires r.matched <= r'.matched && r.missing <= r'.missing && r.pending <= r'.pending
    requires r.unexpected <= r'.unexpected
    ensures forall k: nat :: TruthUsed(r, k) ==> TruthUsed(r', k)
    ensures forall k: nat :: ObservedUsed(r, k) ==> ObservedUsed(r', k)
  {
    forall k: nat
      ensures TruthUsed(r, k) ==> TruthUsed(r', k)
      ensures ObservedUsed(r, k) ==> ObservedUsed(r', k)
    {
      UsedStays(r, r', k);
    }
  }

  lemma PairKeeps(truth: seq<real>, observed: seq<real>, tolerance: real, coverage: Coverage, i: nat, j: nat, r: Report)
    requires Partial(truth, observed, tolerance, coverage, i, j, r) && i < |truth| && j < |observed|
    requires Close(truth[i], observed[j], tolerance)
    ensures Partial(truth, observed, tolerance, coverage, i + 1, j + 1, r.(matched := r.matched + [Pair(i, j)]))
  {
    hide TruthUsed, ObservedUsed, NotYetCovered, Close;
    var r' := r.(matched := r.matched + [Pair(i, j)]);
    AllUsedStays(r, r');
    LastPairUsed(r', i, j);
  }

  lemma LastPairUsed(r: Report, i: nat, j: nat)
    requires r.matched != [] && r.matched[|r.matched| - 1] == Pair(i, j)
    ensures TruthUsed(r, i) && ObservedUsed(r, j)
  {
  }

  lemma SingleKeeps(truth: seq<real>, observed: seq<real>, tolerance: real, coverage: Coverage, i: nat, j: nat,
                    r: Report)
    requires Partial(truth, observed, tolerance, coverage, i, j, r)
    ensures j < |observed| ==> Partial(truth, observed, tolerance, coverage, i, j + 1, AddUnexpected(r, j))
    ensures i < |truth| ==> Partial(truth, observed, tolerance, coverage, i + 1, j, AddMissing(r, i))
    ensures i < |truth| && NotYetCovered(coverage, truth[i], tolerance) ==>
      Partial(truth, observed, tolerance, coverage, i + 1, j, AddPending(r, i))
  {
    AllUsedStays(r, AddUnexpected(r, j));
    AllUsedStays(r, AddMissing(r, i));
    AllUsedStays(r, AddPending(r, i));
    assert ObservedUsed(AddUnexpected(r, j), j);
    assert TruthUsed(AddMissing(r, i), i) && TruthUsed(AddPending(r, i), i);
    hide TruthUsed, ObservedUsed, NotYetCovered, Close;
  }

  lemma {:induction false} WalkAccounts(truth: seq<real>, observed: seq<real>, tolerance: real, coverage: Coverage,
                                        i: nat, j: nat, r: Report)
    requires Partial(truth, observed, tolerance, coverage, i, j, r)
    ensures Partial(truth, observed, tolerance, coverage, |truth|, |observed|,
                    Walk(truth, observed, tolerance, coverage, i, j, r))
    decreases |truth| - i + |observed| - j
  {
    hide Partial, NotYetCovered, Close, AddUnexpected, AddMissing, AddPending;
    PartialBounds(truth, observed, tolerance, coverage, i, j, r);
    SingleKeeps(truth, observed, tolerance, coverage, i, j, r);
    if i < |truth| && j < |observed| {
      if Close(truth[i], observed[j], tolerance) {
        PairKeeps(truth, observed, tolerance, coverage, i, j, r);
        WalkAccounts(truth, observed, tolerance, coverage, i + 1, j + 1, r.(matched := r.matched + [Pair(i, j)]));
      } else if observed[j] < truth[i] {
        WalkAccounts(truth, observed, tolerance, coverage, i, j + 1, AddUnexpected(r, j));
      } else {
        WalkAccounts(truth, observed, tolerance, coverage, i + 1, j, AddMissing(r, i));
      }
    } else if i < |truth| {
      WalkAccounts(truth, observed, tolerance, coverage, i + 1, j,
                   if NotYetCovered(coverage, truth[i], tolerance) then AddPending(r, i) else AddMissing(r, i));
    } else if j < |observed| {
      WalkAccounts(truth, observed, tolerance, coverage, i, j + 1, AddUnexpected(r, j));
    }
  }

  lemma PartialBounds(truth: seq<real>, observed: seq<real>, tolerance: real, coverage: Coverage, i: nat, j: nat,
                      r: Report)
    requires Partial(truth, observed, tolerance, coverage, i, j, r)
    ensures i <= |truth| && j <= |observed|
  {
  }

  // ----- no other pairing matches more -----

  // How many pairs the walk makes from here.
  ghost function PairsFrom(truth: seq<real>, observed: seq<real>, tolerance: real, i: nat, j: nat): nat
    requires i <= |truth| && j <= |observed|
    decreases |truth| - i + |observed| - j
  {
    if i == |truth| || j == |observed| then 0
    else if Close(truth[i], observed[j], tolerance) then 1 + PairsFrom(truth, observed, tolerance, i + 1, j + 1)
    else if observed[j] < truth[i] then PairsFrom(truth, observed, tolerance, i, j + 1)
    else PairsFrom(truth, observed, tolerance, i + 1, j)
  }

  lemma {:induction false} WalkMatches(truth: seq<real>, observed: seq<real>, tolerance: real, coverage: Coverage,
                                       i: nat, j: nat, r: Report)
    requires i <= |truth| && j <= |observed|
    ensures |Walk(truth, observed, tolerance, coverage, i, j, r).matched|
            == |r.matched| + PairsFrom(truth, observed, tolerance, i, j)
    decreases |truth| - i + |observed| - j
  {
    hide NotYetCovered, Close;
    if i < |truth| && j < |observed| {
      if Close(truth[i], observed[j], tolerance) {
        WalkMatches(truth, observed, tolerance, coverage, i + 1, j + 1, r.(matched := r.matched + [Pair(i, j)]));
      } else if observed[j] < truth[i] {
        WalkMatches(truth, observed, tolerance, coverage, i, j + 1, AddUnexpected(r, j));
      } else {
        WalkMatches(truth, observed, tolerance, coverage, i + 1, j, AddMissing(r, i));
      }
    } else if i < |truth| {
      WalkMatches(truth, observed, tolerance, coverage, i + 1, j,
                  if NotYetCovered(coverage, truth[i], tolerance) then AddPending(r, i) else AddMissing(r, i));
    } else if j < |observed| {
      WalkMatches(truth, observed, tolerance, coverage, i, j + 1, AddUnexpected(r, j));
    }
  }

  // Any one-to-one pairing of truths from i on with observed events from j on,
  // each pair within the tolerance.
  ghost predicate Pairing(truth: seq<real>, observed: seq<real>, tolerance: real, i: nat, j: nat, m: map<nat, nat>) {
    && (forall t :: t in m ==> i <= t < |truth| && j <= m[t] < |observed| && Close(truth[t], observed[m[t]], tolerance))
    && (forall t, u :: t in m && u in m && t != u ==> m[t] != m[u])
  }

  lemma DropOne(m: map<nat, nat>, k: nat)
    requires k in m
    ensures |m - {k}| == |m| - 1
  {
    assert (m - {k}).Keys == m.Keys - {k};
  }

  // A pairing without i and j pairs later events only.
  lemma Later(truth: seq<real>, observed: seq<real>, tolerance: real, i: nat, j: nat, m: map<nat, nat>)
    requires Pairing(truth, observed, tolerance, i, j, m)
    requires i !in m && forall t :: t in m ==> m[t] != j
    ensures Pairing(truth, observed, tolerance, i + 1, j + 1, m)
  {
    hide Close;
  }

  lemma DropPair(truth: seq<real>, observed: seq<real>, tolerance: real, i: nat, j: nat, m: map<nat, nat>, k: nat)
    requires Pairing(truth, observed, tolerance, i, j, m)
    ensures Pairing(truth, observed, tolerance, i, j, m - {k})
    ensures k in m ==> |m - {k}| == |m| - 1 && forall t :: t in m - {k} ==> m[t] != m[k]
  {
    hide Close;
    if k in m {
      DropOne(m, k);
    }
  }

  lemma AddPair(truth: seq<real>, observed: seq<real>, tolerance: real, i: nat, j: nat, m: map<nat, nat>, t: nat,
                o: nat)
    requires Pairing(truth, observed, tolerance, i, j, m) && t !in m && forall u :: u in m ==> m[u] != o
    requires i <= t < |truth| && j <= o < |observed| && Close(truth[t], observed[o], tolerance)
    ensures Pairing(truth, observed, tolerance, i, j, m[t := o]) && |m[t := o]| == |m| + 1
  {
    hide Close;
  }

  lemma PairAt(truth: seq<real>, observed: seq<real>, tolerance: real, i: nat, j: nat, m: map<nat, nat>, t: nat, u: nat)
    requires Ascending(truth) && Ascending(observed) && Pairing(truth, observed, tolerance, i, j, m)
    requires t in m && u in m && t != u && t == i && m[u] == j
    ensures t < u < |truth| && j < m[t] < |observed|
    ensures truth[t] <= truth[u] && observed[j] <= observed[m[t]]
    ensures Close(truth[t], observed[m[t]], tolerance) && Close(truth[u], observed[j], tolerance)
  {
    hide Close;
  }

  // Exchange: a pairing can be changed to pair i with j at the cost of one pair.
  lemma Exchange(truth: seq<real>, observed: seq<real>, tolerance: real, i: nat, j: nat, m: map<nat, nat>)
    returns (rest: map<nat, nat>)
    requires Ascending(truth) && Ascending(observed) && i < |truth| && j < |observed|
    requires Close(truth[i], observed[j], tolerance)
    requires Pairing(truth, observed, tolerance, i, j, m)
    ensures Pairing(truth, observed, tolerance, i + 1, j + 1, rest) && |m| <= |rest| + 1
  {
    hide Close, Pairing, Ascending;
    var m1 := m - {i};
    DropPair(truth, observed, tolerance, i, j, m, i);
    if u :| u in m1 && m1[u] == j {
      var m2 := m1 - {u};
      DropPair(truth, observed, tolerance, i, j, m1, u);
      Later(truth, observed, tolerance, i, j, m2);
      if i in m {
        PairAt(truth, observed, tolerance, i, j, m, i, u);
        CrossedPairsSwap(truth[i], observed[j], truth[u], observed[m[i]], tolerance);
        AddPair(truth, observed, tolerance, i + 1, j + 1, m2, u, m[i]);
        rest := m2[u := m[i]];
      } else {
        assert m1 == m;
        rest := m2;
      }
    } else {
      Later(truth, observed, tolerance, i, j, m1);
      if i !in m {
        assert m1 == m;
      }
      rest := m1;
    }
  }

  // Two truths and two observed events, each pair crossing close: the later
  // ones are close too.
  lemma CrossedPairsSwap(t: real, o: real, laterT: real, laterO: real, tolerance: real)
    requires t <= laterT && o <= laterO && Close(t, laterO, tolerance) && Close(laterT, o, tolerance)
    ensures Close(laterT, laterO, tolerance)
  {
  }

  lemma {:induction false} NoPairingBeats(truth: seq<real>, observed: seq<real>, tolerance: real, i: nat, j: nat,
                                          m: map<nat, nat>)
    requires Ascending(truth) && Ascending(observed) && i <= |truth| && j <= |observed|
    requires Pairing(truth, observed, tolerance, i, j, m)
    ensures |m| <= PairsFrom(truth, observed, tolerance, i, j)
    decreases |truth| - i + |observed| - j
  {
    if i == |truth| || j == |observed| {
      assert m.Keys == {};
    } else if Close(truth[i], observed[j], tolerance) {
      var rest := Exchange(truth, observed, tolerance, i, j, m);
      NoPairingBeats(truth, observed, tolerance, i + 1, j + 1, rest);
    } else if observed[j] < truth[i] {
      forall t | t in m
        ensures m[t] != j
      {
        assert truth[i] <= truth[t];
      }
      NoPairingBeats(truth, observed, tolerance, i, j + 1, m);
    } else {
      if i in m {
        assert observed[j] <= observed[m[i]];
      }
      NoPairingBeats(truth, observed, tolerance, i + 1, j, m);
    }
  }

  lemma SortedTimesAscend(events: seq<LedgerEvent>)
    ensures Ascending(Times(Sorting.Sort(NotAfter, events)))
    ensures |Times(Sorting.Sort(NotAfter, events))| == |events|
  {
    hide Sorting.Sort;
    Sorting.SortOrders(NotAfter, events);
    Sorting.SortLength(NotAfter, events);
  }

  // The comparison is a maximum matching: its pairs are within the tolerance
  // and one-to-one, every event is reported once, and no other pairing of the
  // sorted events matches more.
  lemma {:induction false} ComparisonIsMaximum(truth: seq<LedgerEvent>, observed: seq<LedgerEvent>, tolerance: real,
                                               coverage: Coverage,
                            other: map<nat, nat>)
    requires Pairing(Times(Sorting.Sort(NotAfter, truth)), Times(Sorting.Sort(NotAfter, observed)), tolerance, 0, 0, other)
    ensures var r := Compare(truth, observed, tolerance, coverage);
      var ts, os := Times(Sorting.Sort(NotAfter, truth)), Times(Sorting.Sort(NotAfter, observed));
      && |other| <= |r.matched|
      && Partial(ts, os, tolerance, Effective(coverage, os), |truth|, |observed|, r)
  {
    hide Sorting.Sort, Walk, Pairing, Times, Partial;
    var ts, os := Times(Sorting.Sort(NotAfter, truth)), Times(Sorting.Sort(NotAfter, observed));
    SortedTimesAscend(truth);
    SortedTimesAscend(observed);
    NoPairingBeats(ts, os, tolerance, 0, 0, other);
    var covered := Effective(coverage, os);
    WalkMatches(ts, os, tolerance, covered, 0, 0, EMPTY);
    EmptyIsPartial(ts, os, tolerance, covered);
    WalkAccounts(ts, os, tolerance, covered, 0, 0, EMPTY);
  }

  lemma EmptyIsPartial(truth: seq<real>, observed: seq<real>, tolerance: real, coverage: Coverage)
    ensures Partial(truth, observed, tolerance, coverage, 0, 0, EMPTY)
  {
  }

  // matched + missing + pending = truths and matched + unexpected = observed.
  lemma {:induction false} ComparisonCounts(truth: seq<LedgerEvent>, observed: seq<LedgerEvent>, tolerance: real,
                                            coverage: Coverage)
    ensures var r := Compare(truth, observed, tolerance, coverage);
      && |r.matched| + |r.missing| + |r.pending| == |truth|
      && |r.matched| + |r.unexpected| == |observed|
  {
    hide Compare;
    ComparisonIsMaximum(truth, observed, tolerance, coverage, map[]);
  }

  // ----- the first divergence -----

  lemma {:induction false} DivergenceStays(truth: seq<real>, observed: seq<real>, tolerance: real, coverage: Coverage,
                                           i: nat, j: nat, r: Report)
    requires i <= |truth| && j <= |observed| && r.first.Some?
    ensures Walk(truth, observed, tolerance, coverage, i, j, r).first == r.first
    decreases |truth| - i + |observed| - j
  {
    hide NotYetCovered, Close;
    if i < |truth| && j < |observed| {
      if Close(truth[i], observed[j], tolerance) {
        DivergenceStays(truth, observed, tolerance, coverage, i + 1, j + 1, r.(matched := r.matched + [Pair(i, j)]));
      } else if observed[j] < truth[i] {
        DivergenceStays(truth, observed, tolerance, coverage, i, j + 1, AddUnexpected(r, j));
      } else {
        DivergenceStays(truth, observed, tolerance, coverage, i + 1, j, AddMissing(r, i));
      }
    } else if i < |truth| {
      DivergenceStays(truth, observed, tolerance, coverage, i + 1, j,
                      if NotYetCovered(coverage, truth[i], tolerance) then AddPending(r, i) else AddMissing(r, i));
    } else if j < |observed| {
      DivergenceStays(truth, observed, tolerance, coverage, i, j + 1, AddUnexpected(r, j));
    }
  }

  ghost predicate InStep(truth: seq<real>, observed: seq<real>, tolerance: real, from: nat) {
    |truth| == |observed| && forall k :: from <= k < |truth| ==> Close(truth[k], observed[k], tolerance)
  }

  lemma {:induction false} WalkInStep(truth: seq<real>, observed: seq<real>, tolerance: real, coverage: Coverage,
                                      i: nat, r: Report)
    requires i <= |truth| && i <= |observed| && r.first.None?
    ensures Walk(truth, observed, tolerance, coverage, i, i, r).first.None? <==> InStep(truth, observed, tolerance, i)
    decreases |truth| - i
  {
    hide NotYetCovered, Close;
    if i < |truth| && i < |observed| {
      if Close(truth[i], observed[i], tolerance) {
        WalkInStep(truth, observed, tolerance, coverage, i + 1, r.(matched := r.matched + [Pair(i, i)]));
      } else if observed[i] < truth[i] {
        DivergenceStays(truth, observed, tolerance, coverage, i, i + 1, AddUnexpected(r, i));
      } else {
        DivergenceStays(truth, observed, tolerance, coverage, i + 1, i, AddMissing(r, i));
      }
    } else if i < |truth| {
      DivergenceStays(truth, observed, tolerance, coverage, i + 1, i,
                      if NotYetCovered(coverage, truth[i], tolerance) then AddPending(r, i) else AddMissing(r, i));
    } else if i < |observed| {
      DivergenceStays(truth, observed, tolerance, coverage, i, i + 1, AddUnexpected(r, i));
    }
  }

  // There is no first divergence exactly when the sorted lists agree event by
  // event with none left over.
  lemma NoDivergenceMeansInStep(truth: seq<LedgerEvent>, observed: seq<LedgerEvent>, tolerance: real,
                                coverage: Coverage)
    ensures Compare(truth, observed, tolerance, coverage).first.None?
            <==> InStep(Times(Sorting.Sort(NotAfter, truth)), Times(Sorting.Sort(NotAfter, observed)), tolerance, 0)
  {
    hide Sorting.Sort, Walk, Times, InStep;
    var ts, os := Times(Sorting.Sort(NotAfter, truth)), Times(Sorting.Sort(NotAfter, observed));
    WalkInStep(ts, os, tolerance, Effective(coverage, os), 0, EMPTY);
  }
}
