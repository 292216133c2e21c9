// What the report of the comparison says of each event: which truths are missing
// and which only not covered yet, which observed event a truth gets, and what
// diverges first.
module TruthReport {
  import opened Prelude
  import opened TruthComparison
  import Sorting

  ghost predicate TruthMatched(r: Report, k: nat) {
    exists n :: 0 <= n < |r.matched| && r.matched[n].truth == k
  }

  ghost predicate ObservedMatched(r: Report, l: nat) {
    exists n :: 0 <= n < |r.matched| && r.matched[n].observed == l
  }

  // Observed event l went to a truth before truth k.
  ghost predicate TakenBefore(r: Report, l: nat, k: nat) {
    exists n :: 0 <= n < |r.matched| && r.matched[n].observed == l && r.matched[n].truth < k
  }

  predicate Near(a: real, b: real, tolerance: real) {
    a - tolerance <= b <= a + tolerance
  }

  // No observed event lies beyond reach of the time; with a tolerance below zero,
  // none lies at it or after it.
  ghost predicate AllBefore(observed: seq<real>, time: real, tolerance: real) {
    forall l :: 0 <= l < |observed| ==> observed[l] <= time + tolerance || observed[l] < time
  }

  // The run had not got as far as the time: it is not complete, its coverage ends
  // out of reach before it, and so do the events it observed.
  ghost predicate NotReached(observed: seq<real>, tolerance: real, coverage: Coverage, time: real) {
    && !coverage.complete && coverage.end.Some? && time > coverage.end.value + tolerance
    && AllBefore(observed, time, tolerance)
  }

  // Every observed event within reach of truth k, before the given one, went to an
  // earlier truth.
  ghost predicate NoneLeft(truth: seq<real>, observed: seq<real>, tolerance: real, r: Report, k: nat, end: nat)
    requires k < |truth|
  {
    forall l: nat :: l < end && l < |observed| && Near(truth[k], observed[l], tolerance) ==> TakenBefore(r, l, k)
  }

  ghost predicate NamesItsEntry(r: Report) {
    match r.first
    case None => true
    case Some(UnexpectedObserved(l)) => l in r.unexpected
    case Some(MissingTruth(k)) => k in r.missing
    case Some(IncompleteCoverage(k)) => k in r.pending
  }

  // What the report says of truth k.
  ghost predicate TruthTold(truth: seq<real>, observed: seq<real>, tolerance: real, coverage: Coverage, r: Report,
                            k: nat)
    requires k < |truth|
  {
    && (k in r.pending <==> !TruthMatched(r, k) && NotReached(observed, tolerance, coverage, truth[k]))
    && (k in r.missing <==> !TruthMatched(r, k) && !NotReached(observed, tolerance, coverage, truth[k]))
    && (!TruthMatched(r, k) ==> NoneLeft(truth, observed, tolerance, r, k, |observed|))
  }

  // Pairs are close, and a truth gets the first observed event within reach that
  // no earlier truth took.
  ghost predicate PairsTold(truth: seq<real>, observed: seq<real>, tolerance: real, i: nat, j: nat, r: Report) {
    forall n :: 0 <= n < |r.matched| ==>
      var p := r.matched[n];
      && p.truth < i && p.truth < |truth| && p.observed < j && p.observed < |observed|
      && Near(truth[p.truth], observed[p.observed], tolerance)
      && NoneLeft(truth, observed, tolerance, r, p.truth, p.observed)
  }

  // The report on the first i truths and j observed events.
  ghost predicate Told(truth: seq<real>, observed: seq<real>, tolerance: real, coverage: Coverage, i: nat, j: nat,
                       r: Report)
  {
    && i <= |truth| && j <= |observed|
    && (forall k: nat :: k < i ==> TruthTold(truth, observed, tolerance, coverage, r, k))
    && (forall k :: k in r.pending || k in r.missing ==> k < i)
    && PairsTold(truth, observed, tolerance, i, j, r)
    && (forall l: nat :: l in r.unexpected <==> l < j && !ObservedMatched(r, l))
    && NamesItsEntry(r)
  }

  // Observed events without a truth lie before everything that is still to come.
  ghost predicate LeftBehind(truth: seq<real>, observed: seq<real>, tolerance: real, i: nat, j: nat, r: Report) {
    j <= |observed| && forall l, k :: 0 <= l < j && i <= k < |truth| && l in r.unexpected ==>
      observed[l] < truth[k] && !Near(truth[k], observed[l], tolerance)
  }

  lemma MatchedMore(r: Report, p: Pair)
    ensures var r' := r.(matched := r.matched + [p]);
      && (forall k: nat :: TruthMatched(r', k) <==> TruthMatched(r, k) || k == p.truth)
      && (forall l: nat :: ObservedMatched(r', l) <==> ObservedMatched(r, l) || l == p.observed)
      && (forall l: nat, k: nat :: TakenBefore(r, l, k) ==> TakenBefore(r', l, k))
  {
    var r' := r.(matched := r.matched + [p]);
    assert r'.matched[|r.matched|] == p;
    forall k: nat
      ensures TruthMatched(r', k) <==> TruthMatched(r, k) || k == p.truth
    {
      if TruthMatched(r, k) {
        var n :| 0 <= n < |r.matched| && r.matched[n].truth == k;
        assert r'.matched[n].truth == k;
      }
    }
    forall l: nat
      ensures ObservedMatched(r', l) <==> ObservedMatched(r, l) || l == p.observed
    {
      if ObservedMatched(r, l) {
        var n :| 0 <= n < |r.matched| && r.matched[n].observed == l;
        assert r'.matched[n].observed == l;
      }
    }
    forall l: nat, k: nat | TakenBefore(r, l, k)
      ensures TakenBefore(r', l, k)
    {
      var n :| 0 <= n < |r.matched| && r.matched[n].observed == l && r.matched[n].truth < k;
      assert r'.matched[n] == r.matched[n];
    }
  }

  lemma MatchedAsBefore(r: Report, r': Report)
    requires r'.matched == r.matched
    ensures forall k: nat :: TruthMatched(r', k) == TruthMatched(r, k)
    ensures forall l: nat :: ObservedMatched(r', l) == ObservedMatched(r, l)
    ensures forall l: nat, k: nat :: TakenBefore(r', l, k) == TakenBefore(r, l, k)
  {
  }

  // Of the observed events so far, those near a coming truth are taken.
  lemma PassedAreTaken(truth: seq<real>, observed: seq<real>, tolerance: real, coverage: Coverage, i: nat, j: nat,
                       r: Report)
    requires Told(truth, observed, tolerance, coverage, i, j, r) && i < |truth|
    requires LeftBehind(truth, observed, tolerance, i, j, r)
    ensures NoneLeft(truth, observed, tolerance, r, i, j)
    ensures !TruthMatched(r, i)
  {
    hide TruthTold, NamesItsEntry, Near;
    forall l: nat | l < j && Near(truth[i], observed[l], tolerance)
      ensures TakenBefore(r, l, i)
    {
      assert ObservedMatched(r, l);
      var n :| 0 <= n < |r.matched| && r.matched[n].observed == l;
      assert r.matched[n].truth < i;
    }
  }

  // A step keeps what was told when it adds nothing about the truths so far.
  lemma StaysTold(truth: seq<real>, observed: seq<real>, tolerance: real, coverage: Coverage, i: nat, j: nat,
                  r: Report, r': Report)
    requires Told(truth, observed, tolerance, coverage, i, j, r)
    requires r.matched <= r'.matched
    requires forall k: nat :: k < i ==> (k in r'.pending <==> k in r.pending) && (k in r'.missing <==> k in r.missing)
    requires forall k: nat :: k < i ==> TruthMatched(r', k) == TruthMatched(r, k)
    requires forall l: nat, k: nat :: TakenBefore(r, l, k) ==> TakenBefore(r', l, k)
    ensures forall k: nat :: k < i ==> TruthTold(truth, observed, tolerance, coverage, r', k)
    ensures forall n :: 0 <= n < |r.matched| ==>
      var p := r'.matched[n];
      && p == r.matched[n] && p.truth < i <= |truth| && p.observed < j <= |observed|
      && Near(truth[p.truth], observed[p.observed], tolerance)
      && NoneLeft(truth, observed, tolerance, r', p.truth, p.observed)
  {
    hide TruthMatched, ObservedMatched, TakenBefore, Near, NotReached, NamesItsEntry;
    forall k: nat | k < i
      ensures TruthTold(truth, observed, tolerance, coverage, r', k)
    {
      assert TruthTold(truth, observed, tolerance, coverage, r, k);
    }
  }

  lemma PairTells(truth: seq<real>, observed: seq<real>, tolerance: real, coverage: Coverage, i: nat, j: nat, r: Report)
    requires Told(truth, observed, tolerance, coverage, i, j, r) && LeftBehind(truth, observed, tolerance, i, j, r)
    requires i < |truth| && j < |observed| && Near(truth[i], observed[j], tolerance)
    ensures var r' := r.(matched := r.matched + [Pair(i, j)]);
      Told(truth, observed, tolerance, coverage, i + 1, j + 1, r')
      && LeftBehind(truth, observed, tolerance, i + 1, j + 1, r')
  {
    hide TruthMatched, ObservedMatched, TakenBefore, Near, NotReached;
    PassedAreTaken(truth, observed, tolerance, coverage, i, j, r);
    MatchedMore(r, Pair(i, j));
    var r' := r.(matched := r.matched + [Pair(i, j)]);
    StaysTold(truth, observed, tolerance, coverage, i, j, r, r');
    hide NoneLeft;
    assert PairsTold(truth, observed, tolerance, i + 1, j + 1, r');
    assert TruthTold(truth, observed, tolerance, coverage, r', i);
  }

  lemma UnexpectedTells(truth: seq<real>, observed: seq<real>, tolerance: real, coverage: Coverage, i: nat, j: nat,
                        r: Report)
    requires Told(truth, observed, tolerance, coverage, i, j, r) && LeftBehind(truth, observed, tolerance, i, j, r)
    requires Ascending(truth) && j < |observed|
    requires i < |truth| ==> observed[j] < truth[i] && !Near(truth[i], observed[j], tolerance)
    ensures var r' := AddUnexpected(r, j);
      Told(truth, observed, tolerance, coverage, i, j + 1, r')
      && LeftBehind(truth, observed, tolerance, i, j + 1, r')
  {
    hide TruthMatched, ObservedMatched, TakenBefore, NotReached;
    MatchedAsBefore(r, AddUnexpected(r, j));
    assert !ObservedMatched(r, j) by { PairsStayBelow(truth, observed, tolerance, i, j, r); }
    if i < |truth| {
      FartherBehind(truth, observed[j], tolerance, i);
    }
    hide Near, Ascending, NoneLeft, TruthTold;
    StaysTold(truth, observed, tolerance, coverage, i, j, r, AddUnexpected(r, j));
  }

  lemma PairsStayBelow(truth: seq<real>, observed: seq<real>, tolerance: real, i: nat, j: nat, r: Report)
    requires PairsTold(truth, observed, tolerance, i, j, r)
    ensures !ObservedMatched(r, j) && !TruthMatched(r, i)
  {
    hide NoneLeft, Near;
  }

  lemma FartherBehind(truth: seq<real>, time: real, tolerance: real, i: nat)
    requires Ascending(truth) && i < |truth| && time < truth[i] && !Near(truth[i], time, tolerance)
    ensures forall k :: i <= k < |truth| ==> time < truth[k] && !Near(truth[k], time, tolerance)
  {
  }

  lemma MissingTells(truth: seq<real>, observed: seq<real>, tolerance: real, coverage: Coverage, i: nat, j: nat,
                     r: Report)
    requires Told(truth, observed, tolerance, coverage, i, j, r) && LeftBehind(truth, observed, tolerance, i, j, r)
    requires i < |truth| && NoneLeft(truth, observed, tolerance, r, i, |observed|)
    ensures NotReached(observed, tolerance, coverage, truth[i]) ==>
      Told(truth, observed, tolerance, coverage, i + 1, j, AddPending(r, i))
      && LeftBehind(truth, observed, tolerance, i + 1, j, AddPending(r, i))
    ensures !NotReached(observed, tolerance, coverage, truth[i]) ==>
      Told(truth, observed, tolerance, coverage, i + 1, j, AddMissing(r, i))
      && LeftBehind(truth, observed, tolerance, i + 1, j, AddMissing(r, i))
  {
    hide TruthMatched, ObservedMatched, TakenBefore, NotReached, Near;
    PairsStayBelow(truth, observed, tolerance, i, j, r);
    MatchedAsBefore(r, AddMissing(r, i));
    MatchedAsBefore(r, AddPending(r, i));
    StaysTold(truth, observed, tolerance, coverage, i, j, r, AddMissing(r, i));
    StaysTold(truth, observed, tolerance, coverage, i, j, r, AddPending(r, i));
  }

  // The observed events from j on are too late for truth i.
  lemma TooLate(truth: seq<real>, observed: seq<real>, tolerance: real, coverage: Coverage, i: nat, j: nat, r: Report)
    requires Ascending(observed) && i < |truth| && j < |observed|
    requires observed[j] >= truth[i] && !Near(truth[i], observed[j], tolerance)
    requires NoneLeft(truth, observed, tolerance, r, i, j)
    ensures NoneLeft(truth, observed, tolerance, r, i, |observed|)
    ensures !NotReached(observed, tolerance, coverage, truth[i])
  {
    hide TakenBefore;
  }

  // Once all observed events have passed, none lies beyond a truth's reach.
  lemma AllPassed(truth: seq<real>, observed: seq<real>, tolerance: real, coverage: Coverage, i: nat, r: Report)
    requires Told(truth, observed, tolerance, coverage, i, |observed|, r) && i < |truth| && Ascending(truth)
    requires LeftBehind(truth, observed, tolerance, i, |observed|, r)
    ensures NotReached(observed, tolerance, coverage, truth[i]) <==> NotYetCovered(coverage, truth[i], tolerance)
  {
    hide TruthTold, NoneLeft;
    forall l | 0 <= l < |observed|
      ensures observed[l] <= truth[i] + tolerance || observed[l] < truth[i]
    {
      if ObservedMatched(r, l) {
        var n :| 0 <= n < |r.matched| && r.matched[n].observed == l;
        assert truth[r.matched[n].truth] <= truth[i];
      }
    }
  }

  lemma CloseIsNear(a: real, b: real, tolerance: real)
    ensures Close(a, b, tolerance) <==> Near(a, b, tolerance)
  {
  }

  lemma {:induction false} WalkTells(truth: seq<real>, observed: seq<real>, tolerance: real, coverage: Coverage,
                                     i: nat, j: nat, r: Report)
    requires Ascending(truth) && Ascending(observed)
    requires Told(truth, observed, tolerance, coverage, i, j, r) && LeftBehind(truth, observed, tolerance, i, j, r)
    ensures Told(truth, observed, tolerance, coverage, |truth|, |observed|,
                 Walk(truth, observed, tolerance, coverage, i, j, r))
    decreases |truth| - i + |observed| - j
  {
    hide Told, LeftBehind, NoneLeft, NotReached, Near, Close, NotYetCovered, AddUnexpected, AddMissing, AddPending,
      Ascending;
    ToldBounds(truth, observed, tolerance, coverage, i, j, r);
    if i < |truth| {
      PassedAreTaken(truth, observed, tolerance, coverage, i, j, r);
    }
    if i < |truth| && j < |observed| {
      CloseIsNear(truth[i], observed[j], tolerance);
      if Close(truth[i], observed[j], tolerance) {
        PairTells(truth, observed, tolerance, coverage, i, j, r);
        WalkTells(truth, observed, tolerance, coverage, i + 1, j + 1, r.(matched := r.matched + [Pair(i, j)]));
      } else if observed[j] < truth[i] {
        UnexpectedTells(truth, observed, tolerance, coverage, i, j, r);
        WalkTells(truth, observed, tolerance, coverage, i, j + 1, AddUnexpected(r, j));
      } else {
        TooLate(truth, observed, tolerance, coverage, i, j, r);
        MissingTells(truth, observed, tolerance, coverage, i, j, r);
        WalkTells(truth, observed, tolerance, coverage, i + 1, j, AddMissing(r, i));
      }
    } else if i < |truth| {
      AllPassed(truth, observed, tolerance, coverage, i, r);
      MissingTells(truth, observed, tolerance, coverage, i, j, r);
      WalkTells(truth, observed, tolerance, coverage, i + 1, j,
                if NotYetCovered(coverage, truth[i], tolerance) then AddPending(r, i) else AddMissing(r, i));
    } else if j < |observed| {
      UnexpectedTells(truth, observed, tolerance, coverage, i, j, r);
      WalkTells(truth, observed, tolerance, coverage, i, j + 1, AddUnexpected(r, j));
    }
  }

  lemma ToldBounds(truth: seq<real>, observed: seq<real>, tolerance: real, coverage: Coverage, i: nat, j: nat,
                   r: Report)
    requires Told(truth, observed, tolerance, coverage, i, j, r)
    ensures i <= |truth| && j <= |observed|
  {
  }

  lemma NothingTold(truth: seq<real>, observed: seq<real>, tolerance: real, coverage: Coverage)
    ensures Told(truth, observed, tolerance, coverage, 0, 0, EMPTY)
    ensures LeftBehind(truth, observed, tolerance, 0, 0, EMPTY)
  {
  }

  // The end that was declared, or else the time of the latest observed event.
  ghost predicate CoverageEnd(coverage: Coverage, observed: seq<real>, covered: Coverage) {
    && covered.complete == coverage.complete
    && (coverage.end.Some? ==> covered.end == coverage.end)
    && (coverage.end.None? ==>
          if observed == [] then covered.end.None?
          else covered.end == Some(observed[|observed| - 1]))
  }

  lemma {:induction false} MaxIsLast(observed: seq<real>)
    requires observed != [] && Ascending(observed)
    ensures MaxTime(observed) == observed[|observed| - 1]
  {
    if |observed| > 1 {
      MaxIsLast(observed[..|observed| - 1]);
    }
  }

  // The report tells pending from missing truths exactly, gives every truth the
  // first observed event within reach that is left, and reports as unexpected what
  // no truth got.
  lemma ReportIsExact(truth: seq<LedgerEvent>, observed: seq<LedgerEvent>, tolerance: real, coverage: Coverage)
    returns (covered: Coverage)
    ensures var ts, os := Times(Sorting.Sort(NotAfter, truth)), Times(Sorting.Sort(NotAfter, observed));
      && CoverageEnd(coverage, os, covered)
      && Told(ts, os, tolerance, covered, |ts|, |os|, Compare(truth, observed, tolerance, coverage))
  {
    hide Sorting.Sort, Times, Walk, Told, LeftBehind;
    var ts, os := Times(Sorting.Sort(NotAfter, truth)), Times(Sorting.Sort(NotAfter, observed));
    covered := Effective(coverage, os);
    SortedTimesAscend(truth);
    SortedTimesAscend(observed);
    if os != [] {
      MaxIsLast(os);
    }
    NothingTold(ts, os, tolerance, covered);
    WalkTells(ts, os, tolerance, covered, 0, 0, EMPTY);
  }

  // Without a declared end, exactly the truths out of reach after every observed
  // event are pending, when the run is not complete and observed anything.
  lemma PendingIsOutOfReach(truth: seq<LedgerEvent>, observed: seq<LedgerEvent>, tolerance: real, complete: bool,
                            k: nat)
    ensures var ts, os := Times(Sorting.Sort(NotAfter, truth)), Times(Sorting.Sort(NotAfter, observed));
      k in Compare(truth, observed, tolerance, Coverage(complete, None)).pending
      <==> k < |ts| && !complete && os != []
           && forall j :: 0 <= j < |os| ==> os[j] + MaxReal(tolerance, 0.0) < ts[k]
  {
    hide Sorting.Sort, Compare, Times;
    var ts, os := Times(Sorting.Sort(NotAfter, truth)), Times(Sorting.Sort(NotAfter, observed));
    var r := Compare(truth, observed, tolerance, Coverage(complete, None));
    var covered := ReportIsExact(truth, observed, tolerance, Coverage(complete, None));
    SortedTimesAscend(observed);
    if k < |ts| {
      assert TruthTold(ts, os, tolerance, covered, r, k);
      MatchedIsNear(ts, os, tolerance, r, k);
    }
  }

  lemma MatchedIsNear(truth: seq<real>, observed: seq<real>, tolerance: real, r: Report, k: nat)
    requires PairsTold(truth, observed, tolerance, |truth|, |observed|, r) && k < |truth|
    ensures TruthMatched(r, k) ==> exists j :: 0 <= j < |observed| && Near(truth[k], observed[j], tolerance)
  {
    hide NoneLeft, Near;
  }

  // ----- what diverges first -----

  // The first n events are in step and the next ones are not: it is what becomes
  // of them that is reported first.
  ghost predicate DivergesAt(truth: seq<real>, observed: seq<real>, tolerance: real, r: Report, n: nat) {
    && n <= |truth| && n <= |observed|
    && (forall k :: 0 <= k < n ==> Near(truth[k], observed[k], tolerance))
    && if n < |truth| && n < |observed| then
         && !Near(truth[n], observed[n], tolerance)
         && r.first == Some(if observed[n] < truth[n] then UnexpectedObserved(n) else MissingTruth(n))
       else if n < |truth| then r.first in {Some(MissingTruth(n)), Some(IncompleteCoverage(n))}
       else if n < |observed| then r.first == Some(UnexpectedObserved(n))
       else r.first.None?
  }

  lemma {:induction false} WalkDiverges(truth: seq<real>, observed: seq<real>, tolerance: real, coverage: Coverage,
                                        n: nat, r: Report)
    returns (at: nat)
    requires n <= |truth| && n <= |observed| && r.first.None?
    requires forall k :: 0 <= k < n ==> Near(truth[k], observed[k], tolerance)
    ensures DivergesAt(truth, observed, tolerance, Walk(truth, observed, tolerance, coverage, n, n, r), at)
    decreases |truth| - n
  {
    hide NotYetCovered, Close, Near;
    at := n;
    if n < |truth| && n < |observed| {
      CloseIsNear(truth[n], observed[n], tolerance);
      if Close(truth[n], observed[n], tolerance) {
        at := WalkDiverges(truth, observed, tolerance, coverage, n + 1, r.(matched := r.matched + [Pair(n, n)]));
      } else if observed[n] < truth[n] {
        DivergenceStays(truth, observed, tolerance, coverage, n, n + 1, AddUnexpected(r, n));
      } else {
        DivergenceStays(truth, observed, tolerance, coverage, n + 1, n, AddMissing(r, n));
      }
    } else if n < |truth| {
      DivergenceStays(truth, observed, tolerance, coverage, n + 1, n,
                      if NotYetCovered(coverage, truth[n], tolerance) then AddPending(r, n) else AddMissing(r, n));
    } else if n < |observed| {
      DivergenceStays(truth, observed, tolerance, coverage, n, n + 1, AddUnexpected(r, n));
    }
  }

  // The first divergence is at the first events that are not in step, and it is
  // the entry of the report that deals with them.
  lemma FirstDivergenceIsExact(truth: seq<LedgerEvent>, observed: seq<LedgerEvent>, tolerance: real,
                               coverage: Coverage)
    ensures var ts, os := Times(Sorting.Sort(NotAfter, truth)), Times(Sorting.Sort(NotAfter, observed));
      exists n :: DivergesAt(ts, os, tolerance, Compare(truth, observed, tolerance, coverage), n)
    ensures NamesItsEntry(Compare(truth, observed, tolerance, coverage))
  {
    hide Sorting.Sort, Times, Walk, DivergesAt;
    var ts, os := Times(Sorting.Sort(NotAfter, truth)), Times(Sorting.Sort(NotAfter, observed));
    var at := WalkDiverges(ts, os, tolerance, Effective(coverage, os), 0, EMPTY);
    var covered := ReportIsExact(truth, observed, tolerance, coverage);
  }
}
