// app/services/placement_counter.py: quiet - placement - quiet transitions of
// clip verdicts become debounced counts.  Here as functions; the class is
// in PlacementCounter.dfy.
module PlacementSpec {
  import opened Prelude
  import Sorting

  datatype Verdict = Verdict(center: real, asserted: bool, candidateId: string)

  datatype Count = Count(number: int, center: real, start: real, end: real, candidateIds: seq<string>)

  datatype Placement = Placement(start: real, last: real, candidateIds: seq<string>)

  // placing holds the pending placement; None is the quiet state.
  datatype State = State(total: int, placing: Option<Placement>, lastCenter: Option<real>)

  const QUIET := State(0, None, None)

  datatype Run = Run(state: State, counts: seq<Count>)

  predicate Debounced(s: State, center: real, debounce: real) {
    s.lastCenter.Some? && center - s.lastCenter.value <= debounce
  }

  function Assert(s: State, v: Verdict, debounce: real): State {
    if Debounced(s, v.center, debounce) then s
    else
      var ids := if s.placing.Some? then s.placing.value.candidateIds else [];
      s.(placing := Some(Placement(
                           if s.placing.Some? then s.placing.value.start else v.center,
                           v.center,
                           if v.candidateId != "" then ids + [v.candidateId] else ids)))
  }

  function MidPoint(p: Placement): real {
    (p.start + p.last) / 2.0
  }

  function Emit(s: State, p: Placement, end: real, debounce: real): Run {
    if Debounced(s, MidPoint(p), debounce) then Run(s.(placing := None), [])
    else
      Run(State(s.total + 1, None, Some(MidPoint(p))),
          [Count(s.total + 1, MidPoint(p), p.start, end, p.candidateIds)])
  }

  function Quiet(s: State, time: real, debounce: real): Run {
    if s.placing.None? then Run(s, []) else Emit(s, s.placing.value, time, debounce)
  }

  function Feed(s: State, v: Verdict, debounce: real): Run {
    if v.asserted then Run(Assert(s, v, debounce), []) else Quiet(s, v.center, debounce)
  }

  function Finalize(s: State, debounce: real): Run {
    if s.placing.None? then Run(s, []) else Emit(s, s.placing.value, s.placing.value.last, debounce)
  }

  function FeedAll(vs: seq<Verdict>, debounce: real): Run {
    if vs == [] then Run(QUIET, [])
    else
      var before := FeedAll(vs[..|vs| - 1], debounce);
      var now := Feed(before.state, vs[|vs| - 1], debounce);
      Run(now.state, before.counts + now.counts)
  }

  function NotLater(a: Verdict, b: Verdict): bool {
    a.center <= b.center
  }

  function CountPlacements(vs: seq<Verdict>, debounce: real, finalize: bool): seq<Count> {
    var run := FeedAll(Sorting.Sort(NotLater, vs), debounce);
    if finalize then run.counts + Finalize(run.state, debounce).counts else run.counts
  }

  // ----- counts are numbered and far apart, whatever the order -----

  // Every time in a pending placement is beyond the last count's debounce.
  ghost predicate Clear(s: State, debounce: real) {
    s.placing.Some? ==>
      !Debounced(s, s.placing.value.start, debounce) && !Debounced(s, s.placing.value.last, debounce)
  }

  ghost predicate Numbered(run: Run, debounce: real) {
    && run.state.total == |run.counts|
    && (forall k :: 0 <= k < |run.counts| ==> run.counts[k].number == k + 1)
    && (run.counts == [] ==> run.state.lastCenter.None?)
    && (run.counts != [] ==> run.state.lastCenter == Some(run.counts[|run.counts| - 1].center))
    && (forall k :: 0 < k < |run.counts| ==> run.counts[k].center - run.counts[k - 1].center > debounce)
    && Clear(run.state, debounce)
  }

  lemma MidPointIsClear(s: State, debounce: real)
    requires Clear(s, debounce) && s.placing.Some?
    ensures !Debounced(s, MidPoint(s.placing.value), debounce)
  {
  }

  lemma FeedNumbered(run: Run, v: Verdict, debounce: real)
    requires Numbered(run, debounce)
    ensures var now := Feed(run.state, v, debounce); Numbered(Run(now.state, run.counts + now.counts), debounce)
  {
    if run.state.placing.Some? {
      MidPointIsClear(run.state, debounce);
    }
  }

  lemma {:induction false} FeedAllNumbered(vs: seq<Verdict>, debounce: real)
    ensures Numbered(FeedAll(vs, debounce), debounce)
  {
    if vs != [] {
      hide Feed, Numbered;
      FeedAllNumbered(vs[..|vs| - 1], debounce);
      FeedNumbered(FeedAll(vs[..|vs| - 1], debounce), vs[|vs| - 1], debounce);
    } else {
      assert FeedAll(vs, debounce) == Run(QUIET, []);
    }
  }

  // The second debounce test, on the midpoint, never drops a placement, whatever
  // verdicts were fed in whatever order.
  lemma MidPointNeverDropped(vs: seq<Verdict>, debounce: real)
    ensures var s := FeedAll(vs, debounce).state;
      s.placing.Some? ==> !Debounced(s, MidPoint(s.placing.value), debounce)
  {
    FeedAllNumbered(vs, debounce);
    hide FeedAll;
    var s := FeedAll(vs, debounce).state;
    if s.placing.Some? {
      MidPointIsClear(s, debounce);
    }
  }

  lemma FinalizeNumbered(run: Run, debounce: real)
    requires Numbered(run, debounce)
    ensures var now := Finalize(run.state, debounce); Numbered(Run(now.state, run.counts + now.counts), debounce)
  {
    if run.state.placing.Some? {
      MidPointIsClear(run.state, debounce);
    }
  }

  // For verdicts in any order counts are numbered 1, 2, ... and their centers
  // are more than the debounce apart.
  lemma CountsNumberedAndApart(vs: seq<Verdict>, debounce: real, finalize: bool, k: nat)
    requires k < |CountPlacements(vs, debounce, finalize)|
    ensures var counts := CountPlacements(vs, debounce, finalize);
      && counts[k].number == k + 1
      && (k > 0 ==> counts[k].center - counts[k - 1].center > debounce)
  {
    var run := FeedAll(Sorting.Sort(NotLater, vs), debounce);
    FeedAllNumbered(Sorting.Sort(NotLater, vs), debounce);
    hide FeedAll, Finalize;
    FinalizeNumbered(run, debounce);
  }

  // ----- sorted verdicts: counts are disjoint intervals -----

  ghost predicate Sorted(vs: seq<Verdict>) {
    Sorting.Ordered(NotLater, vs)
  }

  // now is a time no verdict so far lies beyond.
  ghost predicate Intervals(run: Run, debounce: real, now: Option<real>) {
    && Numbered(run, debounce)
    && (run.counts != [] || run.state.placing.Some? ==> now.Some?)
    && (forall k :: 0 <= k < |run.counts| ==>
          run.counts[k].start <= run.counts[k].center <= run.counts[k].end <= now.value)
    && (forall k :: 0 < k < |run.counts| ==>
          run.counts[k - 1].end <= run.counts[k].start && run.counts[k].start - run.counts[k - 1].center > debounce)
    && (run.state.placing.Some? ==>
          var p := run.state.placing.value;
          && p.start <= p.last <= now.value
          && (run.counts != [] ==> run.counts[|run.counts| - 1].end <= p.start))
  }

  lemma AssertIntervals(run: Run, v: Verdict, debounce: real, now: Option<real>)
    requires Intervals(run, debounce, now) && (now.Some? ==> now.value <= v.center)
    ensures Intervals(Run(Assert(run.state, v, debounce), run.counts), debounce, Some(v.center))
  {
    hide Numbered, Debounced;
    AssertNumbered(run, v, debounce);
  }

  lemma AssertNumbered(run: Run, v: Verdict, debounce: real)
    requires Numbered(run, debounce)
    ensures Numbered(Run(Assert(run.state, v, debounce), run.counts), debounce)
  {
    FeedNumbered(run, v.(asserted := true), debounce);
    assert run.counts + [] == run.counts;
  }

  lemma EmitIntervals(run: Run, time: real, debounce: real, now: Option<real>)
    requires Intervals(run, debounce, now) && run.state.placing.Some? && now.Some? && now.value <= time
    ensures var next := Emit(run.state, run.state.placing.value, time, debounce);
      Intervals(Run(next.state, run.counts + next.counts), debounce, Some(time))
  {
    MidPointIsClear(run.state, debounce);
    FeedNumbered(run, Verdict(time, false, ""), debounce);
    StartIsClear(run, debounce);
    hide Numbered, Debounced;
  }

  lemma StartIsClear(run: Run, debounce: real)
    requires Numbered(run, debounce) && run.state.placing.Some?
    ensures run.counts != [] ==> run.state.placing.value.start - run.counts[|run.counts| - 1].center > debounce
  {
  }

  lemma FeedIntervals(run: Run, v: Verdict, debounce: real, now: Option<real>)
    requires Intervals(run, debounce, now) && (now.Some? ==> now.value <= v.center)
    ensures var next := Feed(run.state, v, debounce);
      Intervals(Run(next.state, run.counts + next.counts), debounce, Some(v.center))
  {
    assert run.counts + [] == run.counts;
    if v.asserted {
      AssertIntervals(run, v, debounce, now);
      hide Intervals;
    } else if run.state.placing.Some? {
      EmitIntervals(run, v.center, debounce, now);
      hide Intervals;
    }
  }

  lemma {:induction false} FeedAllIntervals(vs: seq<Verdict>, debounce: real)
    requires Sorted(vs)
    ensures Intervals(FeedAll(vs, debounce), debounce, if vs == [] then None else Some(vs[|vs| - 1].center))
  {
    if vs == [] {
      FeedAllNumbered(vs, debounce);
    } else {
      hide Feed, Intervals;
      var n := |vs| - 1;
      FeedAllIntervals(vs[..n], debounce);
      if n > 0 {
        assert NotLater(vs[n - 1], vs[n]);
      }
      FeedIntervals(FeedAll(vs[..n], debounce), vs[n], debounce, if n == 0 then None else Some(vs[n - 1].center));
    }
  }

  lemma FinalizeIntervals(run: Run, debounce: real, now: Option<real>)
    requires Intervals(run, debounce, now)
    ensures var next := Finalize(run.state, debounce);
      Intervals(Run(next.state, run.counts + next.counts), debounce, now)
  {
    assert run.counts + [] == run.counts;
    if run.state.placing.Some? {
      FinalizeNumbered(run, debounce);
      MidPointIsClear(run.state, debounce);
      StartIsClear(run, debounce);
      hide Numbered, Debounced;
    }
  }

  // count_placements sorts, so its counts are disjoint intervals in order, each
  // starting more than the debounce after the center before.
  lemma CountsAreDisjointIntervals(vs: seq<Verdict>, debounce: real, finalize: bool, k: nat)
    requires k < |CountPlacements(vs, debounce, finalize)|
    ensures var counts := CountPlacements(vs, debounce, finalize);
      && counts[k].start <= counts[k].center <= counts[k].end
      && (k > 0 ==> counts[k - 1].end <= counts[k].start && counts[k].start - counts[k - 1].center > debounce)
  {
    Sorting.SortOrders(NotLater, vs);
    hide FeedAll, Finalize, Sorting.Sort;
    var sorted := Sorting.Sort(NotLater, vs);
    FeedAllIntervals(sorted, debounce);
    FinalizeIntervals(FeedAll(sorted, debounce), debounce,
                      if sorted == [] then None else Some(sorted[|sorted| - 1].center));
  }

  // ----- no asserted verdict is lost -----

  // A count covers the time, or debounces it, or it is still pending.
  ghost predicate Explained(run: Run, debounce: real, time: real) {
    || (exists k :: 0 <= k < |run.counts| && Covers(run.counts[k], debounce, time))
    || (run.state.placing.Some? && run.state.placing.value.start <= time <= run.state.placing.value.last)
  }

  ghost predicate Covers(c: Count, debounce: real, time: real) {
    c.start <= time <= c.end || (c.center <= time <= c.center + debounce) || (c.end <= time <= c.center + debounce)
  }

  lemma StaysExplained(run: Run, v: Verdict, debounce: real, now: Option<real>, time: real)
    requires Intervals(run, debounce, now) && (now.Some? ==> now.value <= v.center)
    requires Explained(run, debounce, time)
    ensures var next := Feed(run.state, v, debounce);
      Explained(Run(next.state, run.counts + next.counts), debounce, time)
  {
    hide Numbered, Covers;
    var next := Feed(run.state, v, debounce);
    var counts := run.counts + next.counts;
    if k :| 0 <= k < |run.counts| && Covers(run.counts[k], debounce, time) {
      assert Covers(counts[k], debounce, time);
    } else if !v.asserted {
      MidPointDrops(run, debounce);
      assert counts[|run.counts|] == next.counts[0];
      assert Covers(next.counts[0], debounce, time) by { CoversInterval(next.counts[0], debounce, time); }
    }
  }

  lemma MidPointDrops(run: Run, debounce: real)
    requires Numbered(run, debounce) && run.state.placing.Some?
    ensures !Debounced(run.state, MidPoint(run.state.placing.value), debounce)
  {
    MidPointIsClear(run.state, debounce);
  }

  lemma CoversInterval(c: Count, debounce: real, time: real)
    requires c.start <= time <= c.end
    ensures Covers(c, debounce, time)
  {
  }

  lemma NewlyExplained(run: Run, v: Verdict, debounce: real, now: Option<real>)
    requires Intervals(run, debounce, now) && (now.Some? ==> now.value <= v.center) && v.asserted
    ensures var next := Feed(run.state, v, debounce);
      Explained(Run(next.state, run.counts + next.counts), debounce, v.center)
  {
    var next := Feed(run.state, v, debounce);
    if Debounced(run.state, v.center, debounce) {
      var k := |run.counts| - 1;
      assert Covers((run.counts + next.counts)[k], debounce, v.center);
    }
  }

  // Each assert is in the pending placement or covered by a count.
  lemma {:induction false} AssertsAreExplained(vs: seq<Verdict>, debounce: real, i: nat)
    requires Sorted(vs) && i < |vs| && vs[i].asserted
    ensures Explained(FeedAll(vs, debounce), debounce, vs[i].center)
  {
    hide Explained, Intervals, Feed;
    var n := |vs| - 1;
    var now := if n == 0 then None else Some(vs[n - 1].center);
    FeedAllIntervals(vs[..n], debounce);
    if n > 0 {
      assert NotLater(vs[n - 1], vs[n]);
    }
    if i < n {
      AssertsAreExplained(vs[..n], debounce, i);
      StaysExplained(FeedAll(vs[..n], debounce), vs[n], debounce, now, vs[i].center);
    } else {
      NewlyExplained(FeedAll(vs[..n], debounce), vs[n], debounce, now);
    }
  }

  lemma FinalizeExplains(run: Run, debounce: real, now: Option<real>, time: real)
    requires Intervals(run, debounce, now) && Explained(run, debounce, time)
    ensures var next := Finalize(run.state, debounce);
      Explained(Run(next.state, run.counts + next.counts), debounce, time) && next.state.placing.None?
  {
    hide Numbered, Covers;
    var next := Finalize(run.state, debounce);
    var counts := run.counts + next.counts;
    if k :| 0 <= k < |run.counts| && Covers(run.counts[k], debounce, time) {
      assert Covers(counts[k], debounce, time);
    } else {
      MidPointDrops(run, debounce);
      assert counts[|run.counts|] == next.counts[0];
      assert Covers(next.counts[0], debounce, time) by { CoversInterval(next.counts[0], debounce, time); }
    }
  }

  // Once finalized, every assert of the batch is covered by a count: it lies in
  // the count's interval or within the debounce after its center.
  lemma FinalizedAssertsAreCovered(vs: seq<Verdict>, debounce: real, i: nat)
    requires i < |vs| && vs[i].asserted
    ensures var counts := CountPlacements(vs, debounce, true);
      exists k :: 0 <= k < |counts| && Covers(counts[k], debounce, vs[i].center)
  {
    var sorted := Sorting.Sort(NotLater, vs);
    Sorting.SortOrders(NotLater, vs);
    Sorting.SortMembers(NotLater, vs);
    assert vs[i] in sorted;
    var j :| 0 <= j < |sorted| && sorted[j] == vs[i];
    hide FeedAll, Finalize, Sorting.Sort, Covers;
    FeedAllIntervals(sorted, debounce);
    AssertsAreExplained(sorted, debounce, j);
    var run := FeedAll(sorted, debounce);
    FinalizeExplains(run, debounce, Some(sorted[|sorted| - 1].center), vs[i].center);
    var counts := run.counts + Finalize(run.state, debounce).counts;
    assert counts == CountPlacements(vs, debounce, true);
  }
}
