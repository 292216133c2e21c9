// Counting by runs: what the step-by-step counter of PlacementSpec computes, said
// without its state.  Each refute looks back at the asserts right before it.
module PlacementRuns {
  import opened Prelude
  import opened PlacementSpec
  import Sorting

  // The asserts right before place q, back to the refute before them.
  function Block(vs: seq<Verdict>, q: nat): seq<Verdict>
    requires q <= |vs|
  {
    if q == 0 || !vs[q - 1].asserted then [] else Block(vs, q - 1) + [vs[q - 1]]
  }

  // Those of them that are later than the debounce after the last count.
  function Beyond(vs: seq<Verdict>, counts: seq<Count>, debounce: real): seq<Verdict> {
    if vs == [] then []
    else
      var before := Beyond(vs[..|vs| - 1], counts, debounce);
      var v := vs[|vs| - 1];
      if counts != [] && v.center <= counts[|counts| - 1].center + debounce then before else before + [v]
  }

  function IdsOf(vs: seq<Verdict>): seq<string> {
    if vs == [] then []
    else
      var before := IdsOf(vs[..|vs| - 1]);
      var id := vs[|vs| - 1].candidateId;
      if id == "" then before else before + [id]
  }

  // The count that the asserts of a run make, ended at the given time.
  function RunCount(run: seq<Verdict>, number: int, end: real): Count
    requires run != []
  {
    Count(number, (run[0].center + run[|run| - 1].center) / 2.0, run[0].center, end, IdsOf(run))
  }

  // One count for each refute with an assert right before it that the last count
  // does not debounce.
  function RunCounts(vs: seq<Verdict>, debounce: real): seq<Count> {
    if vs == [] then []
    else
      var n := |vs| - 1;
      var before := RunCounts(vs[..n], debounce);
      var run := Beyond(Block(vs, n), before, debounce);
      if vs[n].asserted || run == [] then before
      else before + [RunCount(run, |before| + 1, vs[n].center)]
  }

  // The asserts no refute has followed yet make a count of their own at the end.
  function FinalRunCounts(vs: seq<Verdict>, debounce: real): seq<Count> {
    var counts := RunCounts(vs, debounce);
    var run := Beyond(Block(vs, |vs|), counts, debounce);
    if run == [] then counts else counts + [RunCount(run, |counts| + 1, run[|run| - 1].center)]
  }

  // ----- the counter counts runs -----

  // The pending placement is the run at the end of what was fed.
  ghost predicate Follows(vs: seq<Verdict>, debounce: real, run: Run) {
    var open := Beyond(Block(vs, |vs|), run.counts, debounce);
    && run.counts == RunCounts(vs, debounce)
    && run.state.total == |run.counts|
    && run.state.lastCenter == (if run.counts == [] then None else Some(run.counts[|run.counts| - 1].center))
    && run.state.placing ==
       (if open == [] then None else Some(Placement(open[0].center, open[|open| - 1].center, IdsOf(open))))
  }

  lemma {:induction false} BlockOfPrefix(vs: seq<Verdict>, v: Verdict, q: nat)
    requires q <= |vs|
    ensures Block(vs + [v], q) == Block(vs, q)
  {
    if q > 0 {
      BlockOfPrefix(vs, v, q - 1);
    }
  }

  lemma BeyondMore(vs: seq<Verdict>, v: Verdict, counts: seq<Count>, debounce: real)
    ensures Beyond(vs + [v], counts, debounce)
            == if counts != [] && v.center <= counts[|counts| - 1].center + debounce then Beyond(vs, counts, debounce)
               else Beyond(vs, counts, debounce) + [v]
  {
    assert (vs + [v])[..|vs|] == vs;
  }

  lemma IdsMore(vs: seq<Verdict>, v: Verdict)
    ensures IdsOf(vs + [v]) == if v.candidateId == "" then IdsOf(vs) else IdsOf(vs) + [v.candidateId]
  {
    assert (vs + [v])[..|vs|] == vs;
  }

  lemma RunCountsMore(vs: seq<Verdict>, v: Verdict, debounce: real)
    ensures var before := RunCounts(vs, debounce);
      var run := Beyond(Block(vs, |vs|), before, debounce);
      RunCounts(vs + [v], debounce)
      == if v.asserted || run == [] then before else before + [RunCount(run, |before| + 1, v.center)]
  {
    assert (vs + [v])[..|vs|] == vs;
    BlockOfPrefix(vs, v, |vs|);
  }

  lemma AssertFollows(vs: seq<Verdict>, v: Verdict, debounce: real, run: Run)
    requires Follows(vs, debounce, run) && v.asserted
    ensures Follows(vs + [v], debounce, Run(Assert(run.state, v, debounce), run.counts))
  {
    hide Beyond, RunCounts, IdsOf;
    RunCountsMore(vs, v, debounce);
    BlockOfPrefix(vs, v, |vs|);
    var block := Block(vs, |vs|);
    assert Block(vs + [v], |vs| + 1) == block + [v];
    BeyondMore(block, v, run.counts, debounce);
    IdsMore(Beyond(block, run.counts, debounce), v);
    NoIds();
  }

  lemma NoIds()
    ensures IdsOf([]) == []
  {
  }

  lemma RefuteFollows(vs: seq<Verdict>, v: Verdict, debounce: real, run: Run)
    requires Follows(vs, debounce, run) && !v.asserted && Numbered(run, debounce)
    ensures var now := Quiet(run.state, v.center, debounce);
      Follows(vs + [v], debounce, Run(now.state, run.counts + now.counts))
  {
    hide Beyond, RunCounts, IdsOf, Numbered;
    RunCountsMore(vs, v, debounce);
    assert Block(vs + [v], |vs| + 1) == [];
    NothingBeyond(RunCounts(vs + [v], debounce), debounce);
    if run.state.placing.Some? {
      MidPointDrops(run, debounce);
    }
  }

  lemma NothingBeyond(counts: seq<Count>, debounce: real)
    ensures Beyond([], counts, debounce) == []
  {
  }

  lemma {:induction false} FeedAllFollows(vs: seq<Verdict>, debounce: real)
    ensures Follows(vs, debounce, FeedAll(vs, debounce))
  {
    if vs != [] {
      hide Follows, Quiet, Assert;
      var n := |vs| - 1;
      var before := FeedAll(vs[..n], debounce);
      FeedAllFollows(vs[..n], debounce);
      FeedAllNumbered(vs[..n], debounce);
      assert vs == vs[..n] + [vs[n]];
      if vs[n].asserted {
        AssertFollows(vs[..n], vs[n], debounce, before);
        assert before.counts + [] == before.counts;
      } else {
        RefuteFollows(vs[..n], vs[n], debounce, before);
      }
    }
  }

  // Whatever the order, the counter's counts are those of the runs.
  lemma CounterCountsRuns(vs: seq<Verdict>, debounce: real)
    ensures FeedAll(vs, debounce).counts == RunCounts(vs, debounce)
    ensures var run := FeedAll(vs, debounce);
      run.counts + Finalize(run.state, debounce).counts == FinalRunCounts(vs, debounce)
  {
    var run := FeedAll(vs, debounce);
    FeedAllFollows(vs, debounce);
    FeedAllNumbered(vs, debounce);
    hide FeedAll, RunCounts, Beyond, Block, IdsOf, Numbered;
    if run.state.placing.Some? {
      MidPointDrops(run, debounce);
    }
  }

  // ----- what a count stems from -----

  // The count starts at an assert, has its center half way to a later one, and
  // names only asserts, all in the order they came in.
  ghost predicate Stems(vs: seq<Verdict>, c: Count) {
    exists a: nat, l: nat :: a <= l < |vs| && Between(vs, c, a, l)
  }

  ghost predicate Between(vs: seq<Verdict>, c: Count, a: nat, l: nat)
    requires a <= l < |vs|
  {
    && (forall i :: a <= i <= l ==> vs[i].asserted)
    && c.start == vs[a].center && c.center == (vs[a].center + vs[l].center) / 2.0
    && (forall id :: id in c.candidateIds ==> exists i :: a <= i <= l && vs[i].candidateId == id)
  }

  // The k-th of the verdicts that stayed stands at place at[k].
  ghost predicate Places(vs: seq<Verdict>, part: seq<Verdict>, at: seq<nat>) {
    && |at| == |part|
    && (forall k :: 0 <= k < |at| ==> at[k] < |vs| && vs[at[k]] == part[k])
    && (forall j, k :: 0 <= j < k < |at| ==> at[j] < at[k])
  }

  lemma {:induction false} BeyondPlaces(vs: seq<Verdict>, counts: seq<Count>, debounce: real) returns (at: seq<nat>)
    ensures Places(vs, Beyond(vs, counts, debounce), at)
  {
    at := [];
    if vs != [] {
      hide Places;
      var front := vs[..|vs| - 1];
      var v := vs[|vs| - 1];
      at := BeyondPlaces(front, counts, debounce);
      assert vs == front + [v];
      PlacesMore(front, v, Beyond(front, counts, debounce), at);
      if !(counts != [] && v.center <= counts[|counts| - 1].center + debounce) {
        at := at + [|vs| - 1];
      }
    }
  }

  lemma PlacesMore(vs: seq<Verdict>, v: Verdict, part: seq<Verdict>, at: seq<nat>)
    requires Places(vs, part, at)
    ensures Places(vs + [v], part, at) && Places(vs + [v], part + [v], at + [|vs|])
  {
  }

  lemma {:induction false} BlockIsAsserts(vs: seq<Verdict>, q: nat)
    requires q <= |vs|
    ensures |Block(vs, q)| <= q && Block(vs, q) == vs[q - |Block(vs, q)|..q]
    ensures forall v :: v in Block(vs, q) ==> v.asserted
  {
    if q > 0 && vs[q - 1].asserted {
      BlockIsAsserts(vs, q - 1);
    }
  }

  lemma {:induction false} IdsAreTheirs(vs: seq<Verdict>)
    ensures forall id :: id in IdsOf(vs) ==> exists i :: 0 <= i < |vs| && vs[i].candidateId == id
  {
    if vs != [] {
      var n := |vs| - 1;
      IdsAreTheirs(vs[..n]);
      forall id | id in IdsOf(vs)
        ensures exists i :: 0 <= i < |vs| && vs[i].candidateId == id
      {
        if id in IdsOf(vs[..n]) {
          var i :| 0 <= i < n && vs[..n][i].candidateId == id;
          assert vs[i].candidateId == id;
        } else {
          assert vs[n].candidateId == id;
        }
      }
    }
  }

  lemma RunStems(vs: seq<Verdict>, q: nat, counts: seq<Count>, debounce: real, number: int, end: real)
    requires q <= |vs| && Beyond(Block(vs, q), counts, debounce) != []
    ensures Stems(vs, RunCount(Beyond(Block(vs, q), counts, debounce), number, end))
  {
    hide Beyond, Block, IdsOf;
    var block := Block(vs, q);
    var run := Beyond(block, counts, debounce);
    var c := RunCount(run, number, end);
    var at := BeyondPlaces(block, counts, debounce);
    BlockIsAsserts(vs, q);
    IdsAreTheirs(run);
    var base := q - |block|;
    var a, l := base + at[0], base + at[|at| - 1];
    assert at[0] <= at[|at| - 1];
    forall i | a <= i <= l
      ensures vs[i].asserted
    {
      assert vs[i] == block[i - base];
    }
    forall id | id in c.candidateIds
      ensures exists i :: a <= i <= l && vs[i].candidateId == id
    {
      var k :| 0 <= k < |run| && run[k].candidateId == id;
      assert at[0] <= at[k] <= at[|at| - 1];
      assert vs[base + at[k]].candidateId == id;
    }
    assert Between(vs, c, a, l);
  }

  lemma StemsMore(vs: seq<Verdict>, v: Verdict, c: Count)
    requires Stems(vs, c)
    ensures Stems(vs + [v], c)
  {
    var a: nat, l: nat :| a <= l < |vs| && Between(vs, c, a, l);
    forall id | id in c.candidateIds
      ensures exists i :: a <= i <= l && (vs + [v])[i].candidateId == id
    {
      var i :| a <= i <= l && vs[i].candidateId == id;
      assert (vs + [v])[i].candidateId == id;
    }
    assert Between(vs + [v], c, a, l);
  }

  lemma {:induction false} RunCountsStem(vs: seq<Verdict>, debounce: real)
    ensures forall c :: c in RunCounts(vs, debounce) ==> Stems(vs, c)
  {
    if vs != [] {
      hide Stems, Block, Beyond, RunCount;
      var n := |vs| - 1;
      assert vs == vs[..n] + [vs[n]];
      RunCountsStem(vs[..n], debounce);
      var before := RunCounts(vs[..n], debounce);
      forall c | c in before
        ensures Stems(vs, c)
      {
        StemsMore(vs[..n], vs[n], c);
      }
      if Beyond(Block(vs, n), before, debounce) != [] {
        RunStems(vs, n, before, debounce, |before| + 1, vs[n].center);
      }
    }
  }

  // Every count of a batch stems from asserts of the batch that follow each other
  // once it is sorted.
  lemma CountsStemFromAsserts(vs: seq<Verdict>, debounce: real, finalize: bool, c: Count)
    requires c in CountPlacements(vs, debounce, finalize)
    ensures Stems(Sorting.Sort(NotLater, vs), c)
  {
    hide FeedAll, RunCounts, Finalize, Stems, Block, Beyond, RunCount;
    var sorted := Sorting.Sort(NotLater, vs);
    CounterCountsRuns(sorted, debounce);
    RunCountsStem(sorted, debounce);
    var counts := RunCounts(sorted, debounce);
    var run := Beyond(Block(sorted, |sorted|), counts, debounce);
    if run != [] {
      RunStems(sorted, |sorted|, counts, debounce, |counts| + 1, run[|run| - 1].center);
    }
  }

  // Without an assert nothing is counted.
  lemma {:induction false} NoAssertNoCount(vs: seq<Verdict>, debounce: real)
    requires forall v :: v in vs ==> !v.asserted
    ensures FeedAll(vs, debounce).counts == [] && FeedAll(vs, debounce).state.placing.None?
  {
    if vs != [] {
      NoAssertNoCount(vs[..|vs| - 1], debounce);
    }
  }
}
