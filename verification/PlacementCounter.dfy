// app/services/placement_counter.py as the source has it: an object whose
// methods update the pending placement in place, and the loop that drives it.
module PlacementCounter {
  import opened Prelude
  import opened PlacementSpec
  import Sorting

  class PlacementCounter {
    const debounceSec: real
    var totalCount: int
    var inPlacement: bool
    var pendingStart: Option<real>
    var pendingLast: Option<real>
    var pendingIds: seq<string>
    var lastCountCenter: Option<real>

    ghost predicate Valid()
      reads this
    {
      && (inPlacement <==> pendingStart.Some?)
      && (inPlacement <==> pendingLast.Some?)
      && (!inPlacement ==> pendingIds == [])
    }

    ghost function Value(): State
      requires Valid()
      reads this
    {
      State(totalCount,
            if inPlacement then Some(Placement(pendingStart.value, pendingLast.value, pendingIds)) else None,
            lastCountCenter)
    }

    constructor (debounce: real)
      ensures Valid() && debounceSec == debounce && Value() == QUIET
    {
      debounceSec := debounce;
      totalCount, inPlacement, pendingStart, pendingLast, pendingIds := 0, false, None, None, [];
      lastCountCenter := None;
    }

    method Update(v: Verdict) returns (counts: seq<Count>)
      requires Valid()
      modifies this
      ensures Valid() && Run(Value(), counts) == Feed(old(Value()), v, debounceSec)
    {
      if v.asserted {
        ObservePlacement(v);
        counts := [];
      } else {
        counts := ObserveQuiet(v.center);
      }
    }

    method ObservePlacement(v: Verdict)
      requires Valid()
      modifies this
      ensures Valid() && Value() == Assert(old(Value()), v, debounceSec)
    {
      if lastCountCenter.Some? && v.center - lastCountCenter.value <= debounceSec {
        return;
      }
      if !inPlacement {
        inPlacement := true;
        pendingStart := Some(v.center);
        pendingIds := [];
      }
      pendingLast := Some(v.center);
      if v.candidateId != "" {
        pendingIds := pendingIds + [v.candidateId];
      }
    }

    method ObserveQuiet(quietSec: real) returns (counts: seq<Count>)
      requires Valid()
      modifies this
      ensures Valid() && Run(Value(), counts) == PlacementSpec.Quiet(old(Value()), quietSec, debounceSec)
    {
      if !inPlacement {
        return [];
      }
      counts := EmitPending(quietSec);
    }

    method Finalize() returns (counts: seq<Count>)
      requires Valid()
      modifies this
      ensures Valid() && Run(Value(), counts) == PlacementSpec.Finalize(old(Value()), debounceSec)
    {
      if !inPlacement {
        return [];
      }
      counts := EmitPending(pendingLast.value);
    }

    method EmitPending(end: real) returns (counts: seq<Count>)
      requires Valid() && inPlacement
      modifies this
      ensures Valid() && Run(Value(), counts) == Emit(old(Value()), old(Value()).placing.value, end, debounceSec)
    {
      var center := (pendingStart.value + pendingLast.value) / 2.0;
      if lastCountCenter.Some? && center - lastCountCenter.value <= debounceSec {
        ResetPending();
        return [];
      }
      totalCount := totalCount + 1;
      counts := [Count(totalCount, center, pendingStart.value, end, pendingIds)];
      lastCountCenter := Some(center);
      ResetPending();
    }

    method ResetPending()
      modifies this`inPlacement, this`pendingStart, this`pendingLast, this`pendingIds
      ensures !inPlacement && pendingStart.None? && pendingLast.None? && pendingIds == []
    {
      inPlacement, pendingStart, pendingLast, pendingIds := false, None, None, [];
    }
  }

  // The source's constructor raises for a debounce that is not positive.
  method Create(debounce: real) returns (r: Result<PlacementCounter>)
    ensures r.Failure? <==> debounce <= 0.0
    ensures r.Success? ==>
      fresh(r.value) && r.value.Valid() && r.value.debounceSec == debounce && r.value.Value() == QUIET
  {
    if debounce <= 0.0 {
      return Failure("debounce_sec must be positive");
    }
    var counter := new PlacementCounter(debounce);
    r := Success(counter);
  }

  method CountAll(verdicts: seq<Verdict>, debounce: real, finalizeAtEnd: bool) returns (r: Result<seq<Count>>)
    ensures r.Failure? <==> debounce <= 0.0
    ensures r.Success? ==> r.value == CountPlacements(verdicts, debounce, finalizeAtEnd)
  {
    var created := Create(debounce);
    if created.Failure? {
      return Failure(created.error);
    }
    var counter := created.value;
    var sorted := Sorting.Sort(NotLater, verdicts);
    var counts: seq<Count> := [];
    for i := 0 to |sorted|
      invariant counter.Valid() && fresh(counter) && counter.debounceSec == debounce
      invariant Run(counter.Value(), counts) == FeedAll(sorted[..i], debounce)
    {
      assert sorted[..i + 1][..i] == sorted[..i];
      var more := counter.Update(sorted[i]);
      counts := counts + more;
    }
    assert sorted[..|sorted|] == sorted;
    if finalizeAtEnd {
      var more := counter.Finalize();
      counts := counts + more;
    }
    r := Success(counts);
  }
}
