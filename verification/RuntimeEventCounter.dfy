// RuntimeEventCounter of app/services/runtime_event_counter.py as the source
// has it: a tracker object, a counter object and one accumulator object per
// track id, all updated in place and proved to follow RuntimeModel.
module RuntimeEventCounter {
  import opened Prelude
  import opened Geometry
  import opened CountModel
  import C = CountStateMachine
  import T = BoxTracker
  import opened GateStitching
  import R = RuntimeModel

  class RuntimeEventCounter {
    const config: R.RuntimeConfig
    const tracker: T.SimpleBoxTracker
    const machine: C.CountStateMachine
    var accOrder: seq<int>
    var accs: map<int, GateAccumulator>
    var frameIndex: int

    ghost var values: map<int, Accumulator>
    ghost var AccRepr: set<object>
    ghost var Repr: set<object>

    ghost predicate Valid()
      reads this, Repr
    {
      && this in Repr && tracker in Repr && machine in Repr && machine.Repr <= Repr && AccRepr <= Repr
      && this !in machine.Repr && tracker !in machine.Repr
      && AccRepr !! machine.Repr + {this, tracker, machine}
      && machine.Healthy() && machine.config == config.count
      && T.TrackerOk(tracker.State()) && tracker.settings == config.tracker
      && AccsValid()
    }

    ghost predicate AccsValid()
      reads this, AccRepr
    {
      && accs.Keys == values.Keys
      && (forall id :: id in accOrder <==> id in accs)
      && (forall id :: id in accs ==> accs[id] in AccRepr && accs[id].trackId == id)
      && (forall id :: id in accs ==> accs[id].Value() == values[id])
    }

    ghost function State(): R.Runtime
      reads this, tracker, machine
    {
      R.Runtime(tracker.State(), accOrder, values, machine.M, frameIndex)
    }

    constructor (config: R.RuntimeConfig)
      ensures Valid() && fresh(Repr) && this.config == config && State() == R.START
    {
      hide C.CountStateMachine.Valid, T.TrackerOk, T.SimpleBoxTracker.State;
      this.config := config;
      var t := new T.SimpleBoxTracker(config.tracker);
      var m := new C.CountStateMachine(config.count);
      tracker, machine := t, m;
      accOrder, accs, frameIndex := [], map[], 0;
      values, AccRepr := map[], {};
      Repr := {this, t, m} + m.Repr;
    }

    // ----- accumulators -----

    method NewAccumulator(id: int)
      requires Valid() && id !in accs
      modifies this`accs, this`accOrder, this`values, this`AccRepr, this`Repr
      ensures Valid() && fresh(Repr - old(Repr)) && old(Repr) <= Repr
      ensures id in accs && fresh(AccRepr - old(AccRepr))
      ensures accOrder == old(accOrder) + [id] && values == old(values)[id := FRESH]
    {
      hide GateAccumulator.Value, C.CountStateMachine.Healthy, T.TrackerOk, T.SimpleBoxTracker.State;
      var a := new GateAccumulator(id);
      accs := accs[id := a];
      accOrder := accOrder + [id];
      values := values[id := FRESH];
      AccRepr, Repr := AccRepr + {a}, Repr + {a};
    }

    lemma AccsAreKnown()
      requires Valid()
      ensures accs.Keys == values.Keys && AccRepr <= Repr && AccRepr !! machine.Repr + {this, tracker, machine}
    {
      hide C.CountStateMachine.Healthy, T.TrackerOk;
    }

    method UpdateAccumulator(s: T.Sighting)
      requires Valid() && s.trackId in accs
      modifies AccRepr, this`values
      ensures Valid()
      ensures values == old(values)[s.trackId := Observed(old(values)[s.trackId], s.raw, frameIndex)]
    {
      hide GateAccumulator.Value, Observed;
      accs[s.trackId].Update(s.raw, frameIndex);
      values := values[s.trackId := Observed(values[s.trackId], s.raw, frameIndex)];
    }

    method AccumulateOne(s: T.Sighting)
      requires Valid()
      modifies this`accs, this`accOrder, this`values, this`AccRepr, this`Repr, AccRepr
      ensures Valid() && fresh(Repr - old(Repr)) && old(Repr) <= Repr
      ensures fresh(AccRepr - old(AccRepr))
      ensures State() == R.AccumulateOne(old(State()), s)
    {
      hide Valid, Observed;
      AccsAreKnown();
      if s.trackId !in accs {
        NewAccumulator(s.trackId);
      }
      UpdateAccumulator(s);
    }

    method Accumulate(found: seq<T.Sighting>)
      requires Valid()
      modifies this`accs, this`accOrder, this`values, this`AccRepr, this`Repr, AccRepr
      ensures Valid() && fresh(Repr - old(Repr)) && old(Repr) <= Repr
      ensures State() == R.Accumulate(old(State()), found)
    {
      hide Valid, State, R.AccumulateOne;
      for i := 0 to |found|
        invariant Valid() && fresh(Repr - old(Repr)) && old(Repr) <= Repr
        invariant fresh(AccRepr - old(AccRepr))
        invariant State() == R.Accumulate(old(State()), found[..i])
      {
        assert found[..i + 1][..i] == found[..i];
        AccumulateOne(found[i]);
      }
      assert found[..|found|] == found;
    }

    // ----- predecessor fragments -----

    method SelectGatePredecessor(id: int) returns (best: Option<int>)
      requires Valid() && id in accs
      ensures id in values
      ensures best == if values[id].centers == [] then None else Predecessor(config.stitch, values, accOrder, id)
    {
      assert accs[id].Value() == values[id];
      if accs[id].centers == [] {
        return None;
      }
      hide MayPrecede, Precedes, Within, DistanceSq;
      best := None;
      for i := 0 to |accOrder|
        invariant best == Predecessor(config.stitch, values, accOrder[..i], id)
      {
        assert accOrder[..i + 1][..i] == accOrder[..i];
        var candidate := accOrder[i];
        var eligible := IsEligible(id, candidate);
        if eligible {
          if best.None? {
            best := Some(candidate);
          } else {
            var closer := ComesFirst(id, candidate, best.value);
            if closer {
              best := Some(candidate);
            }
          }
        }
      }
      assert accOrder[..|accOrder|] == accOrder;
    }

    method IsEligible(id: int, candidate: int) returns (eligible: bool)
      requires Valid() && id in accs && candidate in accs && values[id].centers != []
      ensures eligible == MayPrecede(config.stitch, values, id, candidate)
      ensures eligible ==> values[candidate].centers != []
    {
      var acc, other := accs[id], accs[candidate];
      assert acc.Value() == values[id] && other.Value() == values[candidate];
      hide Within;
      if candidate == id || other.sourceFrames < config.stitch.sourceMinFrames {
        return false;
      }
      if other.outputFrames > 0 || other.centers == [] || other.lastSeen < 0 || acc.firstSeen < 0 {
        return false;
      }
      var gap := acc.firstSeen - other.lastSeen;
      if gap <= 0 || gap > MaxGap(config.stitch) {
        return false;
      }
      eligible := Within(other.centers[|other.centers| - 1], acc.centers[0], MaxLink(config.stitch));
    }

    method ComesFirst(id: int, a: int, b: int) returns (first: bool)
      requires Valid() && id in accs && a in accs && b in accs
      requires values[id].centers != [] && values[a].centers != [] && values[b].centers != []
      ensures first == Precedes(values, id, a, b)
    {
      var acc, x, y := accs[id], accs[a], accs[b];
      assert acc.Value() == values[id] && x.Value() == values[a] && y.Value() == values[b];
      hide DistanceSq;
      var gapX, gapY := acc.firstSeen - x.lastSeen, acc.firstSeen - y.lastSeen;
      var linkX := DistanceSq(x.centers[|x.centers| - 1], acc.centers[0]);
      var linkY := DistanceSq(y.centers[|y.centers| - 1], acc.centers[0]);
      if gapX != gapY {
        return gapX < gapY;
      }
      if linkX != linkY {
        return linkX < linkY;
      }
      if x.sourceFrames != y.sourceFrames {
        return x.sourceFrames > y.sourceFrames;
      }
      return a < b;
    }

    lemma AccIsKnown(id: int)
      requires Valid() && id in accs
      ensures id in values && accs[id].centers == values[id].centers
      ensures accs[id].sourceFrames == values[id].sourceFrames && accs[id].outputFrames == values[id].outputFrames
    {
      hide C.CountStateMachine.Healthy, T.TrackerOk;
      assert accs[id].Value() == values[id];
    }

    lemma KnownIsAcc(id: int)
      requires Valid() && id in values
      ensures id in accs
    {
    }

    method SelectGatePredecessorChain(id: int) returns (predecessors: seq<int>)
      requires Valid() && id in accs
      ensures id in values && predecessors == PredecessorChain(config.stitch, values, accOrder, id)
    {
      hide Valid, GateAccumulator.Value, MayPrecede, Predecessor;
      AccIsKnown(id);
      if accs[id].outputFrames <= 0 || accs[id].sourceFrames > 1 {
        return [];
      }
      predecessors := [];
      var current := id;
      var left := 3;
      while left > 0
        invariant 0 <= left <= 3 && current in accs && current in values
        invariant ChainBefore(config.stitch, values, accOrder, id, 3)
                  == ChainBefore(config.stitch, values, accOrder, current, left) + predecessors
      {
        AccIsKnown(current);
        var predecessor := SelectGatePredecessor(current);
        if predecessor.None? {
          break;
        }
        PredecessorIsKnown(config.stitch, values, accOrder, current);
        KnownIsAcc(predecessor.value);
        predecessors := [predecessor.value] + predecessors;
        current := predecessor.value;
        left := left - 1;
      }
    }

    // ----- the gate's verdicts and the chains they allow -----

    method JudgeTracks(found: seq<T.Sighting>, allowed: set<int>) returns (approved: set<int>, chains: seq<R.Chain>)
      requires Valid()
      ensures approved == R.Approved(State(), allowed)
      ensures chains == R.Chains(config, State(), found, allowed, State().accOrder)
    {
      hide R.BoxOf, PredecessorChain, C.CountStateMachine.Healthy, T.TrackerOk;
      approved, chains := {}, [];
      for i := 0 to |accOrder|
        invariant approved == set id | id in accOrder[..i] && id in allowed
        invariant chains == R.Chains(config, State(), found, allowed, accOrder[..i])
      {
        assert accOrder[..i + 1][..i] == accOrder[..i];
        assert accOrder[..i + 1] == accOrder[..i] + [accOrder[i]];
        var id := accOrder[i];
        var predecessors := SelectGatePredecessorChain(id);
        if id in allowed {
          approved := approved + {id};
          var box := R.BoxOf(found, id);
          if box.Some? {
            var source := if predecessors == [] then id else predecessors[0];
            chains := chains + [R.Chain(source, id, box.value)];
          }
        }
      }
      assert accOrder[..|accOrder|] == accOrder;
      assert forall id :: id in accOrder <==> id in values;
    }

    method CommitChains(chains: seq<R.Chain>) returns (events: seq<Event>)
      requires machine.Healthy()
      modifies machine.Repr
      ensures machine.Healthy() && fresh(machine.Repr - old(machine.Repr)) && old(machine.Repr) <= machine.Repr
      ensures machine.config == config.count ==> machine.M == R.CommitAll(config, old(machine.M), chains)
      ensures Events(machine.M.log) == Events(old(machine.M).log) + events
    {
      hide CommitChain, Events, R.ChainName, C.CountStateMachine.Healthy;
      events := [];
      for i := 0 to |chains|
        invariant machine.Healthy() && fresh(machine.Repr - old(machine.Repr)) && old(machine.Repr) <= machine.Repr
        invariant machine.config == config.count ==> machine.M == R.CommitAll(config, old(machine.M), chains[..i])
        invariant Events(machine.M.log) == Events(old(machine.M).log) + events
      {
        assert chains[..i + 1][..i] == chains[..i];
        var event := machine.CommitApprovedDeliveryChain(R.ChainName(chains[i].source), chains[i].output,
                                                         chains[i].box, Some(chains[i].source));
        events := events + C.Listed(event);
      }
      assert chains[..|chains|] == chains;
    }

    // ----- frames and flushes -----

    method Track(ds: seq<T.RawDetection>) returns (r: Result<seq<T.Sighting>>)
      requires Valid()
      modifies tracker
      ensures Valid()
      ensures r.Success? <==> forall d :: d in ds ==> T.WellSized(d)
      ensures r.Failure? ==> State() == old(State())
      ensures r.Success? ==>
        var (t, found) := T.NextFrame(config.tracker, old(State()).tracker, ds);
        r.value == found && State() == old(State()).(tracker := t)
    {
      hide C.CountStateMachine.Healthy, T.TrackerOk, T.NextFrame, T.WellSized, GateAccumulator.Value;
      r := tracker.Update(ds);
    }

    method Count(detections: seq<Detection>, approved: set<int>) returns (events: seq<Event>)
      requires Valid()
      modifies machine.Repr, this`Repr
      ensures Valid() && fresh(Repr - old(Repr)) && old(Repr) <= Repr && machine.Repr <= Repr
      ensures State() == old(State()).(machine := Update(config.count, old(State()).machine, detections, Some(approved)))
      ensures Events(machine.M.log) == Events(old(machine.M).log) + events
    {
      hide C.CountStateMachine.Healthy, T.TrackerOk, Update, GateAccumulator.Value, Events;
      events := machine.Update(detections, Some(approved));
      Repr := Repr + machine.Repr;
    }

    method Deliver(chains: seq<R.Chain>) returns (events: seq<Event>)
      requires Valid()
      modifies machine.Repr, this`Repr
      ensures Valid() && fresh(Repr - old(Repr)) && old(Repr) <= Repr
      ensures State() == old(State()).(machine := R.CommitAll(config, old(State()).machine, chains))
      ensures Events(machine.M.log) == Events(old(machine.M).log) + events
    {
      hide C.CountStateMachine.Healthy, T.TrackerOk, R.CommitAll, GateAccumulator.Value, Events;
      events := CommitChains(chains);
      Repr := Repr + machine.Repr;
    }

    method FinishFrame()
      requires Valid()
      modifies this`frameIndex
      ensures Valid() && State() == old(State()).(frame := old(State()).frame + 1)
    {
      hide C.CountStateMachine.Healthy, T.TrackerOk, GateAccumulator.Value;
      frameIndex := frameIndex + 1;
    }

    lemma Owns()
      requires Valid()
      ensures this in Repr && tracker in Repr && machine.Repr <= Repr && AccRepr <= Repr
      ensures machine.M == State().machine
    {
    }

    // A box without positive size raises before anything changes.
    method ProcessFrame(ds: seq<T.RawDetection>, allowed: set<int>) returns (r: Result<seq<Event>>)
      requires Valid()
      modifies Repr
      ensures Valid() && fresh(Repr - old(Repr)) && old(Repr) <= Repr
      ensures r.Success? <==> forall d :: d in ds ==> T.WellSized(d)
      ensures r.Failure? ==> State() == old(State())
      ensures r.Success? ==>
        && State() == R.ProcessFrame(config, old(State()), ds, allowed)
        && Events(State().machine.log) == Events(old(State()).machine.log) + r.value
    {
      hide Valid, State, T.NextFrame, T.WellSized, Events, R.Chains, R.CommitAll, Update, R.Accumulate, R.ToDetections,
        R.Approved;
      Owns();
      var tracked := Track(ds);
      if tracked.Failure? {
        return Failure(tracked.error);
      }
      var found := tracked.value;
      Owns();
      R.AccumulateSpares(State(), found);
      Accumulate(found);
      var approved, chains := JudgeTracks(found, allowed);
      var detections := Detections(found);
      Owns();
      var events := Count(detections, approved);
      Owns();
      var more := Deliver(chains);
      Owns();
      FinishFrame();
      r := Success(events + more);
    }

    method Detections(found: seq<T.Sighting>) returns (ds: seq<Detection>)
      ensures ds == R.ToDetections(found)
    {
      ds := [];
      for i := 0 to |found|
        invariant ds == R.ToDetections(found[..i])
      {
        assert found[..i + 1][..i] == found[..i];
        ds := ds + [R.ToDetection(found[i])];
      }
      assert found[..|found|] == found;
    }

    method FlushEndOfStream(iterations: int) returns (events: seq<Event>)
      requires Valid()
      modifies Repr
      ensures Valid() && fresh(Repr - old(Repr)) && old(Repr) <= Repr
      ensures State() == R.Flush(config, old(State()), if iterations >= 1 then iterations else 1)
      ensures Events(State().machine.log) == Events(old(State()).machine.log) + events
    {
      hide Valid, State, Events, Update;
      events := [];
      var n := if iterations >= 1 then iterations else 1;
      for i := 0 to n
        invariant Valid() && fresh(Repr - old(Repr)) && old(Repr) <= Repr
        invariant State() == R.Flush(config, old(State()), i)
        invariant Events(State().machine.log) == Events(old(State()).machine.log) + events
      {
        Owns();
        var more := Count([], {});
        Owns();
        events := events + more;
        FinishFrame();
        Owns();
      }
    }
  }

  lemma PredecessorIsKnown(cfg: StitchConfig, accs: map<int, Accumulator>, ids: seq<int>, id: int)
    requires id in accs && accs[id].centers != []
    ensures var p := Predecessor(cfg, accs, ids, id); p.Some? ==> p.value in accs
  {
  }
}
