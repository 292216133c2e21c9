// What the gate of app/services/perception_gate.py is told about the tracks of a
// run, and what it decides when nobody stands in the way.
module RuntimeEvidence {
  import opened Prelude
  import opened Geometry
  import opened GateStitching
  import opened RuntimeModel
  import T = BoxTracker

  // ----- an accumulator is fed the sightings of its track -----

  // The sightings of one id in one frame.
  function Sightings(found: seq<T.Sighting>, id: int, frame: int): seq<Observation> {
    if found == [] then []
    else
      var last := found[|found| - 1];
      Sightings(found[..|found| - 1], id, frame) + if last.trackId == id then [Observation(last.raw, frame)] else []
  }

  // All sightings of one id in a run.
  function History(cfg: RuntimeConfig, inputs: seq<FrameInput>, id: int): seq<Observation> {
    if inputs == [] then []
    else
      var before := inputs[..|inputs| - 1];
      var r := Frames(cfg, before);
      History(cfg, before, id)
      + Sightings(T.NextFrame(cfg.tracker, r.tracker, inputs[|inputs| - 1].detections).1, id, r.frame)
  }

  ghost predicate IsFed(accs: map<int, Accumulator>, id: int, history: seq<Observation>) {
    && (id in accs <==> history != [])
    && (id in accs ==> accs[id] == Fed(history))
  }

  lemma KeepsFrame(r: Runtime, x: T.Sighting)
    ensures AccumulateOne(r, x).frame == r.frame
  {
    hide Observed;
  }

  lemma FedOneMore(history: seq<Observation>, o: Observation)
    ensures Fed(history + [o]) == Observed(Fed(history), o.raw, o.frame)
  {
    hide Observed;
    assert (history + [o])[..|history|] == history;
  }

  lemma AccumulateOneFeeds(r: Runtime, x: T.Sighting, id: int, history: seq<Observation>)
    requires IsFed(r.accs, id, history)
    ensures IsFed(AccumulateOne(r, x).accs, id,
                  history + if x.trackId == id then [Observation(x.raw, r.frame)] else [])
  {
    hide Observed;
    if x.trackId == id {
      FedOneMore(history, Observation(x.raw, r.frame));
    } else {
      assert history + [] == history;
    }
    hide Fed;
  }

  lemma {:induction false} AccumulateFeeds(r: Runtime, found: seq<T.Sighting>, id: int, history: seq<Observation>)
    requires IsFed(r.accs, id, history)
    ensures IsFed(Accumulate(r, found).accs, id, history + Sightings(found, id, r.frame))
    ensures Accumulate(r, found).frame == r.frame
  {
    hide AccumulateOne, IsFed;
    if found == [] {
      assert history + [] == history;
    } else {
      var front := found[..|found| - 1];
      var last := found[|found| - 1];
      AccumulateFeeds(r, front, id, history);
      AccumulateOneFeeds(Accumulate(r, front), last, id, history + Sightings(front, id, r.frame));
      var now := if last.trackId == id then [Observation(last.raw, r.frame)] else [];
      assert history + Sightings(found, id, r.frame) == history + Sightings(front, id, r.frame) + now;
      KeepsFrame(Accumulate(r, front), last);
    }
  }

  // In every run the accumulator of an id is one that was fed its sightings.
  lemma {:induction false} AccumulatorsAreFed(cfg: RuntimeConfig, inputs: seq<FrameInput>, id: int)
    ensures IsFed(Frames(cfg, inputs).accs, id, History(cfg, inputs, id))
  {
    hide CommitAll, Chains, Accumulate, IsFed, T.NextFrame;
    if inputs == [] {
      NothingFed(id);
    } else {
      var before := inputs[..|inputs| - 1];
      AccumulatorsAreFed(cfg, before, id);
      var r := Frames(cfg, before);
      var (t, found) := T.NextFrame(cfg.tracker, r.tracker, inputs[|inputs| - 1].detections);
      AccumulateFeeds(r.(tracker := t), found, id, History(cfg, before, id));
    }
  }

  lemma NothingFed(id: int)
    ensures IsFed(START.accs, id, [])
  {
  }

  // ----- what the gate is told: a track with its predecessors merged -----

  lemma {:induction false} ChainIsKnown(cfg: StitchConfig, accs: map<int, Accumulator>, ids: seq<int>, id: int, n: nat)
    requires id in accs
    ensures forall k :: 0 <= k < |ChainBefore(cfg, accs, ids, id, n)| ==> ChainBefore(cfg, accs, ids, id, n)[k] in accs
    decreases n
  {
    hide MayPrecede, Predecessor;
    if n > 0 && accs[id].centers != [] && Predecessor(cfg, accs, ids, id).Some? {
      PredecessorKnown(cfg, accs, ids, id);
      ChainIsKnown(cfg, accs, ids, Predecessor(cfg, accs, ids, id).value, n - 1);
    }
  }

  lemma PredecessorKnown(cfg: StitchConfig, accs: map<int, Accumulator>, ids: seq<int>, id: int)
    requires id in accs && accs[id].centers != []
    ensures var p := Predecessor(cfg, accs, ids, id); p.Some? ==> p.value in accs
  {
  }

  // The fragments the runtime takes for one object, the track itself last.
  function Fragments(cfg: RuntimeConfig, r: Runtime, id: int): seq<int>
    requires id in r.accs
  {
    PredecessorChain(cfg.stitch, r.accs, r.accOrder, id) + [id]
  }

  // An id without an accumulator has seen nothing; fragments always have one.
  function AccOf(r: Runtime, id: int): Accumulator {
    if id in r.accs then r.accs[id] else FRESH
  }

  function Evidence(cfg: RuntimeConfig, r: Runtime, id: int): Accumulator
    requires id in r.accs
  {
    var ids := Fragments(cfg, r, id);
    MergeAll(seq(|ids|, k requires 0 <= k < |ids| => AccOf(r, ids[k])))
  }

  function Histories(cfg: RuntimeConfig, inputs: seq<FrameInput>, ids: seq<int>): seq<seq<Observation>> {
    seq(|ids|, k requires 0 <= k < |ids| => History(cfg, inputs, ids[k]))
  }

  // In every frame of every run the gate judges a delivery that the tracker has
  // split as one accumulator would that saw all its fragments' sightings; only
  // the displacement may be larger.
  lemma {:induction false} GateSeesUnsplitDelivery(cfg: RuntimeConfig, inputs: seq<FrameInput>, id: int)
    requires id in Frames(cfg, inputs).accs
    ensures var r := Frames(cfg, inputs);
      var whole := Fed(Concat(Histories(cfg, inputs, Fragments(cfg, r, id))));
      && SameEvidence(Evidence(cfg, r, id), whole)
      && Evidence(cfg, r, id).maxDisplacementSq >= whole.maxDisplacementSq
  {
    hide Frames, History, Fed, SameEvidence, PredecessorChain, Concat, MergeAll;
    var r := Frames(cfg, inputs);
    var ids := Fragments(cfg, r, id);
    var parts := Histories(cfg, inputs, ids);
    ChainKnown(cfg, r, id);
    forall k | 0 <= k < |ids|
      ensures parts[k] != [] && AccOf(r, ids[k]) == Fed(parts[k])
    {
      AccumulatorsAreFed(cfg, inputs, ids[k]);
    }
    assert seq(|ids|, k requires 0 <= k < |ids| => AccOf(r, ids[k])) == FedEach(parts);
    StitchingIsNeverHavingSplit(parts);
  }

  lemma ChainKnown(cfg: RuntimeConfig, r: Runtime, id: int)
    requires id in r.accs
    ensures forall k :: 0 <= k < |Fragments(cfg, r, id)| ==> Fragments(cfg, r, id)[k] in r.accs
  {
    ChainIsKnown(cfg.stitch, r.accs, r.accOrder, id, 3);
    hide ChainBefore;
  }

  // ----- what the gate decides -----

  function LongestStepSq(centers: seq<Point>): real {
    if |centers| < 2 then 0.0
    else
      var n := |centers| - 1;
      MaxReal(LongestStepSq(centers[..n]), DistanceSq(centers[n - 1], centers[n]))
  }

  // evaluate_track with its default thresholds allows exactly these, as long as
  // no separation of a panel from a person has been sampled.
  predicate Allows(acc: Accumulator) {
    var sawSource := acc.sourceFrames >= 1 || Source in acc.zonesSeen;
    var sawOutput := acc.outputFrames >= 1 || Output in acc.zonesSeen;
    && sawSource && sawOutput
    && acc.maxDisplacementSq >= 30.0 * 30.0
    && LongestStepSq(acc.centers) >= 0.04 * 0.04
    && acc.staticOverlap <= 0.65
    && (acc.personOverlap <= 0.70 || acc.outsidePerson >= 0.35)
  }

  function Decisions(cfg: RuntimeConfig, r: Runtime): set<int> {
    set id | id in r.accs && Allows(Evidence(cfg, r, id))
  }

  // Frames of a fixed scene with nobody in it: boxes have a size, equal boxes lie
  // equally in the zones, and nothing covers them.
  ghost predicate FixedScene(inputs: seq<FrameInput>) {
    && (forall i, d :: 0 <= i < |inputs| && d in inputs[i].detections ==>
          T.WellSized(d) && d.personOverlap == 0.0 && d.outsidePerson == 1.0 && d.staticOverlap == 0.0)
    && (forall i, j, d, e | 0 <= i < |inputs| && 0 <= j < |inputs| && d in inputs[i].detections
                            && e in inputs[j].detections && d.box == e.box :: d == e)
  }

  // A run that can happen: a fixed scene, and in each frame the ids that the gate
  // itself allows on the evidence it has then.
  ghost predicate Realizable(cfg: RuntimeConfig, inputs: seq<FrameInput>) {
    && FixedScene(inputs)
    && forall n :: 0 <= n < |inputs| ==> inputs[n].allowed == Decisions(cfg, Frames(cfg, inputs[..n + 1]))
  }
}
