// The gate evidence of split track fragments in
// app/services/runtime_event_counter.py: accumulators, separation summaries,
// their merges, and the choice of predecessor fragments.
module GateStitching {
  import opened Prelude
  import opened Geometry
  import opened BoxTracker

  datatype Zone = Outside | Source | Output

  // Squared displacement stands for displacement.
  datatype Accumulator = Accumulator(
    firstZone: Zone,
    lastZone: Zone,
    sourceFrames: int,
    outputFrames: int,
    zonesSeen: seq<Zone>,
    centers: seq<Point>,
    detections: nat,
    maxDisplacementSq: real,
    personOverlap: real,
    outsidePerson: real,
    staticOverlap: real,
    firstSeen: int,
    lastSeen: int)

  const FRESH := Accumulator(Outside, Outside, 0, 0, [], [], 0, 0.0, 0.0, 1.0, 0.0, -1, -1)

  function ZoneOf(d: RawDetection): Zone {
    var inSource := d.sourceOverlap >= 0.25;
    var inOutput := d.outputOverlap >= 0.25;
    if inSource && inOutput then
      if d.outputOverlap > d.sourceOverlap then Output
      else if d.sourceOverlap > d.outputOverlap then Source
      else if d.centerInOutput && !d.centerInSource then Output
      else Source
    else if inSource then Source
    else if inOutput then Output
    else Outside
  }

  function Including(zones: seq<Zone>, z: Zone): seq<Zone> {
    if z in zones then zones else zones + [z]
  }

  function Observed(acc: Accumulator, d: RawDetection, frame: int): Accumulator {
    var zone := ZoneOf(d);
    var center := Center(d.box);
    Accumulator(
      if acc.detections == 0 then zone else acc.firstZone,
      zone,
      if zone == Source then acc.sourceFrames + 1 else acc.sourceFrames,
      if zone == Output then acc.outputFrames + 1 else acc.outputFrames,
      Including(acc.zonesSeen, zone),
      acc.centers + [center],
      acc.detections + 1,
      if acc.centers == [] then acc.maxDisplacementSq
      else MaxReal(acc.maxDisplacementSq, DistanceSq(acc.centers[0], center)),
      MaxReal(acc.personOverlap, d.personOverlap),
      MinReal(acc.outsidePerson, d.outsidePerson),
      MaxReal(acc.staticOverlap, d.staticOverlap),
      if acc.detections == 0 then frame else acc.firstSeen,
      frame)
  }

  datatype Observation = Observation(raw: RawDetection, frame: int)

  // One accumulator fed every observation in turn.
  function Fed(obs: seq<Observation>): Accumulator {
    if obs == [] then FRESH
    else Observed(Fed(obs[..|obs| - 1]), obs[|obs| - 1].raw, obs[|obs| - 1].frame)
  }

  function IncludingAll(zones: seq<Zone>, more: seq<Zone>): seq<Zone> {
    if more == [] then zones
    else Including(IncludingAll(zones, more[..|more| - 1]), more[|more| - 1])
  }

  // How far the centers stray from one point.
  function Spread(from: Point, centers: seq<Point>): real {
    if centers == [] then 0.0
    else MaxReal(Spread(from, centers[..|centers| - 1]), DistanceSq(from, centers[|centers| - 1]))
  }

  function Merge(p: Accumulator, c: Accumulator): Accumulator {
    var centers := p.centers + c.centers;
    var longest := MaxReal(p.maxDisplacementSq, c.maxDisplacementSq);
    Accumulator(
      p.firstZone,
      c.lastZone,
      p.sourceFrames + c.sourceFrames,
      p.outputFrames + c.outputFrames,
      IncludingAll(p.zonesSeen, c.zonesSeen),
      centers,
      p.detections + c.detections,
      if centers == [] then longest else MaxReal(longest, Spread(centers[0], centers)),
      MaxReal(p.personOverlap, c.personOverlap),
      MinReal(p.outsidePerson, c.outsidePerson),
      MaxReal(p.staticOverlap, c.staticOverlap),
      -1,
      -1)
  }

  // ----- stitching fragments is like never having split -----

  // Equal in all the gate is told except the displacement.
  ghost predicate SameEvidence(x: Accumulator, y: Accumulator) {
    && x.firstZone == y.firstZone && x.lastZone == y.lastZone
    && x.sourceFrames == y.sourceFrames && x.outputFrames == y.outputFrames
    && x.zonesSeen == y.zonesSeen && x.centers == y.centers && x.detections == y.detections
    && x.personOverlap == y.personOverlap && x.outsidePerson == y.outsidePerson
    && x.staticOverlap == y.staticOverlap
  }

  lemma {:induction false} FedBasics(obs: seq<Observation>)
    ensures var a := Fed(obs);
      && a.detections == |a.centers| == |obs|
      && a.personOverlap >= 0.0 && a.outsidePerson <= 1.0 && a.staticOverlap >= 0.0
      && a.sourceFrames >= 0 && a.outputFrames >= 0 && a.sourceFrames + a.outputFrames <= |obs|
      && a.maxDisplacementSq >= 0.0
      && (obs != [] ==> a.maxDisplacementSq == Spread(a.centers[0], a.centers))
  {
    if obs != [] {
      var front := obs[..|obs| - 1];
      FedBasics(front);
      var a := Fed(front);
      var b := Fed(obs);
      assert b.centers[..|b.centers| - 1] == a.centers;
      if front == [] {
        assert Spread(b.centers[0], []) == 0.0;
      }
    }
  }

  lemma {:induction false} ZonesOfBoth(zones: seq<Zone>, more: seq<Zone>)
    ensures forall z :: z in IncludingAll(zones, more) <==> z in zones || z in more
  {
    if more != [] {
      ZonesOfBoth(zones, more[..|more| - 1]);
      assert more == more[..|more| - 1] + [more[|more| - 1]];
    }
  }

  lemma IncludeOne(zones: seq<Zone>, more: seq<Zone>, z: Zone)
    ensures IncludingAll(zones, Including(more, z)) == Including(IncludingAll(zones, more), z)
  {
    ZonesOfBoth(zones, more);
    if z !in more {
      assert (more + [z])[..|more + [z]| - 1] == more;
    }
  }

  lemma {:induction false} FedBoth(a: seq<Observation>, b: seq<Observation>)
    ensures var x := Fed(a + b);
      && x.sourceFrames == Fed(a).sourceFrames + Fed(b).sourceFrames
      && x.outputFrames == Fed(a).outputFrames + Fed(b).outputFrames
      && x.centers == Fed(a).centers + Fed(b).centers
      && (a != [] ==> x.firstZone == Fed(a).firstZone)
      && (b != [] ==> x.lastZone == Fed(b).lastZone)
  {
    hide DistanceSq, ZoneOf, Center, MaxReal, MinReal, Including;
    if b == [] {
      assert a + b == a;
    } else {
      var front := b[..|b| - 1];
      assert (a + b)[..|a + b| - 1] == a + front;
      FedBoth(a, front);
      FedLength(a);
      FedLength(front);
      FedLength(a + front);
    }
  }

  lemma {:induction false} FedLength(obs: seq<Observation>)
    ensures Fed(obs).detections == |Fed(obs).centers| == |obs|
  {
    hide DistanceSq, ZoneOf, Center, MaxReal, MinReal, Including;
    if obs != [] {
      FedLength(obs[..|obs| - 1]);
    }
  }

  lemma {:induction false} FedBothExtremes(a: seq<Observation>, b: seq<Observation>)
    ensures var x := Fed(a + b);
      && x.personOverlap == MaxReal(Fed(a).personOverlap, Fed(b).personOverlap)
      && x.outsidePerson == MinReal(Fed(a).outsidePerson, Fed(b).outsidePerson)
      && x.staticOverlap == MaxReal(Fed(a).staticOverlap, Fed(b).staticOverlap)
  {
    hide DistanceSq, ZoneOf, Center, Including;
    FedBasics(a);
    if b == [] {
      assert a + b == a;
    } else {
      assert (a + b)[..|a + b| - 1] == a + b[..|b| - 1];
      FedBothExtremes(a, b[..|b| - 1]);
    }
  }

  lemma {:induction false} FedBothZones(a: seq<Observation>, b: seq<Observation>)
    ensures Fed(a + b).zonesSeen == IncludingAll(Fed(a).zonesSeen, Fed(b).zonesSeen)
  {
    hide DistanceSq, ZoneOf, Center, MaxReal, MinReal, Including;
    if b == [] {
      assert a + b == a;
    } else {
      var front := b[..|b| - 1];
      assert (a + b)[..|a + b| - 1] == a + front;
      FedBothZones(a, front);
      IncludeOne(Fed(a).zonesSeen, Fed(front).zonesSeen, ZoneOf(b[|b| - 1].raw));
    }
  }

  // Merging two fragments gives what one accumulator would have seen; only the
  // displacement can be larger, by what the second fragment strayed on its own.
  lemma MergeIsFeeding(p: Accumulator, a: seq<Observation>, b: seq<Observation>)
    requires a != [] && b != []
    requires SameEvidence(p, Fed(a)) && p.maxDisplacementSq >= Fed(a).maxDisplacementSq
    ensures SameEvidence(Merge(p, Fed(b)), Fed(a + b))
    ensures Merge(p, Fed(b)).maxDisplacementSq
            == MaxReal(Fed(a + b).maxDisplacementSq, MaxReal(p.maxDisplacementSq, Fed(b).maxDisplacementSq))
  {
    FedBoth(a, b);
    FedBothExtremes(a, b);
    FedBothZones(a, b);
    FedBasics(a);
    FedBasics(b);
    FedBasics(a + b);
    hide Fed, Spread;
  }

  function Concat(parts: seq<seq<Observation>>): seq<Observation> {
    if parts == [] then [] else Concat(parts[..|parts| - 1]) + parts[|parts| - 1]
  }

  function MergeAll(fragments: seq<Accumulator>): Accumulator
    requires fragments != []
  {
    if |fragments| == 1 then fragments[0]
    else Merge(MergeAll(fragments[..|fragments| - 1]), fragments[|fragments| - 1])
  }

  function FedEach(parts: seq<seq<Observation>>): seq<Accumulator> {
    seq(|parts|, i requires 0 <= i < |parts| => Fed(parts[i]))
  }

  // A delivery split into any number of fragments reaches the gate as if the
  // tracker had never lost it.
  lemma {:induction false} StitchingIsNeverHavingSplit(parts: seq<seq<Observation>>)
    requires parts != [] && forall k :: 0 <= k < |parts| ==> parts[k] != []
    ensures SameEvidence(MergeAll(FedEach(parts)), Fed(Concat(parts)))
    ensures MergeAll(FedEach(parts)).maxDisplacementSq >= Fed(Concat(parts)).maxDisplacementSq
    ensures Concat(parts) != []
  {
    var n := |parts| - 1;
    if n == 0 {
      assert Concat(parts[..0]) == [];
      assert Concat(parts) == parts[0];
    } else {
      StitchingIsNeverHavingSplit(parts[..n]);
      assert FedEach(parts)[..n] == FedEach(parts[..n]);
      MergeIsFeeding(MergeAll(FedEach(parts[..n])), Concat(parts[..n]), parts[n]);
    }
  }

  // ----- separation summaries -----

  datatype Decision = Separable | WorkerOverlap | StaticEdge | Insufficient

  datatype CropVerdict = CarriedPanel | WorkerOnly | OtherCrop

  datatype Crop = Crop(verdict: CropVerdict, predictions: int, confidence: real)

  datatype Sample = Sample(decision: Decision, inOutput: bool, visible: real, signals: seq<real>, crop: Option<Crop>)

  datatype Summary = Summary(
    samples: int,
    candidates: int,
    sourceCandidates: int,
    workerOverlaps: int,
    statics: int,
    maxVisible: real,
    maxSignal: real,
    cropPositives: int,
    cropNegatives: int,
    crops: int,
    cropConfidence: real)

  const NO_SAMPLES := Summary(0, 0, 0, 0, 0, 0.0, 0.0, 0, 0, 0, 0.0)

  function Greatest(least: real, xs: seq<real>): real {
    if xs == [] then least else MaxReal(Greatest(least, xs[..|xs| - 1]), xs[|xs| - 1])
  }

  function Sampled(s: Summary, x: Sample): Summary {
    var seen := x.crop.Some? && x.crop.value.predictions > 0;
    Summary(
      s.samples + 1,
      s.candidates + (if x.decision.Separable? then 1 else 0),
      s.sourceCandidates + (if x.decision.Separable? && !x.inOutput then 1 else 0),
      s.workerOverlaps + (if x.decision.WorkerOverlap? then 1 else 0),
      s.statics + (if x.decision.StaticEdge? then 1 else 0),
      MaxReal(s.maxVisible, x.visible),
      Greatest(s.maxSignal, x.signals),
      s.cropPositives + (if seen && x.crop.value.verdict.CarriedPanel? then 1 else 0),
      s.cropNegatives + (if seen && x.crop.value.verdict.WorkerOnly? then 1 else 0),
      s.crops + (if seen then 1 else 0),
      if seen then MaxReal(s.cropConfidence, x.crop.value.confidence) else s.cropConfidence)
  }

  // A summary exists once there is a sample.
  function Summarized(xs: seq<Sample>): Option<Summary> {
    if xs == [] then None
    else Some(Sampled(Summarized(xs[..|xs| - 1]).GetOr(NO_SAMPLES), xs[|xs| - 1]))
  }

  function MergeSummaries(p: Option<Summary>, c: Option<Summary>): Option<Summary> {
    if p.None? then c
    else if c.None? then p
    else Some(Summary(
                p.value.samples + c.value.samples,
                p.value.candidates + c.value.candidates,
                p.value.sourceCandidates + c.value.sourceCandidates,
                p.value.workerOverlaps + c.value.workerOverlaps,
                p.value.statics + c.value.statics,
                MaxReal(p.value.maxVisible, c.value.maxVisible),
                MaxReal(p.value.maxSignal, c.value.maxSignal),
                p.value.cropPositives + c.value.cropPositives,
                p.value.cropNegatives + c.value.cropNegatives,
                p.value.crops + c.value.crops,
                MaxReal(p.value.cropConfidence, c.value.cropConfidence)))
  }

  lemma {:induction false} GreatestOfBoth(x: real, y: real, xs: seq<real>)
    ensures Greatest(MaxReal(x, y), xs) == MaxReal(x, Greatest(y, xs))
  {
    if xs != [] {
      GreatestOfBoth(x, y, xs[..|xs| - 1]);
    }
  }

  lemma {:induction false} SummaryNonNegative(xs: seq<Sample>)
    ensures var s := Summarized(xs).GetOr(NO_SAMPLES);
      s.maxVisible >= 0.0 && s.maxSignal >= 0.0 && s.cropConfidence >= 0.0
  {
    if xs != [] {
      SummaryNonNegative(xs[..|xs| - 1]);
      var s := Summarized(xs[..|xs| - 1]).GetOr(NO_SAMPLES);
      GreatestOfBoth(0.0, s.maxSignal, xs[|xs| - 1].signals);
    }
  }

  lemma MergeOneMore(p: Summary, c: Option<Summary>, x: Sample)
    requires p.maxVisible >= 0.0 && p.maxSignal >= 0.0 && p.cropConfidence >= 0.0
    ensures MergeSummaries(Some(p), Some(Sampled(c.GetOr(NO_SAMPLES), x)))
            == Some(Sampled(MergeSummaries(Some(p), c).value, x))
  {
    hide Greatest;
    GreatestOfBoth(p.maxSignal, c.GetOr(NO_SAMPLES).maxSignal, x.signals);
  }

  lemma MergeNone(p: Option<Summary>)
    ensures MergeSummaries(p, None) == p && MergeSummaries(None, p) == p
  {
  }

  // Summarizing turns concatenation into merging, exactly, with None as unit.
  lemma {:induction false} SummariesMergeExactly(a: seq<Sample>, b: seq<Sample>)
    ensures MergeSummaries(Summarized(a), Summarized(b)) == Summarized(a + b)
  {
    if b == [] {
      assert a + b == a;
    } else {
      var front := b[..|b| - 1];
      assert (a + b)[..|a + b| - 1] == a + front;
      SummariesMergeExactly(a, front);
      SummaryNonNegative(a);
      if a == [] {
        assert a + b == b;
      } else {
        hide Sampled, MergeSummaries;
        MergeNone(Summarized(a));
        MergeOneMore(Summarized(a).value, Summarized(front), b[|b| - 1]);
      }
    }
  }

  // ----- predecessor fragments -----

  datatype StitchConfig = StitchConfig(
    matchDistance: real,
    trackerMaxMissing: int,
    sourceMinFrames: int,
    tokenTtl: int)

  function MaxGap(cfg: StitchConfig): int {
    Max(cfg.trackerMaxMissing * 2 + 1, cfg.tokenTtl)
  }

  function MaxLink(cfg: StitchConfig): real {
    MaxReal(cfg.matchDistance * 12.0, 500.0)
  }

  function LinkSq(accs: map<int, Accumulator>, id: int, candidate: int): real
    requires id in accs && accs[id].centers != [] && candidate in accs && accs[candidate].centers != []
  {
    DistanceSq(accs[candidate].centers[|accs[candidate].centers| - 1], accs[id].centers[0])
  }

  predicate MayPrecede(cfg: StitchConfig, accs: map<int, Accumulator>, id: int, candidate: int)
    requires id in accs && accs[id].centers != []
  {
    && candidate in accs && candidate != id
    && accs[candidate].sourceFrames >= cfg.sourceMinFrames
    && accs[candidate].outputFrames <= 0
    && accs[candidate].centers != []
    && accs[candidate].lastSeen >= 0 && accs[id].firstSeen >= 0
    && 0 < accs[id].firstSeen - accs[candidate].lastSeen <= MaxGap(cfg)
    && Within(accs[candidate].centers[|accs[candidate].centers| - 1], accs[id].centers[0], MaxLink(cfg))
  }

  // The order of the sorted candidate tuples: gap, distance, more source
  // frames, id.
  predicate Precedes(accs: map<int, Accumulator>, id: int, a: int, b: int)
    requires id in accs && accs[id].centers != []
    requires a in accs && accs[a].centers != [] && b in accs && accs[b].centers != []
  {
    var gapA, gapB := accs[id].firstSeen - accs[a].lastSeen, accs[id].firstSeen - accs[b].lastSeen;
    var linkA, linkB := LinkSq(accs, id, a), LinkSq(accs, id, b);
    var sourceA, sourceB := accs[a].sourceFrames, accs[b].sourceFrames;
    gapA < gapB
    || (gapA == gapB
        && (linkA < linkB || (linkA == linkB && (sourceA > sourceB || (sourceA == sourceB && a < b)))))
  }

  function Predecessor(cfg: StitchConfig, accs: map<int, Accumulator>, ids: seq<int>, id: int): (r: Option<int>)
    requires id in accs && accs[id].centers != []
    ensures r.Some? ==> MayPrecede(cfg, accs, id, r.value)
  {
    if ids == [] then None
    else
      var best := Predecessor(cfg, accs, ids[..|ids| - 1], id);
      var last := ids[|ids| - 1];
      if MayPrecede(cfg, accs, id, last) && (best.None? || Precedes(accs, id, last, best.value))
      then Some(last)
      else best
  }

  // Up to n predecessors, the earliest first.
  function ChainBefore(cfg: StitchConfig, accs: map<int, Accumulator>, ids: seq<int>, id: int, n: nat): seq<int>
    requires id in accs
    decreases n
  {
    if n == 0 || accs[id].centers == [] then []
    else
      var p := Predecessor(cfg, accs, ids, id);
      if p.None? then [] else ChainBefore(cfg, accs, ids, p.value, n - 1) + [p.value]
  }

  function PredecessorChain(cfg: StitchConfig, accs: map<int, Accumulator>, ids: seq<int>, id: int): seq<int>
    requires id in accs
  {
    if accs[id].outputFrames <= 0 || accs[id].sourceFrames > 1 then []
    else ChainBefore(cfg, accs, ids, id, 3)
  }

  ghost predicate SeenInOrder(acc: Accumulator) {
    acc.centers != [] ==> acc.firstSeen <= acc.lastSeen
  }

  // A fragment ends before the next begins, within the gap, in the source only.
  ghost predicate Follows(cfg: StitchConfig, accs: map<int, Accumulator>, a: int, b: int) {
    && a in accs && b in accs
    && accs[a].sourceFrames >= cfg.sourceMinFrames && accs[a].outputFrames <= 0
    && accs[a].lastSeen < accs[b].firstSeen <= accs[a].lastSeen + MaxGap(cfg)
  }

  ghost predicate Chronological(cfg: StitchConfig, accs: map<int, Accumulator>, chain: seq<int>) {
    && (forall k :: 0 <= k < |chain| - 1 ==> Follows(cfg, accs, chain[k], chain[k + 1]))
    && (forall j, k :: 0 <= j < k < |chain| ==>
          chain[j] in accs && chain[k] in accs && accs[chain[j]].lastSeen < accs[chain[k]].firstSeen)
    && NoDuplicates(chain)
  }

  lemma {:induction false} ChainBeforeChronological(cfg: StitchConfig, accs: map<int, Accumulator>, ids: seq<int>,
                                                    id: int, n: nat)
    requires id in accs && forall i :: i in accs ==> SeenInOrder(accs[i])
    ensures Chronological(cfg, accs, ChainBefore(cfg, accs, ids, id, n) + [id])
    ensures forall k :: 0 <= k < |ChainBefore(cfg, accs, ids, id, n)| ==>
      ChainBefore(cfg, accs, ids, id, n)[k] in accs && accs[ChainBefore(cfg, accs, ids, id, n)[k]].centers != []
    ensures |ChainBefore(cfg, accs, ids, id, n)| <= n
    decreases n
  {
    if n > 0 && accs[id].centers != [] {
      var p := Predecessor(cfg, accs, ids, id);
      if p.Some? {
        ChainBeforeChronological(cfg, accs, ids, p.value, n - 1);
        var before := ChainBefore(cfg, accs, ids, p.value, n - 1) + [p.value];
        assert MayPrecede(cfg, accs, id, p.value);
        hide ChainBefore, Predecessor, MayPrecede, Within;
        ExtendChronology(cfg, accs, before, id);
      }
    }
  }

  lemma ExtendChronology(cfg: StitchConfig, accs: map<int, Accumulator>, before: seq<int>, id: int)
    requires before != [] && Chronological(cfg, accs, before)
    requires forall k :: 0 <= k < |before| ==> before[k] in accs && accs[before[k]].firstSeen <= accs[before[k]].lastSeen
    requires id in accs && Follows(cfg, accs, before[|before| - 1], id)
    requires accs[id].firstSeen <= accs[id].lastSeen
    ensures Chronological(cfg, accs, before + [id])
  {
    var last := before[|before| - 1];
    forall j | 0 <= j < |before|
      ensures accs[before[j]].lastSeen < accs[id].firstSeen && before[j] != id
    {
      if j < |before| - 1 {
        assert accs[before[j]].lastSeen < accs[last].firstSeen;
      }
    }
  }

  // The fragments of a predecessor chain, and the track itself, are distinct
  // and follow each other in time.
  lemma PredecessorsChronological(cfg: StitchConfig, accs: map<int, Accumulator>, ids: seq<int>, id: int)
    requires id in accs && forall i :: i in accs ==> SeenInOrder(accs[i])
    ensures Chronological(cfg, accs, PredecessorChain(cfg, accs, ids, id) + [id])
    ensures |PredecessorChain(cfg, accs, ids, id)| <= 3
  {
    ChainBeforeChronological(cfg, accs, ids, id, 3);
  }

  // Nothing eligible comes before the chosen predecessor.
  lemma {:induction false} PredecessorIsBest(cfg: StitchConfig, accs: map<int, Accumulator>, ids: seq<int>, id: int,
                                             other: int)
    requires id in accs && accs[id].centers != []
    requires other in ids && MayPrecede(cfg, accs, id, other)
    ensures var r := Predecessor(cfg, accs, ids, id);
      r.Some? && !Precedes(accs, id, other, r.value)
  {
    hide Within, DistanceSq, MaxLink;
    var last := ids[|ids| - 1];
    assert ids == ids[..|ids| - 1] + [last];
    if other in ids[..|ids| - 1] {
      PredecessorIsBest(cfg, accs, ids[..|ids| - 1], id, other);
    }
  }

  // ----- the accumulator as the source has it -----

  class GateAccumulator {
    const trackId: int
    var firstZone: Zone
    var lastZone: Zone
    var sourceFrames: int
    var outputFrames: int
    var zonesSeen: seq<Zone>
    var centers: seq<Point>
    var detections: nat
    var maxDisplacementSq: real
    var personOverlap: real
    var outsidePerson: real
    var staticOverlap: real
    var firstSeen: int
    var lastSeen: int

    constructor (trackId: int)
      ensures this.trackId == trackId && Value() == FRESH
    {
      this.trackId := trackId;
      firstZone, lastZone, sourceFrames, outputFrames := Outside, Outside, 0, 0;
      zonesSeen, centers, detections, maxDisplacementSq := [], [], 0, 0.0;
      personOverlap, outsidePerson, staticOverlap, firstSeen, lastSeen := 0.0, 1.0, 0.0, -1, -1;
    }

    function Value(): Accumulator
      reads this
    {
      Accumulator(firstZone, lastZone, sourceFrames, outputFrames, zonesSeen, centers, detections,
                  maxDisplacementSq, personOverlap, outsidePerson, staticOverlap, firstSeen, lastSeen)
    }

    static method Locate(d: RawDetection) returns (zone: Zone)
      ensures zone == ZoneOf(d)
    {
      zone := Outside;
      var inSource, inOutput := d.sourceOverlap >= 0.25, d.outputOverlap >= 0.25;
      if inSource && inOutput {
        if d.outputOverlap > d.sourceOverlap {
          zone := Output;
        } else if d.sourceOverlap > d.outputOverlap {
          zone := Source;
        } else if d.centerInOutput && !d.centerInSource {
          zone := Output;
        } else {
          zone := Source;
        }
      } else if inSource {
        zone := Source;
      } else if inOutput {
        zone := Output;
      }
    }

    method CountZone(zone: Zone, frame: int)
      modifies this`sourceFrames, this`outputFrames, this`lastZone, this`firstZone, this`firstSeen, this`zonesSeen
      ensures sourceFrames == if zone == Source then old(sourceFrames) + 1 else old(sourceFrames)
      ensures outputFrames == if zone == Output then old(outputFrames) + 1 else old(outputFrames)
      ensures lastZone == zone && zonesSeen == Including(old(zonesSeen), zone)
      ensures firstZone == if detections == 0 then zone else old(firstZone)
      ensures firstSeen == if detections == 0 then frame else old(firstSeen)
    {
      if zone == Source {
        sourceFrames := sourceFrames + 1;
      } else if zone == Output {
        outputFrames := outputFrames + 1;
      }
      lastZone := zone;
      if detections == 0 {
        firstZone := zone;
        firstSeen := frame;
      }
      if zone !in zonesSeen {
        zonesSeen := zonesSeen + [zone];
      }
    }

    method Measure(center: Point)
      modifies this`maxDisplacementSq, this`centers, this`detections
      ensures centers == old(centers) + [center] && detections == old(detections) + 1
      ensures maxDisplacementSq == if old(centers) == [] then old(maxDisplacementSq)
                                   else MaxReal(old(maxDisplacementSq), DistanceSq(old(centers)[0], center))
    {
      if centers != [] {
        maxDisplacementSq := MaxReal(maxDisplacementSq, DistanceSq(centers[0], center));
      }
      centers := centers + [center];
      detections := detections + 1;
    }

    method Update(d: RawDetection, frame: int)
      modifies this
      ensures Value() == Observed(old(Value()), d, frame)
    {
      hide MaxReal, MinReal, DistanceSq, ZoneOf, Center, Including;
      var zone := Locate(d);
      CountZone(zone, frame);
      Measure(Center(d.box));
      lastSeen := frame;
      personOverlap := MaxReal(personOverlap, d.personOverlap);
      outsidePerson := MinReal(outsidePerson, d.outsidePerson);
      staticOverlap := MaxReal(staticOverlap, d.staticOverlap);
    }
  }
}
