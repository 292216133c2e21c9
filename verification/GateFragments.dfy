// What an accumulator says of the sightings it was fed, and which fragments are
// linked to a track, without the loops that find them.
module GateFragments {
  import opened Prelude
  import opened Geometry
  import opened GateStitching
  import T = BoxTracker
  import opened RuntimeModel

  // ----- zones -----

  // In both zones the larger overlap decides, then the center; the counter sees the
  // zone the gate sees, and maybe the other one too.
  lemma ZonesAgree(s: T.Sighting)
    ensures var (d, seen) := (s.raw, ToDetection(s));
      && (seen.sourceHit <==> d.sourceOverlap >= 0.25) && (seen.outputHit <==> d.outputOverlap >= 0.25)
      && (seen.ignoreHit <==> d.ignoreOverlap >= 0.5)
      && (ZoneOf(d) == Outside <==> !seen.sourceHit && !seen.outputHit)
      && (ZoneOf(d) == Source ==> seen.sourceHit) && (ZoneOf(d) == Output ==> seen.outputHit)
      && (ZoneOf(d) == Output <==>
            seen.outputHit
            && (!seen.sourceHit || d.outputOverlap > d.sourceOverlap
                || (d.outputOverlap == d.sourceOverlap && d.centerInOutput && !d.centerInSource)))
  {
  }

  // ----- an accumulator sums up its sightings -----

  ghost function TimesIn(obs: seq<Observation>, z: Zone): nat {
    if obs == [] then 0
    else TimesIn(obs[..|obs| - 1], z) + if ZoneOf(obs[|obs| - 1].raw) == z then 1 else 0
  }

  // x is the largest of the values and of least.
  ghost predicate LargestOf(x: real, least: real, values: seq<real>) {
    && (x == least || x in values)
    && least <= x && forall k :: 0 <= k < |values| ==> values[k] <= x
  }

  function Distances(from: Point, obs: seq<Observation>): seq<real> {
    seq(|obs|, k requires 0 <= k < |obs| => DistanceSq(from, Center(obs[k].raw.box)))
  }

  function PersonOverlaps(obs: seq<Observation>): seq<real> {
    seq(|obs|, k requires 0 <= k < |obs| => obs[k].raw.personOverlap)
  }

  // What is not outside a person, up to a constant.
  function InsidePersons(obs: seq<Observation>): seq<real> {
    seq(|obs|, k requires 0 <= k < |obs| => -obs[k].raw.outsidePerson)
  }

  function StaticOverlaps(obs: seq<Observation>): seq<real> {
    seq(|obs|, k requires 0 <= k < |obs| => obs[k].raw.staticOverlap)
  }

  ghost predicate SumsUp(a: Accumulator, obs: seq<Observation>) {
    && a.detections == |a.centers| == |obs|
    && (forall k :: 0 <= k < |obs| ==> a.centers[k] == Center(obs[k].raw.box))
    && a.sourceFrames == TimesIn(obs, Source) && a.outputFrames == TimesIn(obs, Output)
    && NoDuplicates(a.zonesSeen)
    && (forall z :: z in a.zonesSeen <==> TimesIn(obs, z) > 0)
    && (obs != [] ==>
          && a.firstZone == ZoneOf(obs[0].raw) && a.lastZone == ZoneOf(obs[|obs| - 1].raw)
          && a.firstSeen == obs[0].frame && a.lastSeen == obs[|obs| - 1].frame
          && LargestOf(a.maxDisplacementSq, 0.0,
                       Distances(Center(obs[0].raw.box), obs)))
    && LargestOf(a.personOverlap, 0.0, PersonOverlaps(obs))
    && LargestOf(-a.outsidePerson, -1.0, InsidePersons(obs))
    && LargestOf(a.staticOverlap, 0.0, StaticOverlaps(obs))
  }

  lemma OverlapsMore(obs: seq<Observation>)
    requires obs != []
    ensures var (front, d) := (obs[..|obs| - 1], obs[|obs| - 1].raw);
      && PersonOverlaps(obs) == PersonOverlaps(front) + [d.personOverlap]
      && InsidePersons(obs) == InsidePersons(front) + [-d.outsidePerson]
      && StaticOverlaps(obs) == StaticOverlaps(front) + [d.staticOverlap]
  {
  }

  lemma DistancesMore(from: Point, obs: seq<Observation>)
    requires obs != []
    ensures Distances(from, obs)
            == Distances(from, obs[..|obs| - 1]) + [DistanceSq(from, Center(obs[|obs| - 1].raw.box))]
  {
  }

  lemma LargestMore(x: real, least: real, values: seq<real>, y: real)
    requires LargestOf(x, least, values)
    ensures LargestOf(MaxReal(x, y), least, values + [y])
  {
    assert (values + [y])[|values|] == y;
    assert forall v :: v in values ==> v in values + [y];
  }

  lemma OverlapsSumUp(a: Accumulator, d: T.RawDetection, frame: int, obs: seq<Observation>)
    requires obs != [] && obs[|obs| - 1].raw == d
    requires var front := obs[..|obs| - 1];
      && LargestOf(a.personOverlap, 0.0, PersonOverlaps(front))
      && LargestOf(-a.outsidePerson, -1.0, InsidePersons(front))
      && LargestOf(a.staticOverlap, 0.0, StaticOverlaps(front))
    ensures var b := Observed(a, d, frame);
      && LargestOf(b.personOverlap, 0.0, PersonOverlaps(obs))
      && LargestOf(-b.outsidePerson, -1.0, InsidePersons(obs))
      && LargestOf(b.staticOverlap, 0.0, StaticOverlaps(obs))
  {
    hide LargestOf, DistanceSq, ZoneOf, Center;
    var front := obs[..|obs| - 1];
    OverlapsMore(obs);
    LargestMore(a.personOverlap, 0.0, PersonOverlaps(front), d.personOverlap);
    LargestMore(-a.outsidePerson, -1.0, InsidePersons(front), -d.outsidePerson);
    LargestMore(a.staticOverlap, 0.0, StaticOverlaps(front), d.staticOverlap);
    assert -MinReal(a.outsidePerson, d.outsidePerson) == MaxReal(-a.outsidePerson, -d.outsidePerson);
  }

  lemma SpreadSumsUp(a: Accumulator, d: T.RawDetection, frame: int, obs: seq<Observation>)
    requires obs != [] && obs[|obs| - 1].raw == d
    requires var front := obs[..|obs| - 1];
      && |a.centers| == |front| && (front != [] ==> a.centers[0] == Center(front[0].raw.box))
      && (front == [] ==> a.maxDisplacementSq == 0.0)
      && (front != [] ==>
            LargestOf(a.maxDisplacementSq, 0.0,
                      Distances(Center(front[0].raw.box), front)))
    ensures LargestOf(Observed(a, d, frame).maxDisplacementSq, 0.0, Distances(Center(obs[0].raw.box), obs))
  {
    hide DistanceSq, ZoneOf, Center;
    var front := obs[..|obs| - 1];
    DistancesMore(Center(obs[0].raw.box), obs);
    if front == [] {
      NoDistance(Center(d.box));
      assert Distances(Center(obs[0].raw.box), obs) == [0.0];
    } else {
      LargestMore(a.maxDisplacementSq, 0.0, Distances(Center(obs[0].raw.box), front),
                  DistanceSq(a.centers[0], Center(d.box)));
    }
  }

  lemma NoDistance(p: Point)
    ensures DistanceSq(p, p) == 0.0
  {
  }

  lemma ZonesSumUp(zones: seq<Zone>, obs: seq<Observation>)
    requires obs != [] && NoDuplicates(zones)
    requires forall z :: z in zones <==> TimesIn(obs[..|obs| - 1], z) > 0
    ensures var more := Including(zones, ZoneOf(obs[|obs| - 1].raw));
      NoDuplicates(more) && forall z :: z in more <==> TimesIn(obs, z) > 0
  {
    hide ZoneOf;
  }

  // One accumulator fed every sighting in turn sums them up.
  lemma {:induction false} FedSumsUp(obs: seq<Observation>)
    ensures SumsUp(Fed(obs), obs)
  {
    hide LargestOf, DistanceSq, ZoneOf, Center, Including;
    if obs == [] {
      NothingSumsUp();
    } else {
      var front := obs[..|obs| - 1];
      var last := obs[|obs| - 1];
      var a := Fed(front);
      FedSumsUp(front);
      OverlapsSumUp(a, last.raw, last.frame, obs);
      if front == [] {
        assert a == FRESH;
      }
      SpreadSumsUp(a, last.raw, last.frame, obs);
      ZonesSumUp(a.zonesSeen, obs);
    }
  }

  lemma NothingSumsUp()
    ensures SumsUp(FRESH, [])
  {
  }

  // ----- a separation summary sums up its samples -----

  datatype Kind = AnySeparable | SeparableElsewhere | Overlapping | Static | Cropped | Carried | Worker

  predicate IsOf(x: Sample, kind: Kind) {
    match kind
    case AnySeparable => x.decision.Separable?
    case SeparableElsewhere => x.decision.Separable? && !x.inOutput
    case Overlapping => x.decision.WorkerOverlap?
    case Static => x.decision.StaticEdge?
    case Cropped => Looked(x)
    case Carried => Looked(x) && x.crop.value.verdict.CarriedPanel?
    case Worker => Looked(x) && x.crop.value.verdict.WorkerOnly?
  }

  ghost function HowMany(xs: seq<Sample>, kind: Kind): nat {
    if xs == [] then 0 else HowMany(xs[..|xs| - 1], kind) + if IsOf(xs[|xs| - 1], kind) then 1 else 0
  }

  // A crop was looked at.
  predicate Looked(x: Sample) {
    x.crop.Some? && x.crop.value.predictions > 0
  }

  ghost predicate SumsUpSamples(s: Summary, xs: seq<Sample>) {
    && s.samples == |xs|
    && s.candidates == HowMany(xs, AnySeparable)
    && s.sourceCandidates == HowMany(xs, SeparableElsewhere)
    && s.workerOverlaps == HowMany(xs, Overlapping)
    && s.statics == HowMany(xs, Static)
    && s.crops == HowMany(xs, Cropped)
    && s.cropPositives == HowMany(xs, Carried)
    && s.cropNegatives == HowMany(xs, Worker)
    && (forall k :: 0 <= k < |xs| ==> NoLarger(xs[k], s))
    && Attained(s, xs)
  }

  // Nothing in the sample is larger than what the summary keeps.
  ghost predicate NoLarger(x: Sample, s: Summary) {
    && x.visible <= s.maxVisible && (forall y :: y in x.signals ==> y <= s.maxSignal)
    && (Looked(x) ==> x.crop.value.confidence <= s.cropConfidence)
  }

  // What the summary keeps is in some sample, or 0.
  ghost predicate Attained(s: Summary, xs: seq<Sample>) {
    && (s.maxVisible == 0.0 || exists k :: 0 <= k < |xs| && xs[k].visible == s.maxVisible)
    && (s.maxSignal == 0.0 || exists k :: 0 <= k < |xs| && s.maxSignal in xs[k].signals)
    && (s.cropConfidence == 0.0
        || exists k :: 0 <= k < |xs| && Looked(xs[k]) && xs[k].crop.value.confidence == s.cropConfidence)
  }

  lemma {:induction false} GreatestIs(least: real, xs: seq<real>)
    ensures var g := Greatest(least, xs);
      least <= g && (forall x :: x in xs ==> x <= g) && (g == least || g in xs)
  {
    if xs != [] {
      GreatestIs(least, xs[..|xs| - 1]);
      assert xs == xs[..|xs| - 1] + [xs[|xs| - 1]];
    }
  }

  lemma SampledSumsUp(s: Summary, xs: seq<Sample>, x: Sample)
    requires SumsUpSamples(s, xs)
    ensures SumsUpSamples(Sampled(s, x), xs + [x])
  {
    hide Greatest;
    var more := xs + [x];
    assert more[..|more| - 1] == xs && more[|xs|] == x;
    GreatestIs(s.maxSignal, x.signals);
    assert forall k :: 0 <= k < |xs| ==> more[k] == xs[k];
  }

  lemma SummarizedMore(xs: seq<Sample>) returns (before: Summary)
    requires xs != []
    ensures var front := xs[..|xs| - 1];
      && before == (if front == [] then NO_SAMPLES else Summarized(front).value)
      && Summarized(xs) == Some(Sampled(before, xs[|xs| - 1]))
  {
    hide Sampled;
    var front := xs[..|xs| - 1];
    before := if front == [] then NO_SAMPLES else Summarized(front).value;
    assert Summarized(front).GetOr(NO_SAMPLES) == before;
  }

  // A summary of samples counts them by decision and by the crop's verdict, and
  // keeps the largest values seen.
  lemma {:induction false} SummarySumsUp(xs: seq<Sample>)
    requires xs != []
    ensures Summarized(xs).Some? && SumsUpSamples(Summarized(xs).value, xs)
  {
    hide Sampled, Summarized, SumsUpSamples;
    var before := SummarizedMore(xs);
    var front := xs[..|xs| - 1];
    assert front + [xs[|xs| - 1]] == xs;
    if front == [] {
      NoSamplesSumUp(before, front);
    } else {
      SummarySumsUp(front);
    }
    SampledSumsUp(before, front, xs[|xs| - 1]);
  }

  lemma NoSamplesSumUp(s: Summary, xs: seq<Sample>)
    requires s == NO_SAMPLES && xs == []
    ensures SumsUpSamples(s, xs)
  {
  }

  // ----- which fragments are linked -----

  // A fragment that may come before the track: long enough in the source, never in
  // the output, over before the track began, not too long ago and not too far away.
  ghost predicate Eligible(cfg: StitchConfig, accs: map<int, Accumulator>, id: int, c: int) {
    && id in accs && c in accs && c != id && accs[id].centers != [] && accs[c].centers != []
    && accs[c].sourceFrames >= cfg.sourceMinFrames && accs[c].outputFrames <= 0
    && accs[c].lastSeen >= 0 && accs[id].firstSeen >= 0
    && accs[c].lastSeen < accs[id].firstSeen
    && (accs[id].firstSeen <= accs[c].lastSeen + cfg.tokenTtl
        || accs[id].firstSeen <= accs[c].lastSeen + 2 * cfg.trackerMaxMissing + 1)
    && (DistanceSq(accs[c].centers[|accs[c].centers| - 1], accs[id].centers[0]) <= 500.0 * 500.0
        || (cfg.matchDistance > 0.0
            && DistanceSq(accs[c].centers[|accs[c].centers| - 1], accs[id].centers[0])
               <= (12.0 * cfg.matchDistance) * (12.0 * cfg.matchDistance)))
  }

  // Fragment a is the better choice: it ended later, or as late but nearer, or as
  // near but with more source frames, or has the smaller id.
  ghost predicate Prevails(accs: map<int, Accumulator>, id: int, a: int, b: int)
    requires id in accs && a in accs && b in accs
    requires accs[id].centers != [] && accs[a].centers != [] && accs[b].centers != []
  {
    var start := accs[id].centers[0];
    var farA := DistanceSq(accs[a].centers[|accs[a].centers| - 1], start);
    var farB := DistanceSq(accs[b].centers[|accs[b].centers| - 1], start);
    && accs[a].lastSeen >= accs[b].lastSeen
    && (accs[a].lastSeen == accs[b].lastSeen ==>
          && farA <= farB
          && (farA == farB ==>
                && accs[a].sourceFrames >= accs[b].sourceFrames
                && (accs[a].sourceFrames == accs[b].sourceFrames ==> a <= b)))
  }

  // c is the fragment that is linked before the track.
  ghost predicate Links(cfg: StitchConfig, accs: map<int, Accumulator>, id: int, c: int) {
    && Eligible(cfg, accs, id, c)
    && forall b :: Eligible(cfg, accs, id, b) ==> Prevails(accs, id, c, b)
  }

  lemma MaySquare(a: real, b: real)
    requires 0.0 <= a <= b
    ensures a * a <= b * b
  {
  }

  lemma MayPrecedeIsEligible(cfg: StitchConfig, accs: map<int, Accumulator>, id: int, c: int)
    requires id in accs && accs[id].centers != []
    ensures MayPrecede(cfg, accs, id, c) <==> Eligible(cfg, accs, id, c)
  {
    hide DistanceSq;
    if cfg.matchDistance * 12.0 >= 500.0 {
      MaySquare(500.0, cfg.matchDistance * 12.0);
    } else if cfg.matchDistance > 0.0 {
      MaySquare(cfg.matchDistance * 12.0, 500.0);
    }
  }

  lemma ChosenPrevails(accs: map<int, Accumulator>, id: int, a: int, b: int)
    requires id in accs && a in accs && b in accs
    requires accs[id].centers != [] && accs[a].centers != [] && accs[b].centers != []
    ensures !Precedes(accs, id, b, a) <==> Prevails(accs, id, a, b)
  {
    hide DistanceSq;
  }

  // The chosen predecessor is the one that prevails among all that are eligible;
  // there is none exactly when nothing is.
  lemma PredecessorIsLinked(cfg: StitchConfig, accs: map<int, Accumulator>, ids: seq<int>, id: int)
    requires id in accs && accs[id].centers != [] && forall c :: c in accs ==> c in ids
    ensures var p := Predecessor(cfg, accs, ids, id);
      if p.None? then forall c :: !Eligible(cfg, accs, id, c) else p.value in accs && Links(cfg, accs, id, p.value)
  {
    hide Predecessor, MayPrecede, Precedes, Prevails;
    var p := Predecessor(cfg, accs, ids, id);
    if p.Some? {
      MayPrecedeIsEligible(cfg, accs, id, p.value);
    }
    forall b | Eligible(cfg, accs, id, b)
      ensures p.Some? && Prevails(accs, id, p.value, b)
    {
      MayPrecedeIsEligible(cfg, accs, id, b);
      PredecessorIsBest(cfg, accs, ids, id, b);
      ChosenPrevails(accs, id, p.value, b);
    }
  }

  // The chain goes back link by link, as far as there are links but no farther
  // than n.
  ghost predicate GoesBack(cfg: StitchConfig, accs: map<int, Accumulator>, chain: seq<int>, id: int, n: nat)
    decreases n
  {
    if chain == [] then n == 0 || forall c :: !Eligible(cfg, accs, id, c)
    else
      var last := chain[|chain| - 1];
      n > 0 && Links(cfg, accs, id, last) && GoesBack(cfg, accs, chain[..|chain| - 1], last, n - 1)
  }

  lemma {:induction false} ChainGoesBack(cfg: StitchConfig, accs: map<int, Accumulator>, ids: seq<int>, id: int, n: nat)
    requires id in accs && forall c :: c in accs ==> c in ids
    ensures GoesBack(cfg, accs, ChainBefore(cfg, accs, ids, id, n), id, n)
    decreases n
  {
    hide Predecessor, MayPrecede, Links, Eligible;
    if n > 0 {
      if accs[id].centers == [] {
        NothingEligible(cfg, accs, id);
      } else {
        PredecessorIsLinked(cfg, accs, ids, id);
        var p := Predecessor(cfg, accs, ids, id);
        if p.Some? {
          ChainGoesBack(cfg, accs, ids, p.value, n - 1);
          var before := ChainBefore(cfg, accs, ids, p.value, n - 1);
          assert (before + [p.value])[..|before|] == before;
        }
      }
    }
  }

  lemma NothingEligible(cfg: StitchConfig, accs: map<int, Accumulator>, id: int)
    ensures id in accs && accs[id].centers == [] ==> forall c :: !Eligible(cfg, accs, id, c)
  {
  }

  // Only a track that was in the output and hardly in the source gets
  // predecessors, and it gets all there are, up to three.
  lemma PredecessorsAreComplete(cfg: StitchConfig, accs: map<int, Accumulator>, ids: seq<int>, id: int)
    requires id in accs && forall c :: c in accs ==> c in ids
    ensures var chain := PredecessorChain(cfg, accs, ids, id);
      if accs[id].outputFrames > 0 && accs[id].sourceFrames <= 1 then GoesBack(cfg, accs, chain, id, 3)
      else chain == []
  {
    ChainGoesBack(cfg, accs, ids, id, 3);
    hide ChainBefore, GoesBack;
  }
}
