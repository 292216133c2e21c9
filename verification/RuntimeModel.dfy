// RuntimeEventCounter of app/services/runtime_event_counter.py as a function
// from states to states: the tracker, the gate accumulators and the counter,
// with the gate's decisions as input.
module RuntimeModel {
  import opened Prelude
  import opened Geometry
  import opened CountModel
  import opened CountHistory
  import opened CountInvariant
  import opened CountEffects
  import opened CountTheorems
  import T = BoxTracker
  import opened GateStitching

  datatype RuntimeConfig = RuntimeConfig(count: Config, tracker: T.Settings, stitch: StitchConfig)

  // The fixed thresholds of the runtime counter.
  function Configure(gate: Option<Gate>, sourceMinFrames: int, outputStableFrames: int,
                     matchDistance: real, trackerMaxMissing: int): RuntimeConfig
  {
    RuntimeConfig(
      Config(gate, sourceMinFrames, outputStableFrames, 0.4, 3.0, 1, 30, 45, matchDistance * 0.75, 5),
      T.Settings(matchDistance, Max(1, trackerMaxMissing)),
      StitchConfig(matchDistance, Max(1, trackerMaxMissing), sourceMinFrames, 45))
  }

  datatype Runtime = Runtime(
    tracker: T.Tracker,
    accOrder: seq<int>,
    accs: map<int, Accumulator>,
    machine: Machine,
    frame: int)

  const START := Runtime(T.INITIAL, [], map[], INITIAL, 0)

  // The counter's zone thresholds are 0.25 for source and output, 0.5 to ignore.
  function ToDetection(s: T.Sighting): Detection {
    Detection(s.trackId, s.raw.box, s.raw.ignoreOverlap >= 0.5, s.raw.sourceOverlap >= 0.25,
              s.raw.outputOverlap >= 0.25)
  }

  function ToDetections(found: seq<T.Sighting>): seq<Detection> {
    if found == [] then [] else ToDetections(found[..|found| - 1]) + [ToDetection(found[|found| - 1])]
  }

  function AccumulateOne(r: Runtime, s: T.Sighting): Runtime {
    if s.trackId in r.accs then r.(accs := r.accs[s.trackId := Observed(r.accs[s.trackId], s.raw, r.frame)])
    else r.(accs := r.accs[s.trackId := Observed(FRESH, s.raw, r.frame)], accOrder := r.accOrder + [s.trackId])
  }

  function Accumulate(r: Runtime, found: seq<T.Sighting>): Runtime {
    if found == [] then r else AccumulateOne(Accumulate(r, found[..|found| - 1]), found[|found| - 1])
  }

  function BoxOf(found: seq<T.Sighting>, id: int): Option<Box> {
    if found == [] then None
    else if found[|found| - 1].trackId == id then Some(found[|found| - 1].raw.box)
    else BoxOf(found[..|found| - 1], id)
  }

  function ChainName(source: int): string {
    "proof-source-track:" + Decimal(source)
  }

  // The track a delivery chain starts from.
  function ChainSource(cfg: RuntimeConfig, r: Runtime, id: int): int
    requires id in r.accs
  {
    var chain := PredecessorChain(cfg.stitch, r.accs, r.accOrder, id);
    if chain == [] then id else chain[0]
  }

  datatype Chain = Chain(source: int, output: int, box: Box)

  // The chains of the tracks the gate allows and this frame shows.
  function Chains(cfg: RuntimeConfig, r: Runtime, found: seq<T.Sighting>, allowed: set<int>,
                  ids: seq<int>): seq<Chain> {
    if ids == [] then []
    else
      var before := Chains(cfg, r, found, allowed, ids[..|ids| - 1]);
      var id := ids[|ids| - 1];
      var box := BoxOf(found, id);
      if id in r.accs && id in allowed && box.Some? then before + [Chain(ChainSource(cfg, r, id), id, box.value)]
      else before
  }

  function CommitAll(cfg: RuntimeConfig, m: Machine, chains: seq<Chain>): Machine {
    if chains == [] then m
    else
      var c := chains[|chains| - 1];
      CommitChain(cfg.count, CommitAll(cfg, m, chains[..|chains| - 1]), ChainName(c.source), c.output, c.box,
                  Some(c.source))
  }

  function Approved(r: Runtime, allowed: set<int>): set<int> {
    set id | id in r.accs && id in allowed
  }

  function ProcessFrame(cfg: RuntimeConfig, r: Runtime, ds: seq<T.RawDetection>, allowed: set<int>): Runtime {
    var (tracker, found) := T.NextFrame(cfg.tracker, r.tracker, ds);
    var r1 := Accumulate(r.(tracker := tracker), found);
    var m := Update(cfg.count, r1.machine, ToDetections(found), Some(Approved(r1, allowed)));
    r1.(machine := CommitAll(cfg, m, Chains(cfg, r1, found, allowed, r1.accOrder)), frame := r1.frame + 1)
  }

  function Flush(cfg: RuntimeConfig, r: Runtime, iterations: nat): Runtime {
    if iterations == 0 then r
    else
      var r1 := Flush(cfg, r, iterations - 1);
      r1.(machine := Update(cfg.count, r1.machine, [], Some({})), frame := r1.frame + 1)
  }

  datatype FrameInput = FrameInput(detections: seq<T.RawDetection>, allowed: set<int>)

  function Frames(cfg: RuntimeConfig, inputs: seq<FrameInput>): Runtime {
    if inputs == [] then START
    else
      var last := inputs[|inputs| - 1];
      ProcessFrame(cfg, Frames(cfg, inputs[..|inputs| - 1]), last.detections, last.allowed)
  }

  // ----- what one update does to the missing counts -----

  lemma JudgeKeepsMissing(cfg: Config, m: Machine, d: Detection, previous: Option<Point>)
    requires Placeable(m, d.trackId)
    ensures Judge(cfg, m, d, previous).tracks[d.trackId].missing == m.tracks[d.trackId].missing
  {
    hide Classify, Advance;
    var m1 := Put(m, d.trackId, m.tracks[d.trackId].(lastValidInOutput := !d.ignoreHit && d.outputHit));
    var judged := Classify(cfg, m1, d);
    ClassifyKeepsMissing(cfg, m1, d);
    if judged.Some? {
      AdvanceKeepsMissing(cfg, judged.value, d, previous);
    }
  }

  lemma ClassifyKeepsMissing(cfg: Config, m: Machine, d: Detection)
    requires Placeable(m, d.trackId)
    ensures Classify(cfg, m, d).Some? ==>
      Classify(cfg, m, d).value.tracks[d.trackId].missing == m.tracks[d.trackId].missing
  {
    hide MatchingResident, Lender;
  }

  lemma AdvanceKeepsMissing(cfg: Config, m: Machine, d: Detection, previous: Option<Point>)
    requires Placeable(m, d.trackId)
    ensures Advance(cfg, m, d, previous).tracks[d.trackId].missing == m.tracks[d.trackId].missing
  {
    hide SourceStep, GateStep, OutputStep;
    var m1 := SourceStep(cfg, m, d);
    var m2 := GateStep(cfg, m1, d, previous);
    SourceStepKeepsMissing(cfg, m, d);
    GateStepKeepsMissing(cfg, m1, d, previous);
    OutputStepKeepsMissing(cfg, m2, d, previous);
  }

  lemma SourceStepKeepsMissing(cfg: Config, m: Machine, d: Detection)
    requires Placeable(m, d.trackId)
    ensures SourceStep(cfg, m, d).tracks[d.trackId].missing == m.tracks[d.trackId].missing
  {
  }

  lemma GateStepKeepsMissing(cfg: Config, m: Machine, d: Detection, previous: Option<Point>)
    requires Placeable(m, d.trackId)
    ensures GateStep(cfg, m, d, previous).tracks[d.trackId].missing == m.tracks[d.trackId].missing
  {
    hide GateCrossed;
  }

  lemma OutputStepKeepsMissing(cfg: Config, m: Machine, d: Detection, previous: Option<Point>)
    requires Placeable(m, d.trackId)
    ensures OutputStep(cfg, m, d, previous).tracks[d.trackId].missing == m.tracks[d.trackId].missing
  {
    hide Stable, CountEvent, Age;
  }

  lemma DetectSetsMissing(cfg: Config, m: Machine, d: Detection, approved: bool)
    ensures Detect(cfg, m, d, approved).tracks[d.trackId].missing == 0
    ensures forall j :: j != d.trackId && j in m.tracks ==>
      j in Detect(cfg, m, d, approved).tracks && Detect(cfg, m, d, approved).tracks[j] == m.tracks[j]
  {
    hide Judge;
    JudgeKeepsMissing(cfg, Observe(m, d, approved), d, PreviousCenter(m, d.trackId));
    DetectActs(cfg, m, d, approved);
    hide Detect;
  }

  lemma {:induction false} DetectAllMissing(cfg: Config, m: Machine, ds: seq<Detection>, approved: Option<set<int>>)
    ensures var m' := DetectAll(cfg, m, ds, approved);
      && m'.tracks.Keys == m.tracks.Keys + Ids(ds)
      && (forall id :: id in Ids(ds) ==> m'.tracks[id].missing == 0)
      && (forall id :: id in m.tracks && id !in Ids(ds) ==> m'.tracks[id] == m.tracks[id])
  {
    hide Detect;
    if ds != [] {
      var d := ds[|ds| - 1];
      var front := ds[..|ds| - 1];
      assert ds == front + [d];
      assert Ids(ds) == Ids(front) + {d.trackId};
      DetectAllMissing(cfg, m, front, approved);
      DetectSetsMissing(cfg, DetectAll(cfg, m, front, approved), d,
                        approved.None? || d.trackId in approved.value);
    }
  }

  // The second loop leaves the tracks it has not reached alone, and makes the
  // others one frame older unless that is too old.
  ghost predicate Aged(cfg: Config, m: Machine, m': Machine, ids: seq<int>, present: set<int>) {
    && (forall j :: j in m'.tracks ==> j in m.tracks)
    && (forall j :: j in m.tracks && (j !in ids || j in present) ==>
          j in m'.tracks && m'.tracks[j].missing == m.tracks[j].missing)
    && (forall j :: j in m'.tracks && j in ids && j !in present ==>
          m'.tracks[j].missing == m.tracks[j].missing + 1 && m'.tracks[j].missing <= cfg.maxMissing)
    && (forall j :: j in m.tracks && j in ids && j !in present && m.tracks[j].missing + 1 <= cfg.maxMissing ==>
          j in m'.tracks)
  }

  lemma MissAges(cfg: Config, m: Machine, id: int)
    requires id in m.tracks
    ensures var m' := Miss(cfg, m, id);
      && (forall j :: j != id ==> (j in m'.tracks <==> j in m.tracks))
      && (forall j :: j != id && j in m.tracks ==> m'.tracks[j] == m.tracks[j])
      && (id in m'.tracks <==> m.tracks[id].missing + 1 <= cfg.maxMissing)
      && (id in m'.tracks ==> m'.tracks[id].missing == m.tracks[id].missing + 1)
  {
    MarkMissingActs(cfg, m, id);
    hide MarkMissing, CountsOf;
  }

  lemma {:induction false} MissAllAges(cfg: Config, m: Machine, ids: seq<int>, present: set<int>)
    requires NoDuplicates(ids) && forall id :: id in ids ==> id in m.tracks
    ensures Aged(cfg, m, MissAll(cfg, m, ids, present), ids, present)
  {
    hide Miss;
    if ids != [] {
      var n := |ids| - 1;
      var last := ids[n];
      assert last in ids && last !in ids[..n];
      assert last in m.tracks;
      assert ids == ids[..n] + [last];
      MissAllAges(cfg, m, ids[..n], present);
      var m1 := MissAll(cfg, m, ids[..n], present);
      assert last in m1.tracks;
      if last !in present {
        MissAges(cfg, m1, last);
      }
    }
  }

  lemma {:induction false} ExpireAllKeepsMissing(cfg: Config, m: Machine, ids: seq<int>)
    ensures var m' := ExpireAll(cfg, m, ids);
      m'.tracks.Keys == m.tracks.Keys && forall j :: j in m.tracks ==> m'.tracks[j].missing == m.tracks[j].missing
  {
    if ids != [] {
      ExpireAllKeepsMissing(cfg, m, ids[..|ids| - 1]);
    }
  }

  lemma UpdateAges(cfg: Config, m: Machine, ds: seq<Detection>, approved: Option<set<int>>)
    requires Good(cfg, m)
    ensures var m' := Update(cfg, m, ds, approved);
      && (forall j :: j in m'.tracks ==> j in m.tracks || j in Ids(ds))
      && (forall j :: j in Ids(ds) ==> j in m'.tracks && m'.tracks[j].missing == 0)
      && (forall j :: j in m'.tracks && j !in Ids(ds) ==>
            m'.tracks[j].missing == m.tracks[j].missing + 1 && m'.tracks[j].missing <= cfg.maxMissing)
      && (forall j :: j in m.tracks && j !in Ids(ds) && m.tracks[j].missing + 1 <= cfg.maxMissing ==> j in m'.tracks)
  {
    hide Inv, DetectAll, MissAll, ExpireAll;
    var m0 := BeginFrame(m);
    BeginFrameKeeps(cfg, m);
    DetectAllKeeps(cfg, m0, ds, approved, m.tracks.Keys);
    DetectAllMissing(cfg, m0, ds, approved);
    var m1 := DetectAll(cfg, m0, ds, approved);
    OrderIsKeys(cfg, m1, m.tracks.Keys - Ids(ds));
    MissAllAges(cfg, m1, m1.order, Ids(ds));
    var m2 := MissAll(cfg, m1, m1.order, Ids(ds));
    ExpireAllKeepsMissing(cfg, m2, m2.order);
  }

  // ----- what one update does to the counts of each id -----

  // Every count of a remembered id is known to its memory, and no id has two.
  ghost predicate Remembered(m: Machine) {
    && (forall id :: id in m.tracks ==> Unremembered(m, id) == 0)
    && (forall id :: CountsOf(m.log, id) <= 1)
  }

  ghost predicate CountsWithin(m: Machine, m': Machine, ids: set<int>) {
    forall id :: CountsOf(m'.log, id) > 0 ==> CountsOf(m.log, id) > 0 || id in ids
  }

  lemma ActsRemembers(m: Machine, m': Machine, id: int)
    requires Remembered(m) && Acts(m, m', id)
    requires id in m.tracks || CountsOf(m.log, id) == 0
    ensures Remembered(m') && CountsWithin(m, m', {id})
  {
    hide CountsOf;
    forall j
      ensures j in m'.tracks ==> Unremembered(m', j) == 0
      ensures CountsOf(m'.log, j) <= 1
      ensures CountsOf(m'.log, j) > 0 ==> CountsOf(m.log, j) > 0 || j == id
    {
      assert Unremembered(m', j) == Unremembered(m, j);
      assert CountsOf(m.log, j) <= 1;
    }
  }

  lemma {:induction false} DetectAllRemembers(cfg: Config, m: Machine, ds: seq<Detection>, approved: Option<set<int>>)
    requires Remembered(m) && forall d :: d in ds ==> d.trackId in m.tracks || CountsOf(m.log, d.trackId) == 0
    requires forall i, j :: 0 <= i < j < |ds| ==> ds[i].trackId != ds[j].trackId
    ensures Remembered(DetectAll(cfg, m, ds, approved))
    ensures CountsWithin(m, DetectAll(cfg, m, ds, approved), Ids(ds))
  {
    hide Detect, CountsOf, Acts, Remembered;
    if ds != [] {
      var d := ds[|ds| - 1];
      var front := ds[..|ds| - 1];
      assert ds == front + [d];
      assert Ids(ds) == Ids(front) + {d.trackId};
      DetectAllRemembers(cfg, m, front, approved);
      var m1 := DetectAll(cfg, m, front, approved);
      DetectAllMissing(cfg, m, front, approved);
      assert d.trackId !in Ids(front);
      DetectActs(cfg, m1, d, approved.None? || d.trackId in approved.value);
      ActsRemembers(m1, Detect(cfg, m1, d, approved.None? || d.trackId in approved.value), d.trackId);
    }
  }

  lemma MissRemembers(cfg: Config, m: Machine, id: int)
    requires Remembered(m) && id in m.tracks
    ensures Remembered(Miss(cfg, m, id)) && CountsWithin(m, Miss(cfg, m, id), {id})
  {
    hide CountsOf, MarkMissing;
    var m1 := MarkMissing(cfg, m, id);
    MarkMissingActs(cfg, m, id);
    ActsRemembers(m, m1, id);
    CountsOfMoreForAll(m1.log, Forgotten(id));
    assert forall j :: j in m1.tracks ==> Unremembered(m1, j) == 0;
  }

  lemma {:induction false} MissAllRemembers(cfg: Config, m: Machine, ids: seq<int>, present: set<int>)
    requires Remembered(m)
    ensures Remembered(MissAll(cfg, m, ids, present))
    ensures CountsWithin(m, MissAll(cfg, m, ids, present), m.tracks.Keys)
    ensures MissAll(cfg, m, ids, present).tracks.Keys <= m.tracks.Keys
  {
    hide Miss, CountsOf, Remembered;
    if ids != [] {
      MissAllRemembers(cfg, m, ids[..|ids| - 1], present);
      var m1 := MissAll(cfg, m, ids[..|ids| - 1], present);
      var id := ids[|ids| - 1];
      if id !in present && id in m1.tracks {
        MissRemembers(cfg, m1, id);
        MissAges(cfg, m1, id);
        assert forall j :: j in Miss(cfg, m1, id).tracks ==> j in m1.tracks;
      }
    }
  }

  lemma ExpireRemembers(cfg: Config, m: Machine, id: int)
    requires Remembered(m) && id in m.tracks
    ensures Remembered(Expire(cfg, m, id))
  {
    hide CountsOf, Acts;
    ExpireActs(cfg, m, id);
    ActsRemembers(m, Expire(cfg, m, id), id);
  }

  lemma {:induction false} ExpireAllRemembers(cfg: Config, m: Machine, ids: seq<int>)
    requires Remembered(m)
    ensures Remembered(ExpireAll(cfg, m, ids))
  {
    hide Expire, Remembered;
    if ids != [] {
      ExpireAllRemembers(cfg, m, ids[..|ids| - 1]);
      var m1 := ExpireAll(cfg, m, ids[..|ids| - 1]);
      if ids[|ids| - 1] in m1.tracks {
        ExpireRemembers(cfg, m1, ids[|ids| - 1]);
      }
    }
  }

  lemma BeginFrameRemembers(m: Machine)
    requires Remembered(m)
    ensures Remembered(BeginFrame(m)) && forall id :: CountsOf(BeginFrame(m).log, id) == CountsOf(m.log, id)
  {
    hide CountsOf;
    CountsOfMoreForAll(m.log, Tick);
    assert forall id :: id in m.tracks ==> Unremembered(m, id) == 0;
  }

  lemma UpdateRemembers(cfg: Config, m: Machine, ds: seq<Detection>, approved: Option<set<int>>)
    requires Remembered(m) && forall d :: d in ds ==> d.trackId in m.tracks || CountsOf(m.log, d.trackId) == 0
    requires forall i, j :: 0 <= i < j < |ds| ==> ds[i].trackId != ds[j].trackId
    ensures Remembered(Update(cfg, m, ds, approved))
    ensures CountsWithin(m, Update(cfg, m, ds, approved), m.tracks.Keys + Ids(ds))
  {
    hide DetectAll, MissAll, ExpireAll, CountsOf, Remembered;
    var m0 := BeginFrame(m);
    BeginFrameRemembers(m);
    DetectAllRemembers(cfg, m0, ds, approved);
    DetectAllMissing(cfg, m0, ds, approved);
    var m1 := DetectAll(cfg, m0, ds, approved);
    MissAllRemembers(cfg, m1, m1.order, Ids(ds));
    var m2 := MissAll(cfg, m1, m1.order, Ids(ds));
    ExpireAllRemembers(cfg, m2, m2.order);
    ExpireAllQuiet(cfg, m2, m2.order);
  }

  // ----- delivery chains of one frame -----

  lemma ChainKeeps(cfg: RuntimeConfig, m: Machine, chainId: string, id: int, box: Box, source: Option<int>)
    requires Good(cfg.count, m) && Remembered(m) && id in m.tracks
    ensures var m' := CommitChain(cfg.count, m, chainId, id, box, source);
      && Good(cfg.count, m') && Remembered(m')
      && m'.tracks.Keys == m.tracks.Keys
      && (forall j :: j in m.tracks ==> m'.tracks[j].missing == m.tracks[j].missing)
      && CountsWithin(m, m', m.tracks.Keys)
  {
    hide Good, Remembered, CommitChain, CountsOf, Acts;
    var m' := CommitChain(cfg.count, m, chainId, id, box, source);
    StepKeeps(cfg.count, m, ChainOp(chainId, id, box, source));
    CommitChainActs(cfg.count, m, chainId, id, box, source);
    ActsRemembers(m, m', id);
    ActsSpares(m, m', id);
  }

  lemma ActsSpares(m: Machine, m': Machine, id: int)
    requires Acts(m, m', id) && id in m.tracks
    ensures m'.tracks.Keys == m.tracks.Keys && forall j :: j != id && j in m.tracks ==> m'.tracks[j] == m.tracks[j]
  {
    assert forall j :: j in m'.tracks.Keys <==> j in m.tracks.Keys;
  }

  lemma {:induction false} CommitAllKeeps(cfg: RuntimeConfig, m: Machine, chains: seq<Chain>)
    requires Good(cfg.count, m) && Remembered(m)
    requires forall c :: c in chains ==> c.output in m.tracks
    ensures var m' := CommitAll(cfg, m, chains);
      && Good(cfg.count, m') && Remembered(m')
      && m'.tracks.Keys == m.tracks.Keys
      && (forall j :: j in m.tracks ==> m'.tracks[j].missing == m.tracks[j].missing)
      && CountsWithin(m, m', m.tracks.Keys)
  {
    hide Good, Remembered, CommitChain, CountsOf, ChainName;
    if chains != [] {
      CommitAllKeeps(cfg, m, chains[..|chains| - 1]);
      var c := chains[|chains| - 1];
      ChainKeeps(cfg, CommitAll(cfg, m, chains[..|chains| - 1]), ChainName(c.source), c.output, c.box, Some(c.source));
    }
  }

  // A chain ends at a track of this frame, where the frame shows it.
  lemma {:induction false} ChainsAreFound(cfg: RuntimeConfig, r: Runtime, found: seq<T.Sighting>, allowed: set<int>,
                                          ids: seq<int>)
    ensures forall c :: c in Chains(cfg, r, found, allowed, ids) ==>
      T.Found(found, c.output) && c.output in allowed && BoxOf(found, c.output) == Some(c.box)
  {
    hide BoxOf, ChainSource, T.Found;
    if ids != [] {
      ChainsAreFound(cfg, r, found, allowed, ids[..|ids| - 1]);
      BoxOfFound(found, ids[|ids| - 1]);
    }
  }

  // ----- sightings as detections -----

  lemma {:induction false} SightingsAsDetections(found: seq<T.Sighting>)
    ensures |ToDetections(found)| == |found|
    ensures forall k :: 0 <= k < |found| ==> ToDetections(found)[k] == ToDetection(found[k])
  {
    if found != [] {
      SightingsAsDetections(found[..|found| - 1]);
    }
  }

  lemma FoundAreIds(found: seq<T.Sighting>)
    ensures forall id :: id in Ids(ToDetections(found)) <==> T.Found(found, id)
  {
    SightingsAsDetections(found);
    hide ToDetections;
    var ds := ToDetections(found);
    forall id
      ensures id in Ids(ds) <==> T.Found(found, id)
    {
      if T.Found(found, id) {
        var k :| 0 <= k < |found| && found[k].trackId == id;
        assert ds[k] in ds && ds[k].trackId == id;
      }
      if id in Ids(ds) {
        var d :| d in ds && d.trackId == id;
        var k :| 0 <= k < |ds| && ds[k] == d;
        assert found[k].trackId == id;
      }
    }
  }

  lemma {:induction false} BoxOfFound(found: seq<T.Sighting>, id: int)
    ensures BoxOf(found, id).Some? <==> T.Found(found, id)
  {
    if found != [] {
      var n := |found| - 1;
      BoxOfFound(found[..n], id);
      if T.Found(found[..n], id) {
        var k :| 0 <= k < n && found[..n][k].trackId == id;
        assert found[k].trackId == id;
      }
      if T.Found(found, id) && found[n].trackId != id {
        var k :| 0 <= k < |found| && found[k].trackId == id;
        assert found[..n][k].trackId == id;
      }
    }
  }

  // ----- the invariant of tracker and counter together -----

  ghost predicate AccsOk(r: Runtime) {
    forall id :: id in r.accs ==> SeenInOrder(r.accs[id]) && r.accs[id].lastSeen < r.frame
                                  && |r.accs[id].centers| == r.accs[id].detections
  }

  ghost predicate IdsIssued(r: Runtime) {
    && (forall id :: id in r.machine.tracks ==> 1 <= id < r.tracker.nextId)
    && (forall id :: CountsOf(r.machine.log, id) > 0 ==> 1 <= id < r.tracker.nextId)
  }

  // Tracker and counter hold the same missing number for every live id.
  ghost predicate SameAges(t: T.Tracker, m: Machine) {
    forall id :: id in t.tracks ==> id in m.tracks && t.tracks[id].missing == m.tracks[id].missing
  }

  ghost predicate Settled(cfg: RuntimeConfig, r: Runtime) {
    && T.TrackerOk(r.tracker)
    && Good(cfg.count, r.machine)
    && Remembered(r.machine)
    && IdsIssued(r)
  }

  ghost predicate Coupled(cfg: RuntimeConfig, r: Runtime) {
    Settled(cfg, r) && SameAges(r.tracker, r.machine) && AccsOk(r) && r.frame >= 0
  }

  lemma UpdateKeepsAges(cfg: RuntimeConfig, t: T.Tracker, m: Machine, ds: seq<T.RawDetection>,
                        approved: Option<set<int>>)
    requires T.TrackerOk(t) && Good(cfg.count, m) && SameAges(t, m)
    requires cfg.tracker.maxMissing <= cfg.count.maxMissing
    ensures var (t', found) := T.NextFrame(cfg.tracker, t, ds);
      && T.TrackerOk(t') && t.nextId <= t'.nextId
      && SameAges(t', Update(cfg.count, m, ToDetections(found), approved))
  {
    hide Good, Update, T.NextFrame, T.Found, T.FoundIndex, T.OneToOne, ToDetections;
    var (t', found) := T.NextFrame(cfg.tracker, t, ds);
    T.NextFrameAnswers(cfg.tracker, t, ds);
    UpdateAges(cfg.count, m, ToDetections(found), approved);
    FoundAreIds(found);
  }

  // What the counter has counted and the tracker still finds is remembered.
  ghost predicate FoundKnown(cfg: RuntimeConfig, r: Runtime, ds: seq<T.RawDetection>) {
    forall id :: T.Found(T.NextFrame(cfg.tracker, r.tracker, ds).1, id) ==>
      id in r.machine.tracks || CountsOf(r.machine.log, id) == 0
  }

  lemma AgesKnow(cfg: RuntimeConfig, r: Runtime, ds: seq<T.RawDetection>)
    requires Settled(cfg, r) && SameAges(r.tracker, r.machine)
    ensures FoundKnown(cfg, r, ds)
  {
    hide Good, T.NextFrame, T.Found, T.FoundIndex, T.OneToOne, CountsOf, Remembered;
    T.NextFrameAnswers(cfg.tracker, r.tracker, ds);
  }

  lemma UpdateCountsIssued(cfg: RuntimeConfig, r: Runtime, ds: seq<T.RawDetection>, approved: Option<set<int>>)
    requires Settled(cfg, r) && FoundKnown(cfg, r, ds)
    ensures var (t', found) := T.NextFrame(cfg.tracker, r.tracker, ds);
      var m := Update(cfg.count, r.machine, ToDetections(found), approved);
      && T.TrackerOk(t')
      && Remembered(m)
      && (forall id :: id in m.tracks ==> 1 <= id < t'.nextId)
      && (forall id :: CountsOf(m.log, id) > 0 ==> 1 <= id < t'.nextId)
      && (forall id :: T.Found(found, id) ==> id in m.tracks)
  {
    hide Good, Update, T.NextFrame, T.FoundIndex, T.Found, CountsOf, Remembered, ToDetections;
    var (t', found) := T.NextFrame(cfg.tracker, r.tracker, ds);
    T.NextFrameAnswers(cfg.tracker, r.tracker, ds);
    FoundAreIds(found);
    SightingsAsDetections(found);
    T.FoundAt(found);
    var dets := ToDetections(found);
    forall d | d in dets
      ensures d.trackId in r.machine.tracks || CountsOf(r.machine.log, d.trackId) == 0
    {
      assert d.trackId in Ids(dets);
    }
    UpdateRemembers(cfg.count, r.machine, dets, approved);
    UpdateAges(cfg.count, r.machine, dets, approved);
  }

  lemma {:induction false} AccumulateSpares(r: Runtime, found: seq<T.Sighting>)
    ensures Accumulate(r, found).frame == r.frame && Accumulate(r, found).machine == r.machine
    ensures Accumulate(r, found).tracker == r.tracker
  {
    hide Observed;
    if found != [] {
      AccumulateSpares(r, found[..|found| - 1]);
    }
  }

  lemma {:induction false} AccumulateKeeps(r: Runtime, found: seq<T.Sighting>)
    requires AccsOk(r) && r.frame >= 0
    ensures var r' := Accumulate(r, found); AccsOk(r'.(frame := r.frame + 1))
    ensures Accumulate(r, found).frame == r.frame
  {
    hide ZoneOf, DistanceSq;
    if found != [] {
      AccumulateKeeps(r, found[..|found| - 1]);
    }
  }

  lemma ProcessFrameSettles(cfg: RuntimeConfig, r: Runtime, ds: seq<T.RawDetection>, allowed: set<int>)
    requires Settled(cfg, r) && FoundKnown(cfg, r, ds)
    ensures var (t', found) := T.NextFrame(cfg.tracker, r.tracker, ds);
      var r1 := Accumulate(r.(tracker := t'), found);
      var m := Update(cfg.count, r.machine, ToDetections(found), Some(Approved(r1, allowed)));
      var r' := ProcessFrame(cfg, r, ds, allowed);
      && Settled(cfg, r')
      && r'.machine.tracks.Keys == m.tracks.Keys
      && forall j :: j in m.tracks ==> r'.machine.tracks[j].missing == m.tracks[j].missing
  {
    hide Good, Update, T.NextFrame, T.Found, CountsOf, Remembered, ToDetections, CommitAll, Chains, Accumulate, BoxOf;
    var (t', found) := T.NextFrame(cfg.tracker, r.tracker, ds);
    var r1 := Accumulate(r.(tracker := t'), found);
    var approved := Some(Approved(r1, allowed));
    AccumulateSpares(r.(tracker := t'), found);
    UpdateCountsIssued(cfg, r, ds, approved);
    var m := Update(cfg.count, r.machine, ToDetections(found), approved);
    UpdateKeeps(cfg.count, r.machine, ToDetections(found), approved);
    ChainsAreFound(cfg, r1, found, allowed, r1.accOrder);
    CommitAllKeeps(cfg, m, Chains(cfg, r1, found, allowed, r1.accOrder));
  }

  lemma ProcessFrameKeeps(cfg: RuntimeConfig, r: Runtime, ds: seq<T.RawDetection>, allowed: set<int>)
    requires Coupled(cfg, r) && cfg.tracker.maxMissing <= cfg.count.maxMissing
    ensures Coupled(cfg, ProcessFrame(cfg, r, ds, allowed))
  {
    hide Good, Update, T.NextFrame, T.Found, CountsOf, Remembered, ToDetections, CommitAll, Chains, Accumulate,
      SeenInOrder, IdsIssued;
    var (t', found) := T.NextFrame(cfg.tracker, r.tracker, ds);
    var r1 := Accumulate(r.(tracker := t'), found);
    AccumulateKeeps(r.(tracker := t'), found);
    AccumulateSpares(r.(tracker := t'), found);
    AgesKnow(cfg, r, ds);
    UpdateKeepsAges(cfg, r.tracker, r.machine, ds, Some(Approved(r1, allowed)));
    ProcessFrameSettles(cfg, r, ds, allowed);
  }

  lemma {:induction false} FramesCoupled(cfg: RuntimeConfig, inputs: seq<FrameInput>)
    requires cfg.tracker.maxMissing <= cfg.count.maxMissing
    ensures Coupled(cfg, Frames(cfg, inputs))
  {
    if inputs == [] {
      InitialGood(cfg.count);
    } else {
      hide Coupled, ProcessFrame;
      FramesCoupled(cfg, inputs[..|inputs| - 1]);
      var last := inputs[|inputs| - 1];
      ProcessFrameKeeps(cfg, Frames(cfg, inputs[..|inputs| - 1]), last.detections, last.allowed);
    }
  }

  lemma {:induction false} FlushKeeps(cfg: RuntimeConfig, r: Runtime, iterations: nat)
    requires Settled(cfg, r)
    ensures Settled(cfg, Flush(cfg, r, iterations)) && Flush(cfg, r, iterations).tracker == r.tracker
  {
    hide Settled, Update;
    if iterations > 0 {
      FlushKeeps(cfg, r, iterations - 1);
      FlushOnceKeeps(cfg, Flush(cfg, r, iterations - 1));
    }
  }

  lemma FlushOnceKeeps(cfg: RuntimeConfig, r: Runtime)
    requires Settled(cfg, r)
    ensures Settled(cfg, r.(machine := Update(cfg.count, r.machine, [], Some({})), frame := r.frame + 1))
  {
    hide Good, Update, CountsOf, Remembered, T.TrackerOk;
    UpdateKeeps(cfg.count, r.machine, [], Some({}));
    UpdateRemembers(cfg.count, r.machine, [], Some({}));
    UpdateAges(cfg.count, r.machine, [], Some({}));
  }

  // ----- every tracker id is counted at most once -----

  lemma {:induction false} CountedOnce(log: seq<Entry>)
    requires forall id :: CountsOf(log, id) <= 1
    ensures |Events(log)| == |CountedTracks(log)|
    ensures forall id :: id in CountedTracks(log) <==> CountsOf(log, id) > 0
  {
    if log != [] {
      var before := log[..|log| - 1];
      assert forall id :: CountsOf(before, id) <= CountsOf(log, id);
      CountedOnce(before);
      var e := log[|log| - 1];
      if e.Emitted? {
        assert CountsOf(log, e.event.trackId) == CountsOf(before, e.event.trackId) + 1;
      }
    }
  }

  // Over any frames followed by any flushes no tracker id is counted twice, and
  // the total never exceeds the number of ids the tracker has issued, provided
  // the counter remembers a track at least as long as the tracker does.
  lemma {:induction false} EachIdCountedAtMostOnce(cfg: RuntimeConfig, inputs: seq<FrameInput>, flushes: nat)
    requires cfg.tracker.maxMissing <= cfg.count.maxMissing
    ensures var r := Flush(cfg, Frames(cfg, inputs), flushes);
      && (forall id :: CountsOf(r.machine.log, id) <= 1)
      && (forall id :: CountsOf(r.machine.log, id) > 0 ==> 1 <= id < r.tracker.nextId)
      && r.machine.total <= r.tracker.nextId - 1
  {
    FramesCoupled(cfg, inputs);
    FlushKeeps(cfg, Frames(cfg, inputs), flushes);
    hide Flush, Frames;
    var r := Flush(cfg, Frames(cfg, inputs), flushes);
    CountedOnce(r.machine.log);
    RangeSize(CountedTracks(r.machine.log), 1, r.tracker.nextId);
  }

  // A tracker that associates nothing never finds an id again.
  lemma {:induction false} NewIdsSettle(cfg: RuntimeConfig, inputs: seq<FrameInput>)
    requires cfg.tracker.maxMatchDistance < 0.0
    ensures Settled(cfg, Frames(cfg, inputs))
  {
    if inputs == [] {
      InitialGood(cfg.count);
    } else {
      hide ProcessFrame, Good, Remembered, CountsOf, T.NextFrame, T.Found;
      NewIdsSettle(cfg, inputs[..|inputs| - 1]);
      var last := inputs[|inputs| - 1];
      var r := Frames(cfg, inputs[..|inputs| - 1]);
      T.AllAreNew(cfg.tracker, r.tracker, last.detections);
      assert FoundKnown(cfg, r, last.detections);
      ProcessFrameSettles(cfg, r, last.detections, last.allowed);
    }
  }

  lemma {:induction false} FramesAccsOk(cfg: RuntimeConfig, inputs: seq<FrameInput>)
    ensures AccsOk(Frames(cfg, inputs)) && Frames(cfg, inputs).frame == |inputs|
  {
    hide Update, T.NextFrame, CommitAll, Accumulate, AccsOk, ToDetections;
    if inputs == [] {
      assert AccsOk(START) by { NoAccs(); }
    } else {
      FramesAccsOk(cfg, inputs[..|inputs| - 1]);
      var r := Frames(cfg, inputs[..|inputs| - 1]);
      var (t', found) := T.NextFrame(cfg.tracker, r.tracker, inputs[|inputs| - 1].detections);
      var r0 := r.(tracker := t');
      SameAccs(r, r0);
      AccumulateKeeps(r0, found);
      SameAccs(Accumulate(r0, found).(frame := r.frame + 1), Frames(cfg, inputs));
    }
  }

  lemma NoAccs()
    ensures AccsOk(START)
  {
  }

  lemma SameAccs(r: Runtime, r': Runtime)
    requires AccsOk(r) && r'.accs == r.accs && r'.frame == r.frame
    ensures AccsOk(r')
  {
  }

  // The predecessors of a track are distinct earlier fragments, in every frame.
  lemma {:induction false} ChainsAreChronological(cfg: RuntimeConfig, inputs: seq<FrameInput>, id: int)
    requires id in Frames(cfg, inputs).accs
    ensures var r := Frames(cfg, inputs);
      Chronological(cfg.stitch, r.accs, PredecessorChain(cfg.stitch, r.accs, r.accOrder, id) + [id])
  {
    FramesAccsOk(cfg, inputs);
    hide Frames;
    var r := Frames(cfg, inputs);
    PredecessorsChronological(cfg.stitch, r.accs, r.accOrder, id);
  }
}
