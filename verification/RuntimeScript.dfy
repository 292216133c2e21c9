// The frames of the run in RuntimeScene, and that the gate itself allows what
// they allow.
module RuntimeScript {
  import opened Prelude
  import opened Geometry
  import opened CountModel
  import opened RuntimeModel
  import opened RuntimeEvidence
  import opened RuntimeScene
  import opened GateStitching
  import T = BoxTracker

  // ----- the frames -----

  function Lead(cfg: RuntimeConfig): nat {
    Max(1, cfg.count.sourceMinFrames)
  }

  function Gap(cfg: RuntimeConfig): nat {
    Max(0, cfg.count.maxMissing)
  }

  function Length(cfg: RuntimeConfig): nat {
    Lead(cfg) + Gap(cfg) + 3
  }

  // Two parts in the source, then the third place, the second part once more,
  // nothing, and in the end the third place again.
  function Visible(cfg: RuntimeConfig, i: nat): seq<int> {
    if i < Lead(cfg) then [1, 2]
    else if i == Lead(cfg) then [3]
    else if i == Lead(cfg) + 1 then [2]
    else if i + 1 < Length(cfg) then []
    else [3]
  }

  function AllowedAt(cfg: RuntimeConfig, i: nat): set<int> {
    if i < Lead(cfg) then {} else {3}
  }

  function Script(cfg: RuntimeConfig): seq<FrameInput> {
    seq(Length(cfg), i requires 0 <= i => FrameInput(Parts(cfg, Visible(cfg, i)), AllowedAt(cfg, i)))
  }

  lemma VisibleAscends(cfg: RuntimeConfig, i: nat)
    ensures Ascending(Visible(cfg, i)) && |Visible(cfg, i)| <= 2
  {
  }

  lemma ScriptIsFixedScene(cfg: RuntimeConfig)
    requires Standard(cfg)
    ensures FixedScene(Script(cfg))
  {
    forall i, d | 0 <= i < |Script(cfg)| && d in Script(cfg)[i].detections
      ensures exists id :: IsPart(id) && d == Part(cfg, id)
    {
      VisibleAscends(cfg, i);
      hide Part, Visible;
      var ids := Visible(cfg, i);
      var k :| 0 <= k < |Parts(cfg, ids)| && Parts(cfg, ids)[k] == d;
      assert IsPart(ids[k]) && d == Part(cfg, ids[k]);
    }
    hide Visible, Script;
  }

  // ----- the accumulators -----

  // A part that was seen n times in its place.
  function Stay(cfg: RuntimeConfig, id: int, n: nat, first: int, last: int): Accumulator {
    var zone := if id == 3 then Output else Source;
    Accumulator(zone, zone, if id == 3 then 0 else n, if id == 3 then n else 0, [zone],
                seq(n, _ => Place(cfg, id)), n, 0.0, 0.0, 1.0, 0.0, first, last)
  }

  lemma StayOnce(cfg: RuntimeConfig, id: int, frame: int)
    ensures Observed(FRESH, Part(cfg, id), frame) == Stay(cfg, id, 1, frame, frame)
  {
    hide Spot;
    PartBox(cfg, id);
  }

  lemma StayLonger(cfg: RuntimeConfig, id: int, n: nat, first: int, last: int, frame: int)
    requires n >= 1
    ensures Observed(Stay(cfg, id, n, first, last), Part(cfg, id), frame) == Stay(cfg, id, n + 1, first, frame)
  {
    hide Spot;
    PartBox(cfg, id);
    var p := Place(cfg, id);
    assert DistanceSq(p, p) == 0.0;
    assert seq(n, _ => p) + [p] == seq(n + 1, _ => p);
  }

  // The accumulators after the first n frames.
  function AccsAt(cfg: RuntimeConfig, n: nat): map<int, Accumulator> {
    var lead := Lead(cfg);
    if n == 0 then map[]
    else if n <= lead then map[1 := Stay(cfg, 1, n, 0, n - 1), 2 := Stay(cfg, 2, n, 0, n - 1)]
    else
      map[1 := Stay(cfg, 1, lead, 0, lead - 1),
          2 := if n == lead + 1 then Stay(cfg, 2, lead, 0, lead - 1) else Stay(cfg, 2, lead + 1, 0, lead + 1),
          3 := if n < Length(cfg) then Stay(cfg, 3, 1, lead, lead) else Stay(cfg, 3, 2, lead, Length(cfg) - 1)]
  }

  function OrderAt(cfg: RuntimeConfig, n: nat): seq<int> {
    if n == 0 then [] else if n <= Lead(cfg) then [1, 2] else [1, 2, 3]
  }

  // Accumulators and frame number after the first n frames.
  ghost predicate Accumulated(cfg: RuntimeConfig, r: Runtime, n: nat) {
    r.accs == AccsAt(cfg, n) && r.accOrder == OrderAt(cfg, n) && r.frame == n
  }

  lemma AccumulateFew(r: Runtime, x: T.Sighting, y: T.Sighting)
    ensures Accumulate(r, []) == r && Accumulate(r, [x]) == AccumulateOne(r, x)
    ensures Accumulate(r, [x, y]) == AccumulateOne(AccumulateOne(r, x), y)
  {
    hide AccumulateOne;
    assert [x][..0] == [] && [x, y][..1] == [x];
    assert Accumulate(r, []) == r;
    assert Accumulate(r, [x]) == AccumulateOne(r, x);
  }

  lemma SightedFew(cfg: RuntimeConfig, i: nat)
    ensures var ids := Visible(cfg, i);
      Sighted(cfg, ids) ==
      if |ids| == 0 then []
      else if |ids| == 1 then [T.Sighting(ids[0], 0, Part(cfg, ids[0]))]
      else [T.Sighting(ids[0], 0, Part(cfg, ids[0])), T.Sighting(ids[1], 1, Part(cfg, ids[1]))]
  {
    hide Part;
  }

  // Both parts in the source are seen once more.
  lemma LeadFollows(cfg: RuntimeConfig, r: Runtime, n: nat)
    requires Accumulated(cfg, r, n) && n < Lead(cfg)
    ensures var r' := AccumulateOne(AccumulateOne(r, T.Sighting(1, 0, Part(cfg, 1))), T.Sighting(2, 1, Part(cfg, 2)));
      Accumulated(cfg, r'.(frame := n + 1), n + 1)
  {
    hide Stay, Observed, Part;
    if n == 0 {
      StayOnce(cfg, 1, 0);
      StayOnce(cfg, 2, 0);
    } else {
      StayLonger(cfg, 1, n, 0, n - 1, n);
      StayLonger(cfg, 2, n, 0, n - 1, n);
    }
  }

  lemma OneFollows(cfg: RuntimeConfig, r: Runtime, n: nat, id: int)
    requires Accumulated(cfg, r, n) && n < Length(cfg) && Visible(cfg, n) == [id]
    ensures var r' := AccumulateOne(r, T.Sighting(id, 0, Part(cfg, id)));
      Accumulated(cfg, r'.(frame := n + 1), n + 1)
  {
    hide Stay, Observed, Part;
    var lead := Lead(cfg);
    if n == lead {
      StayOnce(cfg, 3, n);
    } else if n == lead + 1 {
      StayLonger(cfg, 2, lead, 0, lead - 1, n);
    } else {
      StayLonger(cfg, 3, 1, lead, lead, n);
    }
  }

  lemma AccumulatorsFollow(cfg: RuntimeConfig, r: Runtime, n: nat)
    requires Accumulated(cfg, r, n) && n < Length(cfg)
    ensures var r' := Accumulate(r, Sighted(cfg, Visible(cfg, n)));
      && Accumulated(cfg, r'.(frame := n + 1), n + 1)
      && r'.machine == r.machine && r'.tracker == r.tracker && r'.frame == r.frame
  {
    hide Stay, Observed, Part, AccsAt, OrderAt;
    var ids := Visible(cfg, n);
    SightedFew(cfg, n);
    var x := if |ids| == 0 then T.Sighting(1, 0, Part(cfg, 1)) else T.Sighting(ids[0], 0, Part(cfg, ids[0]));
    AccumulateFew(r, x, T.Sighting(2, 1, Part(cfg, 2)));
    hide Accumulate;
    if |ids| == 2 {
      LeadFollows(cfg, r, n);
    } else if |ids| == 1 {
      OneFollows(cfg, r, n, ids[0]);
    } else {
      NothingFollows(cfg, n);
    }
  }

  lemma NothingFollows(cfg: RuntimeConfig, n: nat)
    requires n < Length(cfg) && Visible(cfg, n) == []
    ensures AccsAt(cfg, n + 1) == AccsAt(cfg, n) && OrderAt(cfg, n + 1) == OrderAt(cfg, n)
  {
    hide Stay;
  }

  // ----- predecessors -----

  function Toucher(cfg: RuntimeConfig, n: nat): int {
    if n == Lead(cfg) + 1 then 2 else 1
  }

  // Which parts may precede the third: both at first, then only the one that was
  // not touched since.
  lemma MayPrecedeThird(cfg: RuntimeConfig, n: nat)
    requires Standard(cfg) && Lead(cfg) < n <= Length(cfg)
    ensures var accs := AccsAt(cfg, n);
      && 3 in accs && accs[3].centers != []
      && MayPrecede(cfg.stitch, accs, 3, 1)
      && (MayPrecede(cfg.stitch, accs, 3, 2) <==> n == Lead(cfg) + 1)
      && !MayPrecede(cfg.stitch, accs, 3, 3)
      && (n == Lead(cfg) + 1 ==> Precedes(accs, 3, 2, 1))
  {
    PlacesInLink(cfg, 1, 3);
    PlacesInLink(cfg, 2, 3);
    Apart(cfg, 1, 3);
    Apart(cfg, 2, 3);
    SquareGrows(0.0, Pace(cfg));
    hide Place, Within, MaxLink, MaxGap, DistanceSq, Part;
    StaysAt(cfg, n);
  }

  // What the accumulators are, as far as predecessors go.
  lemma StaysAt(cfg: RuntimeConfig, n: nat)
    requires Lead(cfg) < n <= Length(cfg)
    ensures var accs := AccsAt(cfg, n);
      && accs.Keys == {1, 2, 3}
      && (forall id :: id in accs ==>
            && |accs[id].centers| >= 1
            && accs[id].centers[0] == accs[id].centers[|accs[id].centers| - 1] == Place(cfg, id))
  {
    hide Place;
  }

  lemma PredecessorOfThird(cfg: RuntimeConfig, n: nat)
    requires Standard(cfg) && Lead(cfg) < n <= Length(cfg)
    ensures var accs := AccsAt(cfg, n);
      && 3 in accs && accs[3].centers != []
      && Predecessor(cfg.stitch, accs, [1, 2, 3], 3) == Some(Toucher(cfg, n))
  {
    MayPrecedeThird(cfg, n);
    hide MayPrecede, Precedes, AccsAt;
    var accs := AccsAt(cfg, n);
    assert [1, 2, 3][..2] == [1, 2] && [1, 2][..1] == [1] && [1][..0] == [];
    assert Predecessor(cfg.stitch, accs, [], 3) == None;
    assert Predecessor(cfg.stitch, accs, [1], 3) == Some(1);
    assert Predecessor(cfg.stitch, accs, [1, 2], 3) == Some(Toucher(cfg, n));
  }

  // Nothing precedes the parts in the source: they began together and first.
  lemma NoneBeforeTheFirst(cfg: RuntimeConfig, n: nat, id: int)
    requires Lead(cfg) < n <= Length(cfg) && id in {1, 2}
    ensures var accs := AccsAt(cfg, n);
      && id in accs && accs[id].centers != []
      && Predecessor(cfg.stitch, accs, [1, 2, 3], id) == None
  {
    hide Place, Within, MaxLink, MaxGap;
    var accs := AccsAt(cfg, n);
    StaysAt(cfg, n);
    assert !MayPrecede(cfg.stitch, accs, id, 1) && !MayPrecede(cfg.stitch, accs, id, 2)
        && !MayPrecede(cfg.stitch, accs, id, 3);
    hide MayPrecede, Precedes, AccsAt;
    assert [1, 2, 3][..2] == [1, 2] && [1, 2][..1] == [1] && [1][..0] == [];
    assert Predecessor(cfg.stitch, accs, [], id) == None;
    assert Predecessor(cfg.stitch, accs, [1], id) == None;
    assert Predecessor(cfg.stitch, accs, [1, 2], id) == None;
  }

  lemma ChainOfThird(cfg: RuntimeConfig, n: nat)
    requires Standard(cfg) && Lead(cfg) < n <= Length(cfg)
    ensures 3 in AccsAt(cfg, n)
    ensures PredecessorChain(cfg.stitch, AccsAt(cfg, n), [1, 2, 3], 3) == [Toucher(cfg, n)]
  {
    var accs := AccsAt(cfg, n);
    PredecessorOfThird(cfg, n);
    NoneBeforeTheFirst(cfg, n, Toucher(cfg, n));
    ThirdLiesInOutput(cfg, n);
    hide AccsAt, Predecessor, MayPrecede;
    assert ChainBefore(cfg.stitch, accs, [1, 2, 3], Toucher(cfg, n), 2) == [];
  }

  lemma ThirdLiesInOutput(cfg: RuntimeConfig, n: nat)
    requires Lead(cfg) < n <= Length(cfg)
    ensures 3 in AccsAt(cfg, n) && AccsAt(cfg, n)[3].outputFrames >= 1 && AccsAt(cfg, n)[3].sourceFrames == 0
  {
    hide Place;
  }

  // ----- what the gate decides -----

  // A part that stayed in the source is not allowed.
  lemma SourceIsNotAllowed(cfg: RuntimeConfig, r: Runtime, n: nat, id: int)
    requires Accumulated(cfg, r, n) && 1 <= n <= Length(cfg) && id in {1, 2}
    ensures id in r.accs && !Allows(Evidence(cfg, r, id))
  {
    hide Place, ChainBefore, LongestStepSq;
    assert r.accs[id].outputFrames == 0 && r.accs[id].zonesSeen == [Source];
    var ids := Fragments(cfg, r, id);
    assert ids == [id];
    assert seq(|ids|, k requires 0 <= k < |ids| => AccOf(r, ids[k])) == [r.accs[id]];
  }

  lemma {:induction false} SpreadReaches(from: Point, centers: seq<Point>, k: nat)
    requires k < |centers|
    ensures Spread(from, centers) >= DistanceSq(from, centers[k])
  {
    hide DistanceSq;
    if k < |centers| - 1 {
      SpreadReaches(from, centers[..|centers| - 1], k);
    }
  }

  lemma {:induction false} LongestStepReaches(centers: seq<Point>, k: nat)
    requires 1 <= k < |centers|
    ensures LongestStepSq(centers) >= DistanceSq(centers[k - 1], centers[k])
  {
    hide DistanceSq;
    if k < |centers| - 1 {
      LongestStepReaches(centers[..|centers| - 1], k);
    }
  }

  // A part in the source followed by one in the output is allowed as one object.
  lemma CarriedIsAllowed(cfg: RuntimeConfig, a: Accumulator, b: Accumulator, id: int, m: nat, n: nat,
                         f: int, l: int, f': int, l': int)
    requires Standard(cfg) && id in {1, 2} && m >= 1 && n >= 1
    requires a == Stay(cfg, id, m, f, l) && b == Stay(cfg, 3, n, f', l')
    ensures Allows(Merge(a, b))
  {
    PlacesFarForGate(cfg, id, 3);
    hide Place, Spread, LongestStepSq, DistanceSq, IncludingAll;
    var centers := a.centers + b.centers;
    SpreadReaches(centers[0], centers, m);
    LongestStepReaches(centers, m);
    assert centers[0] == Place(cfg, id) && centers[m - 1] == Place(cfg, id) && centers[m] == Place(cfg, 3);
  }

  lemma ThirdIsAllowed(cfg: RuntimeConfig, r: Runtime, n: nat)
    requires Standard(cfg) && Accumulated(cfg, r, n) && Lead(cfg) < n <= Length(cfg)
    ensures 3 in r.accs && Allows(Evidence(cfg, r, 3))
  {
    ChainOfThird(cfg, n);
    hide PredecessorChain, Merge, Allows, Stay;
    var p := Toucher(cfg, n);
    var ids := Fragments(cfg, r, 3);
    assert ids == [p, 3];
    var a, b := r.accs[p], r.accs[3];
    var parts := seq(|ids|, k requires 0 <= k < |ids| => AccOf(r, ids[k]));
    assert parts == [a, b];
    assert parts[..1] == [a];
    assert MergeAll(parts) == Merge(a, b);
    var lead := Lead(cfg);
    var last := if n < Length(cfg) then lead else Length(cfg) - 1;
    CarriedIsAllowed(cfg, a, b, p, lead, if n < Length(cfg) then 1 else 2, 0, lead - 1, lead, last);
  }

  lemma GateDecides(cfg: RuntimeConfig, r: Runtime, n: nat)
    requires Standard(cfg) && Accumulated(cfg, r, n) && 1 <= n <= Length(cfg)
    ensures Decisions(cfg, r) == AllowedAt(cfg, n - 1)
  {
    hide Allows, Evidence, Stay;
    SourceIsNotAllowed(cfg, r, n, 1);
    SourceIsNotAllowed(cfg, r, n, 2);
    if n > Lead(cfg) {
      ThirdIsAllowed(cfg, r, n);
    }
    assert forall id :: id in r.accs ==> id in {1, 2, 3};
  }

  // ----- the tracker -----

  // What the tracker holds after the first n frames; the third part stays tracked
  // while it is out of sight.
  ghost predicate TrackerAt(cfg: RuntimeConfig, t: T.Tracker, n: nat) {
    var lead := Lead(cfg);
    if n == 0 then t == T.INITIAL
    else if n <= lead then
      OnSpots(cfg, t) && t.nextId == 3 && Known(t, [1, 2]) && t.tracks[1].missing == 0 && t.tracks[2].missing == 0
    else if n == lead + 1 then
      OnSpots(cfg, t) && Known(t, [2, 3]) && t.tracks[3].missing == 0
    else
      OnSpots(cfg, t) && 3 in t.tracks && (n < Length(cfg) ==> t.tracks[3].missing == n - lead - 1)
  }

  lemma TrackerFollows(cfg: RuntimeConfig, t: T.Tracker, n: nat)
    requires Standard(cfg) && TrackerAt(cfg, t, n) && n < Length(cfg)
    ensures var (t', found) := T.NextFrame(cfg.tracker, t, Parts(cfg, Visible(cfg, n)));
      found == Sighted(cfg, Visible(cfg, n)) && TrackerAt(cfg, t', n + 1)
  {
    hide T.NextFrame, T.TrackerOk, Sighted, Parts, Place;
    var ids := Visible(cfg, n);
    VisibleAscends(cfg, n);
    if n == 0 {
      FirstParts(cfg);
    } else {
      NumberIsFree(cfg, t);
      TrackerSeesParts(cfg, t, ids);
    }
  }

  lemma NumberIsFree(cfg: RuntimeConfig, t: T.Tracker)
    requires OnSpots(cfg, t)
    ensures t.nextId !in t.tracks
  {
  }

  // ----- one frame of the runtime -----

  // The chain that the frame of index i commits.
  function ChainsAt(cfg: RuntimeConfig, i: nat): seq<Chain> {
    if i == Lead(cfg) || i + 1 == Length(cfg) then [Chain(Toucher(cfg, i + 1), 3, Spot(cfg, 3))] else []
  }

  function Seen(cfg: RuntimeConfig, i: nat): seq<Detection> {
    ToDetections(Sighted(cfg, Visible(cfg, i)))
  }

  lemma ChainsFollow(cfg: RuntimeConfig, r: Runtime, i: nat)
    requires Standard(cfg) && i < Length(cfg) && Accumulated(cfg, r.(frame := i + 1), i + 1)
    ensures Chains(cfg, r, Sighted(cfg, Visible(cfg, i)), AllowedAt(cfg, i), r.accOrder) == ChainsAt(cfg, i)
  {
    var found := Sighted(cfg, Visible(cfg, i));
    if i < Lead(cfg) {
      hide Part, Spot;
      OnlyThirdAllowed(cfg, r, found, [1, 2], {});
    } else {
      ChainOfThird(cfg, i + 1);
      SightedFew(cfg, i);
      PartBox(cfg, 3);
      hide PredecessorChain, AccsAt, Spot, Part, Stay;
      assert r.accs == AccsAt(cfg, i + 1);
      BoxOfFew(found, 3);
      assert [1, 2, 3][..2] == [1, 2];
      OnlyThirdAllowed(cfg, r, found, [1, 2], {3});
      hide Sighted;
      assert Chains(cfg, r, found, {3}, [1, 2]) == [];
    }
  }

  lemma {:induction false} OnlyThirdAllowed(cfg: RuntimeConfig, r: Runtime, found: seq<T.Sighting>, ids: seq<int>,
                                            allowed: set<int>)
    requires 3 !in ids && allowed <= {3}
    ensures Chains(cfg, r, found, allowed, ids) == []
  {
    if ids != [] {
      OnlyThirdAllowed(cfg, r, found, ids[..|ids| - 1], allowed);
    }
  }

  lemma BoxOfFew(found: seq<T.Sighting>, id: int)
    requires |found| <= 1
    ensures BoxOf(found, id) == if |found| == 1 && found[0].trackId == id then Some(found[0].raw.box) else None
  {
    assert BoxOf([], id) == None;
    if |found| == 1 {
      assert found[..0] == [];
    }
  }

  // Everything but the counter after the first n frames.
  ghost predicate SceneAt(cfg: RuntimeConfig, r: Runtime, n: nat) {
    Accumulated(cfg, r, n) && TrackerAt(cfg, r.tracker, n)
  }

  lemma FrameFollows(cfg: RuntimeConfig, r: Runtime, i: nat)
    requires Standard(cfg) && i < Length(cfg) && SceneAt(cfg, r, i)
    ensures var r' := ProcessFrame(cfg, r, Parts(cfg, Visible(cfg, i)), AllowedAt(cfg, i));
      && SceneAt(cfg, r', i + 1)
      && r'.machine
         == CommitAll(cfg, Update(cfg.count, r.machine, Seen(cfg, i), Some(AllowedAt(cfg, i))), ChainsAt(cfg, i))
  {
    hide T.NextFrame, Update, CommitAll, Chains, Accumulate, TrackerAt, AccsAt, OrderAt, ChainsAt, ToDetections,
      Sighted, Visible;
    TrackerFollows(cfg, r.tracker, i);
    var (t, found) := T.NextFrame(cfg.tracker, r.tracker, Parts(cfg, Visible(cfg, i)));
    AccumulatorsFollow(cfg, r.(tracker := t), i);
    var r1 := Accumulate(r.(tracker := t), found);
    ChainsFollow(cfg, r1, i);
    ApprovedAt(cfg, r1, i);
  }

  lemma ApprovedAt(cfg: RuntimeConfig, r: Runtime, i: nat)
    requires i < Length(cfg) && Accumulated(cfg, r.(frame := i + 1), i + 1)
    ensures Approved(r, AllowedAt(cfg, i)) == AllowedAt(cfg, i)
  {
    hide Stay;
  }

  // ----- the whole run -----

  lemma {:induction false} SceneFollows(cfg: RuntimeConfig, n: nat)
    requires Standard(cfg) && n <= Length(cfg)
    ensures SceneAt(cfg, Frames(cfg, Script(cfg)[..n]), n)
  {
    hide ProcessFrame, Visible, AllowedAt, SceneAt;
    if n == 0 {
      StartOfScene(cfg);
    } else {
      SceneFollows(cfg, n - 1);
      FramesOfScript(cfg, n);
      FrameFollows(cfg, Frames(cfg, Script(cfg)[..n - 1]), n - 1);
    }
  }

  lemma StartOfScene(cfg: RuntimeConfig)
    ensures SceneAt(cfg, Frames(cfg, []), 0)
  {
  }

  lemma FramesOfScript(cfg: RuntimeConfig, n: nat)
    requires 0 < n <= Length(cfg)
    ensures Frames(cfg, Script(cfg)[..n])
            == ProcessFrame(cfg, Frames(cfg, Script(cfg)[..n - 1]), Parts(cfg, Visible(cfg, n - 1)), AllowedAt(cfg, n - 1))
  {
    hide ProcessFrame, Visible, AllowedAt;
    var inputs := Script(cfg)[..n];
    assert inputs[..n - 1] == Script(cfg)[..n - 1];
  }

  lemma ScriptIsRealizable(cfg: RuntimeConfig)
    requires Standard(cfg)
    ensures Realizable(cfg, Script(cfg))
  {
    ScriptIsFixedScene(cfg);
    hide FixedScene, Decisions, Visible, Frames;
    forall n | 0 <= n < |Script(cfg)|
      ensures Script(cfg)[n].allowed == Decisions(cfg, Frames(cfg, Script(cfg)[..n + 1]))
    {
      SceneFollows(cfg, n + 1);
      GateDecides(cfg, Frames(cfg, Script(cfg)[..n + 1]), n + 1);
    }
  }
}
