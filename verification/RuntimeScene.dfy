// A run in which one tracker id is counted twice: two parts lie in the source,
// one is carried to the output, the other is touched, and after a while the
// first one is seen again.  This file follows the tracker, the accumulators and
// the gate through that run; RuntimeRecount follows the counter.
module RuntimeScene {
  import opened Prelude
  import opened Geometry
  import opened RuntimeModel
  import opened GateStitching
  import T = BoxTracker
  import Sorting

  // What the run needs of the settings.
  predicate Standard(cfg: RuntimeConfig) {
    && cfg.tracker.maxMatchDistance == cfg.stitch.matchDistance >= 0.0
    && cfg.stitch.sourceMinFrames == cfg.count.sourceMinFrames
    && MaxGap(cfg.stitch) >= 1
    && 0 <= cfg.count.maxMissing < cfg.tracker.maxMissing
    && cfg.count.dedupeWindow < cfg.count.maxMissing + 2
  }

  // ----- three places on a line, too far apart for the tracker -----

  function Pace(cfg: RuntimeConfig): real {
    cfg.stitch.matchDistance + 30.0
  }

  // Ids 1 and 2 lie in the source, id 3 in the output.
  function Spot(cfg: RuntimeConfig, id: int): Box {
    Box(if id == 1 then 0.0 else if id == 2 then Pace(cfg) else 2.0 * Pace(cfg), 0.0, 1.0, 1.0)
  }

  function Place(cfg: RuntimeConfig, id: int): Point {
    Center(Spot(cfg, id))
  }

  function Part(cfg: RuntimeConfig, id: int): T.RawDetection {
    if id == 3 then T.RawDetection(Spot(cfg, id), 0.0, 1.0, 0.0, false, true, 0.0, 1.0, 0.0)
    else T.RawDetection(Spot(cfg, id), 1.0, 0.0, 0.0, true, false, 0.0, 1.0, 0.0)
  }

  predicate IsPart(id: int) {
    1 <= id <= 3
  }

  lemma SquareGrows(a: real, b: real)
    requires 0.0 <= a < b
    ensures a * a < b * b
  {
    SquareOfSum(a, b - a);
  }

  lemma SquareOfSum(a: real, d: real)
    requires a >= 0.0 && d > 0.0
    ensures a * a < (a + d) * (a + d)
  {
    assert (a + d) * (a + d) == a * a + 2.0 * (a * d) + d * d;
    Product(a, d);
    Product(d, d);
  }

  lemma Product(a: real, b: real)
    requires a >= 0.0 && b >= 0.0
    ensures a * b >= 0.0 && (a > 0.0 && b > 0.0 ==> a * b > 0.0)
  {
  }

  lemma SquareGrowsWeakly(a: real, b: real)
    requires 0.0 <= a <= b
    ensures a * a <= b * b
  {
  }

  // The distance between two places, squared.
  lemma Apart(cfg: RuntimeConfig, a: int, b: int)
    requires IsPart(a) && IsPart(b)
    ensures var s := Pace(cfg) * Pace(cfg);
      DistanceSq(Place(cfg, a), Place(cfg, b)) == if a == b then 0.0 else if a + b == 4 then 4.0 * s else s
  {
    var p := Pace(cfg);
    assert (2.0 * p) * (2.0 * p) == 4.0 * (p * p);
  }

  lemma OnlyItsPlaceInReach(cfg: RuntimeConfig, a: int, b: int)
    requires Standard(cfg) && IsPart(a) && IsPart(b)
    ensures Within(Place(cfg, a), Place(cfg, b), cfg.tracker.maxMatchDistance) <==> a == b
  {
    Apart(cfg, a, b);
    SquareGrows(cfg.tracker.maxMatchDistance, Pace(cfg));
    SquareGrowsWeakly(0.0, cfg.tracker.maxMatchDistance);
    hide DistanceSq, Place;
  }

  lemma PlacesInLink(cfg: RuntimeConfig, a: int, b: int)
    requires Standard(cfg) && IsPart(a) && IsPart(b)
    ensures Within(Place(cfg, a), Place(cfg, b), MaxLink(cfg.stitch))
  {
    var p, link := Pace(cfg), MaxLink(cfg.stitch);
    Apart(cfg, a, b);
    assert 0.0 <= 2.0 * p <= link;
    SquareGrowsWeakly(2.0 * p, link);
    SquareGrowsWeakly(0.0, p);
    hide DistanceSq, Place;
  }

  lemma PlacesFarForGate(cfg: RuntimeConfig, a: int, b: int)
    requires Standard(cfg) && IsPart(a) && IsPart(b) && a != b
    ensures DistanceSq(Place(cfg, a), Place(cfg, b)) >= 30.0 * 30.0
  {
    Apart(cfg, a, b);
    SquareGrowsWeakly(30.0, Pace(cfg));
    hide DistanceSq, Place;
  }

  // ----- what the tracker makes of parts it knows -----

  function Parts(cfg: RuntimeConfig, ids: seq<int>): seq<T.RawDetection> {
    seq(|ids|, k requires 0 <= k < |ids| => Part(cfg, ids[k]))
  }

  function Sighted(cfg: RuntimeConfig, ids: seq<int>): seq<T.Sighting> {
    seq(|ids|, k requires 0 <= k < |ids| => T.Sighting(ids[k], k, Part(cfg, ids[k])))
  }

  ghost predicate Ascending(ids: seq<int>) {
    && (forall k :: 0 <= k < |ids| ==> IsPart(ids[k]))
    && (forall j, k :: 0 <= j < k < |ids| ==> ids[j] < ids[k])
  }

  // Every track is a part in its place.
  ghost predicate OnSpots(cfg: RuntimeConfig, t: T.Tracker) {
    T.TrackerOk(t) && forall id :: id in t.tracks ==> IsPart(id) && t.tracks[id].center == Place(cfg, id)
  }

  lemma {:induction false} AtLeastItsPlace(e: seq<nat>, k: nat)
    requires k < |e| && forall i, j :: 0 <= i < j < |e| ==> e[i] < e[j]
    ensures e[k] >= k
  {
    if k > 0 {
      AtLeastItsPlace(e, k - 1);
    }
  }

  // Numbers that ascend and include all below n count up to it.
  lemma {:induction false} CountingUp(e: seq<nat>, n: nat)
    requires forall i, j :: 0 <= i < j < |e| ==> e[i] < e[j]
    requires forall v: nat :: v < n ==> v in e
    ensures |e| >= n && forall k :: 0 <= k < n ==> e[k] == k
  {
    if n > 0 {
      CountingUp(e, n - 1);
      assert n - 1 in e;
      var k: nat :| k < |e| && e[k] == n - 1;
      AtLeastItsPlace(e, k);
    }
  }

  lemma NoMoreSightingsThanBoxes(ds: seq<T.RawDetection>, found: seq<T.Sighting>)
    requires T.OneToOne(ds, found)
    ensures |found| <= |ds|
  {
    var e: seq<int> := seq(|found|, k requires 0 <= k < |found| => found[k].index);
    DistinctLength(e);
    RangeSize(Elements(e), 0, |ds|);
  }

  // Sightings in id order, each of the part its box shows, are the parts in order.
  lemma SightingsInOrder(cfg: RuntimeConfig, ids: seq<int>, found: seq<T.Sighting>)
    requires Ascending(ids) && Sorting.Ordered(T.ById, found) && T.OneToOne(Parts(cfg, ids), found)
    requires forall i: nat :: i < |ids| ==> T.FoundIndex(found, i)
    requires forall x :: x in found ==> x.index < |ids| && x.trackId == ids[x.index]
    ensures found == Sighted(cfg, ids)
  {
    hide Part;
    var e: seq<nat> := seq(|found|, k requires 0 <= k < |found| => found[k].index);
    assert forall k :: 0 <= k < |found| ==> found[k] in found;
    forall j, k | 0 <= j < k < |e|
      ensures e[j] < e[k]
    {
      assert T.ById(found[j], found[k]) && found[j].trackId != found[k].trackId;
    }
    forall v: nat | v < |ids|
      ensures v in e
    {
      assert T.FoundIndex(found, v);
      var k :| 0 <= k < |found| && found[k].index == v;
      assert e[k] == v;
    }
    NoMoreSightingsThanBoxes(Parts(cfg, ids), found);
    CountingUp(e, |ids|);
    forall k | 0 <= k < |ids|
      ensures found[k] == Sighted(cfg, ids)[k]
    {
      assert e[k] == k;
    }
  }

  // An old track that is seen is the part that the box shows.
  lemma OldTracksKeepTheirPart(cfg: RuntimeConfig, t: T.Tracker, ids: seq<int>, s: T.Matching, olds: nat, k: nat)
    requires Standard(cfg) && OnSpots(cfg, t) && Ascending(ids) && k < olds
    requires T.Reached(cfg.tracker, t, s, Parts(cfg, ids), olds) && T.OneToOne(Parts(cfg, ids), s.found)
    ensures s.found[k].index < |ids| && s.found[k].trackId == ids[s.found[k].index]
  {
    hide T.TrackerOk, T.FoundIndex, T.Found, Within, Part;
    var x := s.found[k];
    assert x.raw == Part(cfg, ids[x.index]);
    PartBox(cfg, ids[x.index]);
    OnlyItsPlaceInReach(cfg, x.trackId, ids[x.index]);
  }

  lemma PartBox(cfg: RuntimeConfig, id: int)
    ensures Part(cfg, id).box == Spot(cfg, id)
  {
  }

  // A part that has a track is never taken for a new one.
  lemma KnownPartsAreNotNew(cfg: RuntimeConfig, t: T.Tracker, ids: seq<int>, s: T.Matching, olds: nat, k: nat)
    requires Standard(cfg) && OnSpots(cfg, t) && Ascending(ids)
    requires T.Reached(cfg.tracker, t, s, Parts(cfg, ids), olds) && T.OneToOne(Parts(cfg, ids), s.found)
    requires olds <= k < |s.found|
    ensures s.found[k].index < |ids| && ids[s.found[k].index] !in t.tracks
  {
    hide Within, Part;
    var i := s.found[k].index;
    var id := ids[i];
    if id in t.tracks {
      PartBox(cfg, id);
      OnlyItsPlaceInReach(cfg, id, id);
      NotOutOfReach(cfg, t, s, Parts(cfg, ids), olds, id, i);
      if T.FoundIndex(s.found[..olds], i) {
        IndexOnce(Parts(cfg, ids), s.found, olds, k);
      } else {
        assert T.Found(s.found, id);
        var j :| 0 <= j < |s.found| && s.found[j].trackId == id;
        KnownOnce(cfg, t, ids, s, olds, j, k);
      }
    }
  }

  lemma NotOutOfReach(cfg: RuntimeConfig, t: T.Tracker, s: T.Matching, ds: seq<T.RawDetection>, olds: nat, id: int,
                      i: nat)
    requires T.Reached(cfg.tracker, t, s, ds, olds) && i < |ds| && T.InReach(cfg.tracker, t, id, ds[i])
    ensures T.Found(s.found, id) || T.FoundIndex(s.found[..olds], i)
  {
    hide T.TookNearest, Within, T.Found, T.FoundIndex;
  }

  lemma IndexOnce(ds: seq<T.RawDetection>, found: seq<T.Sighting>, olds: nat, k: nat)
    requires T.OneToOne(ds, found) && olds <= k < |found|
    ensures !T.FoundIndex(found[..olds], found[k].index)
  {
  }

  lemma KnownOnce(cfg: RuntimeConfig, t: T.Tracker, ids: seq<int>, s: T.Matching, olds: nat, j: nat, k: nat)
    requires Standard(cfg) && OnSpots(cfg, t) && Ascending(ids)
    requires T.Reached(cfg.tracker, t, s, Parts(cfg, ids), olds) && T.OneToOne(Parts(cfg, ids), s.found)
    requires olds <= k < |s.found| && j < |s.found|
    ensures s.found[k].index < |ids|
    ensures s.found[j].trackId in t.tracks ==> s.found[j].trackId != ids[s.found[k].index]
  {
    hide Within, Part, T.FoundIndex, T.Found;
    if j < olds {
      OldTracksKeepTheirPart(cfg, t, ids, s, olds, j);
    }
  }

  // What the tracker knows after a frame that showed the parts in ids.
  ghost predicate Tracked(cfg: RuntimeConfig, t: T.Tracker, t': T.Tracker, ids: seq<int>) {
    && OnSpots(cfg, t')
    && (forall id :: id in ids ==> id in t'.tracks && t'.tracks[id].missing == 0)
    && (forall id :: id in t.tracks && id !in ids && t.tracks[id].missing + 1 <= cfg.tracker.maxMissing ==>
          id in t'.tracks && t'.tracks[id].missing == t.tracks[id].missing + 1)
  }

  // Known parts, or one new part, are each sighted as themselves.
  lemma SightedAsThemselves(cfg: RuntimeConfig, t: T.Tracker, ids: seq<int>, s: T.Matching, olds: nat, x: T.Sighting)
    requires Standard(cfg) && OnSpots(cfg, t) && Ascending(ids)
    requires T.Reached(cfg.tracker, t, s, Parts(cfg, ids), olds) && T.OneToOne(Parts(cfg, ids), s.found)
    requires (forall id :: id in ids ==> id in t.tracks) || (ids == [t.nextId] && t.nextId !in t.tracks)
    requires x in s.found
    ensures x.index < |ids| && x.trackId == ids[x.index] && x.raw == Part(cfg, x.trackId)
  {
    hide T.TrackerOk, Within, Part, T.FoundIndex, T.Found, T.TookNearest, OnSpots;
    var k := MemberAt(s.found, x);
    if k < olds {
      OldTracksKeepTheirPart(cfg, t, ids, s, olds, k);
    } else {
      KnownPartsAreNotNew(cfg, t, ids, s, olds, k);
      OnlyOneNew(cfg, t, ids, s, olds, k);
    }
  }

  // A single new part gets the next number.
  lemma OnlyOneNew(cfg: RuntimeConfig, t: T.Tracker, ids: seq<int>, s: T.Matching, olds: nat, k: nat)
    requires T.Reached(cfg.tracker, t, s, Parts(cfg, ids), olds) && T.OneToOne(Parts(cfg, ids), s.found)
    requires olds <= k < |s.found| && s.found[k].index < |ids| && ids[s.found[k].index] !in t.tracks
    requires (forall id :: id in ids ==> id in t.tracks) || ids == [t.nextId]
    ensures s.found[k].trackId == ids[s.found[k].index]
  {
    hide Within, Part, T.FoundIndex, T.Found, T.TookNearest;
    var i := s.found[k].index;
    assert ids[i] in ids;
    NoMoreSightingsThanBoxes(Parts(cfg, ids), s.found);
  }

  predicate Known(t: T.Tracker, ids: seq<int>) {
    forall id :: id in ids ==> id in t.tracks
  }

  // What is known of the tracker's next frame before the sightings are sorted.
  ghost predicate Matches(cfg: RuntimeConfig, t: T.Tracker, ids: seq<int>, s: T.Matching, olds: nat) {
    && T.Reached(cfg.tracker, t, s, Parts(cfg, ids), olds)
    && T.OneToOne(Parts(cfg, ids), s.found)
  }

  lemma NextFrameMatches(cfg: RuntimeConfig, t: T.Tracker, ids: seq<int>) returns (s: T.Matching, olds: nat)
    requires T.TrackerOk(t)
    ensures var (t', found) := T.NextFrame(cfg.tracker, t, Parts(cfg, ids));
      && Matches(cfg, t, ids, s, olds) && t' == s.tracker && found == Sorting.Sort(T.ById, s.found)
      && T.Answered(cfg.tracker, t, t', Parts(cfg, ids), found)
  {
    var ds := Parts(cfg, ids);
    s := T.Matched(cfg.tracker, t, ds);
    var (t', found) := T.NextFrame(cfg.tracker, t, ds);
    T.NextFrameAnswers(cfg.tracker, t, ds);
    T.NextFrameReaches(cfg.tracker, t, ds);
    hide T.Matched, T.Reached, T.FoundIndex, T.Found, T.OneToOne, Sorting.Sort, Parts;
    olds :| T.Reached(cfg.tracker, t, s, ds, olds);
    Sorting.SortPermutes(T.ById, s.found);
    T.PermutedOneToOne(ds, found, s.found);
  }

  lemma SightingsAreParts(cfg: RuntimeConfig, t: T.Tracker, ids: seq<int>, s: T.Matching, olds: nat,
                          found: seq<T.Sighting>)
    requires Standard(cfg) && OnSpots(cfg, t) && Ascending(ids)
    requires Known(t, ids) || (ids == [t.nextId] && t.nextId !in t.tracks)
    requires Matches(cfg, t, ids, s, olds) && found == Sorting.Sort(T.ById, s.found)
    requires T.OneToOne(Parts(cfg, ids), found)
    requires forall i: nat :: i < |Parts(cfg, ids)| ==> T.FoundIndex(found, i)
    ensures found == Sighted(cfg, ids)
  {
    Sorting.SortOrders(T.ById, s.found);
    Sorting.SortMembers(T.ById, s.found);
    hide T.Reached, Sorting.Sort, Parts, OnSpots, T.FoundIndex, T.Found, T.OneToOne, Ascending, Part, Sorting.Ordered;
    forall x | x in found
      ensures x.index < |ids| && x.trackId == ids[x.index]
    {
      SightedAsThemselves(cfg, t, ids, s, olds, x);
    }
    PartsLength(cfg, ids);
    SightingsInOrder(cfg, ids, found);
  }

  lemma PartsLength(cfg: RuntimeConfig, ids: seq<int>)
    ensures |Parts(cfg, ids)| == |ids|
  {
  }

  lemma SightedFinds(cfg: RuntimeConfig, ids: seq<int>, id: int)
    ensures T.Found(Sighted(cfg, ids), id) <==> id in ids
  {
    hide Part;
    if id in ids {
      var k :| 0 <= k < |ids| && ids[k] == id;
      assert Sighted(cfg, ids)[k].trackId == id;
    }
    if T.Found(Sighted(cfg, ids), id) {
      var k :| 0 <= k < |Sighted(cfg, ids)| && Sighted(cfg, ids)[k].trackId == id;
      assert ids[k] == id;
    }
  }

  lemma SortedFinds(found: seq<T.Sighting>, id: int)
    ensures T.Found(Sorting.Sort(T.ById, found), id) <==> T.Found(found, id)
  {
    Sorting.SortMembers(T.ById, found);
    hide Sorting.Sort;
    var sorted := Sorting.Sort(T.ById, found);
    if T.Found(found, id) {
      var k :| 0 <= k < |found| && found[k].trackId == id;
      assert found[k] in sorted;
    }
    if T.Found(sorted, id) {
      var k :| 0 <= k < |sorted| && sorted[k].trackId == id;
      assert sorted[k] in found;
    }
  }

  // Where a track of the next frame is.
  lemma TrackStaysInPlace(cfg: RuntimeConfig, t: T.Tracker, ids: seq<int>, s: T.Matching, olds: nat, id: int)
    requires Standard(cfg) && OnSpots(cfg, t) && Ascending(ids) && id in s.tracker.tracks
    requires T.Reached(cfg.tracker, t, s, Parts(cfg, ids), olds) && T.OneToOne(Parts(cfg, ids), s.found)
    requires Known(t, ids) || (ids == [t.nextId] && t.nextId !in t.tracks)
    ensures IsPart(id) && s.tracker.tracks[id].center == Place(cfg, id)
  {
    hide Within, Part, T.FoundIndex, T.TookNearest, T.TrackerOk;
    if T.Found(s.found, id) {
      var k :| 0 <= k < |s.found| && s.found[k].trackId == id;
      hide T.Found;
      SightedAsThemselves(cfg, t, ids, s, olds, s.found[k]);
      PartBox(cfg, id);
      assert ids[s.found[k].index] == id;
    }
  }

  lemma TrackerSeesParts(cfg: RuntimeConfig, t: T.Tracker, ids: seq<int>)
    requires Standard(cfg) && OnSpots(cfg, t) && Ascending(ids)
    requires Known(t, ids) || (ids == [t.nextId] && t.nextId !in t.tracks)
    ensures var (t', found) := T.NextFrame(cfg.tracker, t, Parts(cfg, ids));
      && found == Sighted(cfg, ids) && Tracked(cfg, t, t', ids)
      && (Known(t, ids) ==> t'.nextId == t.nextId)
  {
    hide T.NextFrame, T.Reached, T.FoundIndex, T.Found, T.OneToOne, Parts, Ascending, Sorting.Sort, T.TrackerOk,
      Sighted, Part;
    assert T.TrackerOk(t);
    var s, olds := NextFrameMatches(cfg, t, ids);
    var (t', found) := T.NextFrame(cfg.tracker, t, Parts(cfg, ids));
    SightingsAreParts(cfg, t, ids, s, olds, found);
    forall id
      ensures T.Found(found, id) <==> id in ids
      ensures T.Found(s.found, id) <==> id in ids
    {
      SightedFinds(cfg, ids, id);
      SortedFinds(s.found, id);
    }
    forall id | id in t'.tracks
      ensures IsPart(id) && t'.tracks[id].center == Place(cfg, id)
    {
      TrackStaysInPlace(cfg, t, ids, s, olds, id);
    }
    TracksWait(cfg, t, ids, s, olds);
    if Known(t, ids) {
      NoNewNumber(cfg, t, ids, s, olds);
    }
  }

  lemma TracksWait(cfg: RuntimeConfig, t: T.Tracker, ids: seq<int>, s: T.Matching, olds: nat)
    requires Matches(cfg, t, ids, s, olds)
    ensures forall id :: id in t.tracks && !T.Found(s.found, id) && t.tracks[id].missing + 1 <= cfg.tracker.maxMissing ==>
      id in s.tracker.tracks
  {
    hide T.TookNearest, T.Found, T.FoundIndex, Part;
  }

  // As long as only known parts are shown no number is given away.
  lemma NoNewNumber(cfg: RuntimeConfig, t: T.Tracker, ids: seq<int>, s: T.Matching, olds: nat)
    requires Standard(cfg) && OnSpots(cfg, t) && Ascending(ids) && Known(t, ids)
    requires Matches(cfg, t, ids, s, olds)
    ensures s.tracker.nextId == t.nextId
  {
    hide T.TookNearest, T.Found, T.FoundIndex, Part, T.OneToOne;
    if olds < |s.found| {
      KnownPartsAreNotNew(cfg, t, ids, s, olds, olds);
    }
  }

  lemma TwoSightingsSorted(cfg: RuntimeConfig)
    ensures Sorting.Sort(T.ById, Sighted(cfg, [1, 2])) == Sighted(cfg, [1, 2])
  {
    hide Part;
    Sorting.SortOfOrdered(T.ById, Sighted(cfg, [1, 2]));
  }

  // The first two parts become tracks 1 and 2.
  lemma FirstParts(cfg: RuntimeConfig)
    ensures var (t, found) := T.NextFrame(cfg.tracker, T.INITIAL, Parts(cfg, [1, 2]));
      && found == Sighted(cfg, [1, 2]) && OnSpots(cfg, t) && t.nextId == 3
      && Known(t, [1, 2]) && t.tracks[1].missing == 0 && t.tracks[2].missing == 0
  {
    TwoSightingsSorted(cfg);
    PartBox(cfg, 1);
    PartBox(cfg, 2);
    hide Sorting.Sort, Part, Spot, Center, T.Nearest;
    var ds := Parts(cfg, [1, 2]);
    var start := T.Matching(T.INITIAL, {}, []);
    assert T.AssociateAll(cfg.tracker, start, ds, []) == start;
    hide T.AssociateAll;
    assert T.SpawnAll(start, ds, 0) == start;
    var first := T.Matching(T.Tracker(2, [1], map[1 := T.SimpleTrack(Place(cfg, 1), Spot(cfg, 1), 0)]), {},
                            [T.Sighting(1, 0, Part(cfg, 1))]);
    assert T.SpawnAll(start, ds, 1) == first;
    var both := T.Matching(T.Tracker(3, [1, 2], first.tracker.tracks[2 := T.SimpleTrack(Place(cfg, 2), Spot(cfg, 2), 0)]),
                           {}, first.found + [T.Sighting(2, 1, Part(cfg, 2))]);
    assert T.SpawnAll(start, ds, 2) == both;
    assert both.found == Sighted(cfg, [1, 2]);
  }
}
