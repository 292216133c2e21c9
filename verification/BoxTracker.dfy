// SimpleBoxTracker of app/services/runtime_event_counter.py: nearest-center
// association in track order, ageing, fresh ids for the rest.
module BoxTracker {
  import opened Prelude
  import opened Geometry
  import Sorting

  // A detector box with its zone overlaps and person overlaps.
  datatype RawDetection = RawDetection(
    box: Box,
    sourceOverlap: real,
    outputOverlap: real,
    ignoreOverlap: real,
    centerInSource: bool,
    centerInOutput: bool,
    personOverlap: real,
    outsidePerson: real,
    staticOverlap: real)

  // The tracker's answer for one box: its place in the frame and its track id.
  datatype Sighting = Sighting(trackId: int, index: nat, raw: RawDetection)

  datatype SimpleTrack = SimpleTrack(center: Point, bbox: Box, missing: int)

  datatype Tracker = Tracker(nextId: int, order: seq<int>, tracks: map<int, SimpleTrack>)

  const INITIAL := Tracker(1, [], map[])

  datatype Settings = Settings(maxMatchDistance: real, maxMissing: int)

  datatype Matching = Matching(tracker: Tracker, taken: set<nat>, found: seq<Sighting>)

  predicate WellSized(d: RawDetection) {
    d.box.w > 0.0 && d.box.h > 0.0
  }

  // The free detection nearest to center among the first n, the first on a tie.
  function Nearest(center: Point, ds: seq<RawDetection>, taken: set<nat>, n: nat): (r: Option<nat>)
    requires n <= |ds|
    ensures r.Some? ==> r.value < n && r.value !in taken
  {
    if n == 0 then None
    else
      var best := Nearest(center, ds, taken, n - 1);
      if n - 1 !in taken
         && (best.None?
             || DistanceSq(center, Center(ds[n - 1].box)) < DistanceSq(center, Center(ds[best.value].box)))
      then Some(n - 1)
      else best
  }

  function Associate(cfg: Settings, s: Matching, ds: seq<RawDetection>, id: int): Matching
    requires id in s.tracker.tracks
  {
    var track := s.tracker.tracks[id];
    var best := Nearest(track.center, ds, s.taken, |ds|);
    if best.Some? && Within(track.center, Center(ds[best.value].box), cfg.maxMatchDistance) then
      var d := ds[best.value];
      Matching(s.tracker.(tracks := s.tracker.tracks[id := SimpleTrack(Center(d.box), d.box, 0)]),
               s.taken + {best.value},
               s.found + [Sighting(id, best.value, d)])
    else if track.missing + 1 > cfg.maxMissing then
      s.(tracker := s.tracker.(tracks := s.tracker.tracks - {id}, order := Without(s.tracker.order, id)))
    else
      s.(tracker := s.tracker.(tracks := s.tracker.tracks[id := track.(missing := track.missing + 1)]))
  }

  function AssociateAll(cfg: Settings, s: Matching, ds: seq<RawDetection>, ids: seq<int>): Matching {
    if ids == [] then s
    else
      var s1 := AssociateAll(cfg, s, ds, ids[..|ids| - 1]);
      var id := ids[|ids| - 1];
      if id in s1.tracker.tracks then Associate(cfg, s1, ds, id) else s1
  }

  // New tracks for those of the first n detections that are still free.
  function SpawnAll(s: Matching, ds: seq<RawDetection>, n: nat): Matching
    requires n <= |ds|
  {
    if n == 0 then s
    else
      var s1 := SpawnAll(s, ds, n - 1);
      if n - 1 in s.taken then s1
      else
        var d := ds[n - 1];
        var id := s1.tracker.nextId;
        Matching(Tracker(id + 1, s1.tracker.order + [id],
                         s1.tracker.tracks[id := SimpleTrack(Center(d.box), d.box, 0)]),
                 s1.taken,
                 s1.found + [Sighting(id, n - 1, d)])
  }

  function ById(a: Sighting, b: Sighting): bool {
    a.trackId <= b.trackId
  }

  function Matched(cfg: Settings, t: Tracker, ds: seq<RawDetection>): Matching {
    SpawnAll(AssociateAll(cfg, Matching(t, {}, []), ds, t.order), ds, |ds|)
  }

  function NextFrame(cfg: Settings, t: Tracker, ds: seq<RawDetection>): (Tracker, seq<Sighting>) {
    var s := Matched(cfg, t, ds);
    (s.tracker, Sorting.Sort(ById, s.found))
  }

  // ----- what an update promises -----

  ghost predicate TrackerOk(t: Tracker) {
    && NoDuplicates(t.order)
    && (forall id :: id in t.order <==> id in t.tracks)
    && (forall id :: id in t.tracks ==> 1 <= id < t.nextId)
    && 1 <= t.nextId
  }

  ghost predicate Found(found: seq<Sighting>, id: int) {
    exists k :: 0 <= k < |found| && found[k].trackId == id
  }

  ghost predicate FoundIndex(found: seq<Sighting>, i: nat) {
    exists k :: 0 <= k < |found| && found[k].index == i
  }

  // Different sightings have different ids and different boxes.
  ghost predicate OneToOne(ds: seq<RawDetection>, found: seq<Sighting>) {
    && (forall k :: 0 <= k < |found| ==> found[k].index < |ds| && found[k].raw == ds[found[k].index])
    && (forall j, k :: 0 <= j < k < |found| ==>
          found[j].trackId != found[k].trackId && found[j].index != found[k].index)
  }

  // The state after the tracks in done have been handled.
  ghost predicate Associated(cfg: Settings, t: Tracker, s: Matching, ds: seq<RawDetection>, done: set<int>) {
    && TrackerOk(s.tracker)
    && s.tracker.nextId == t.nextId
    && s.tracker.tracks.Keys <= t.tracks.Keys
    && OneToOne(ds, s.found)
    && (forall i: nat :: i in s.taken <==> FoundIndex(s.found, i))
    && (forall id :: Found(s.found, id) ==>
          id in done && id in s.tracker.tracks && s.tracker.tracks[id].missing == 0)
    && (forall id :: id in t.tracks && id !in done ==>
          id in s.tracker.tracks && s.tracker.tracks[id] == t.tracks[id])
    && (forall id :: id in s.tracker.tracks && id in done && !Found(s.found, id) ==>
          s.tracker.tracks[id].missing == t.tracks[id].missing + 1 <= cfg.maxMissing)
  }

  lemma FoundMore(found: seq<Sighting>, x: Sighting)
    ensures forall id :: Found(found + [x], id) <==> Found(found, id) || id == x.trackId
    ensures forall i: nat :: FoundIndex(found + [x], i) <==> FoundIndex(found, i) || i == x.index
  {
    forall id
      ensures Found(found + [x], id) <==> Found(found, id) || id == x.trackId
    {
      assert (found + [x])[|found|] == x;
      if Found(found, id) {
        var k :| 0 <= k < |found| && found[k].trackId == id;
        assert (found + [x])[k].trackId == id;
      }
    }
    forall i: nat
      ensures FoundIndex(found + [x], i) <==> FoundIndex(found, i) || i == x.index
    {
      assert (found + [x])[|found|] == x;
      if FoundIndex(found, i) {
        var k :| 0 <= k < |found| && found[k].index == i;
        assert (found + [x])[k].index == i;
      }
    }
  }

  lemma AssociateKeeps(cfg: Settings, t: Tracker, s: Matching, ds: seq<RawDetection>, done: set<int>, id: int)
    requires Associated(cfg, t, s, ds, done) && id in t.tracks && id !in done
    ensures Associated(cfg, t, Associate(cfg, s, ds, id), ds, done + {id})
  {
    hide Nearest, Found, FoundIndex, Without;
    var track := s.tracker.tracks[id];
    var best := Nearest(track.center, ds, s.taken, |ds|);
    var s' := Associate(cfg, s, ds, id);
    if best.Some? && Within(track.center, Center(ds[best.value].box), cfg.maxMatchDistance) {
      var x := Sighting(id, best.value, ds[best.value]);
      FoundMore(s.found, x);
      FoundAt(s.found);
    } else {
      WithoutMembers(s.tracker.order, id);
    }
  }

  lemma FoundAt(found: seq<Sighting>)
    ensures forall k :: 0 <= k < |found| ==> Found(found, found[k].trackId) && FoundIndex(found, found[k].index)
  {
  }

  lemma {:induction false} AssociateAllKeeps(cfg: Settings, t: Tracker, ds: seq<RawDetection>, ids: seq<int>)
    requires TrackerOk(t) && NoDuplicates(ids) && forall id :: id in ids ==> id in t.tracks
    ensures Associated(cfg, t, AssociateAll(cfg, Matching(t, {}, []), ds, ids), ds, Elements(ids))
  {
    if ids != [] {
      var n := |ids| - 1;
      assert ids == ids[..n] + [ids[n]];
      AssociateAllKeeps(cfg, t, ds, ids[..n]);
      hide Associate;
      assert Elements(ids) == Elements(ids[..n]) + {ids[n]};
      assert ids[n] !in ids[..n];
      AssociateKeeps(cfg, t, AssociateAll(cfg, Matching(t, {}, []), ds, ids[..n]), ds, Elements(ids[..n]), ids[n]);
    }
  }

  // After the update: every box has exactly one track; a track is either seen
  // now, or it is an old one missing for one frame more, within the limit.
  ghost predicate Answered(cfg: Settings, t: Tracker, t': Tracker, ds: seq<RawDetection>, found: seq<Sighting>) {
    && TrackerOk(t')
    && t.nextId <= t'.nextId
    && OneToOne(ds, found)
    && (forall i: nat :: i < |ds| ==> FoundIndex(found, i))
    && (forall id :: Found(found, id) ==>
          id in t'.tracks && t'.tracks[id].missing == 0 && (id in t.tracks || t.nextId <= id))
    && (forall id :: id in t'.tracks && !Found(found, id) ==>
          id in t.tracks && t'.tracks[id].missing == t.tracks[id].missing + 1 <= cfg.maxMissing)
  }

  ghost predicate Spawned(cfg: Settings, t: Tracker, a: Matching, s: Matching, ds: seq<RawDetection>, n: nat) {
    && TrackerOk(s.tracker)
    && t.nextId <= s.tracker.nextId
    && OneToOne(ds, s.found)
    && (forall i: nat :: FoundIndex(s.found, i) <==> i in a.taken || i < n)
    && (forall id :: Found(s.found, id) ==>
          id in s.tracker.tracks && s.tracker.tracks[id].missing == 0 && (id in t.tracks || t.nextId <= id))
    && (forall id :: id in s.tracker.tracks && !Found(s.found, id) ==>
          id in t.tracks && s.tracker.tracks[id].missing == t.tracks[id].missing + 1 <= cfg.maxMissing)
  }

  lemma {:induction false} SpawnAllKeeps(cfg: Settings, t: Tracker, a: Matching, ds: seq<RawDetection>, n: nat)
    requires TrackerOk(t) && Associated(cfg, t, a, ds, t.tracks.Keys) && n <= |ds|
    ensures Spawned(cfg, t, a, SpawnAll(a, ds, n), ds, n)
  {
    hide Found, FoundIndex, Spawned;
    if n == 0 {
      NothingSpawned(cfg, t, a, ds);
    } else {
      SpawnAllKeeps(cfg, t, a, ds, n - 1);
      var s := SpawnAll(a, ds, n - 1);
      if n - 1 in a.taken {
        SpawnNoneKeeps(cfg, t, a, s, ds, n - 1);
      } else {
        SpawnOneKeeps(cfg, t, a, s, ds, n - 1);
      }
    }
  }

  lemma NothingSpawned(cfg: Settings, t: Tracker, a: Matching, ds: seq<RawDetection>)
    requires TrackerOk(t) && Associated(cfg, t, a, ds, t.tracks.Keys)
    ensures Spawned(cfg, t, a, a, ds, 0)
  {
    hide Found, FoundIndex;
  }

  lemma SpawnNoneKeeps(cfg: Settings, t: Tracker, a: Matching, s: Matching, ds: seq<RawDetection>, n: nat)
    requires Spawned(cfg, t, a, s, ds, n) && n in a.taken
    ensures Spawned(cfg, t, a, s, ds, n + 1)
  {
    hide Found, FoundIndex, TrackerOk, OneToOne;
  }

  lemma SpawnOneKeeps(cfg: Settings, t: Tracker, a: Matching, s: Matching, ds: seq<RawDetection>, n: nat)
    requires Spawned(cfg, t, a, s, ds, n) && n < |ds| && n !in a.taken
    ensures var id := s.tracker.nextId;
      var track := SimpleTrack(Center(ds[n].box), ds[n].box, 0);
      Spawned(cfg, t, a,
              Matching(Tracker(id + 1, s.tracker.order + [id], s.tracker.tracks[id := track]), s.taken,
                       s.found + [Sighting(id, n, ds[n])]),
              ds, n + 1)
  {
    hide Found, FoundIndex, OneToOne, TrackerOk;
    var x := Sighting(s.tracker.nextId, n, ds[n]);
    FoundMore(s.found, x);
    IdIsFree(s.tracker);
    OneToOneMore(ds, s.found, x);
    SpawnedOk(s.tracker, SimpleTrack(Center(ds[n].box), ds[n].box, 0));
  }

  lemma IdIsFree(t: Tracker)
    requires TrackerOk(t)
    ensures t.nextId !in t.tracks
  {
  }

  lemma SpawnedOk(t: Tracker, track: SimpleTrack)
    requires TrackerOk(t)
    ensures TrackerOk(Tracker(t.nextId + 1, t.order + [t.nextId], t.tracks[t.nextId := track]))
  {
    var order := t.order + [t.nextId];
    forall id
      ensures id in order <==> id in t.order || id == t.nextId
    {
      assert order[|t.order|] == t.nextId;
    }
    forall i, j | 0 <= i < j < |order|
      ensures order[i] != order[j]
    {
      assert order[i] in t.order;
    }
  }

  lemma OneToOneMore(ds: seq<RawDetection>, found: seq<Sighting>, x: Sighting)
    requires OneToOne(ds, found) && !Found(found, x.trackId) && !FoundIndex(found, x.index)
    requires x.index < |ds| && x.raw == ds[x.index]
    ensures OneToOne(ds, found + [x])
  {
    hide Found, FoundIndex;
    FoundAt(found);
  }

  lemma SortedAnswers(cfg: Settings, t: Tracker, t': Tracker, ds: seq<RawDetection>, found: seq<Sighting>)
    requires Answered(cfg, t, t', ds, found)
    ensures Answered(cfg, t, t', ds, Sorting.Sort(ById, found))
    ensures Sorting.Ordered(ById, Sorting.Sort(ById, found))
  {
    hide Sorting.Sort;
    var sorted := Sorting.Sort(ById, found);
    Sorting.SortOrders(ById, found);
    Sorting.SortMembers(ById, found);
    Sorting.SortPermutes(ById, found);
    forall id
      ensures Found(sorted, id) <==> Found(found, id)
    {
      if Found(found, id) {
        var k :| 0 <= k < |found| && found[k].trackId == id;
        assert found[k] in sorted;
      }
      if Found(sorted, id) {
        var k :| 0 <= k < |sorted| && sorted[k].trackId == id;
        assert sorted[k] in found;
      }
    }
    forall i: nat
      ensures FoundIndex(found, i) ==> FoundIndex(sorted, i)
    {
      if FoundIndex(found, i) {
        var k :| 0 <= k < |found| && found[k].index == i;
        assert found[k] in sorted;
      }
    }
    PermutedOneToOne(ds, found, sorted);
  }

  lemma PermutedOneToOne(ds: seq<RawDetection>, found: seq<Sighting>, other: seq<Sighting>)
    requires OneToOne(ds, found) && multiset(found) == multiset(other)
    ensures OneToOne(ds, other)
  {
    forall k | 0 <= k < |other|
      ensures other[k].index < |ds| && other[k].raw == ds[other[k].index]
    {
      assert other[k] in multiset(found);
    }
    forall j, k | 0 <= j < k < |other|
      ensures other[j].trackId != other[k].trackId && other[j].index != other[k].index
    {
      assert other[j] in multiset(found) && other[k] in multiset(found);
      if other[j] == other[k] {
        TwiceInMultiset(other, j, k);
        OnceInMultiset(found, other[j]);
      }
    }
  }

  lemma TwiceInMultiset(s: seq<Sighting>, j: nat, k: nat)
    requires j < k < |s| && s[j] == s[k]
    ensures multiset(s)[s[j]] >= 2
  {
    assert s == s[..k] + [s[k]] + s[k + 1..];
    assert s[j] in multiset(s[..k]);
  }

  lemma {:induction false} OnceInMultiset(s: seq<Sighting>, x: Sighting)
    requires forall j, k :: 0 <= j < k < |s| ==> s[j].trackId != s[k].trackId
    ensures multiset(s)[x] <= 1
  {
    if s != [] {
      OnceInMultiset(s[..|s| - 1], x);
      assert s == s[..|s| - 1] + [s[|s| - 1]];
      if x == s[|s| - 1] {
        assert x !in s[..|s| - 1];
      }
    }
  }

  lemma NextFrameAnswers(cfg: Settings, t: Tracker, ds: seq<RawDetection>)
    requires TrackerOk(t)
    ensures var (t', found) := NextFrame(cfg, t, ds); Answered(cfg, t, t', ds, found)
  {
    AssociateAllKeeps(cfg, t, ds, t.order);
    var a := AssociateAll(cfg, Matching(t, {}, []), ds, t.order);
    assert forall id :: id in Elements(t.order) <==> id in t.tracks.Keys;
    assert Elements(t.order) == t.tracks.Keys;
    SpawnAllKeeps(cfg, t, a, ds, |ds|);
    var s := SpawnAll(a, ds, |ds|);
    hide AssociateAll, SpawnAll, Found, FoundIndex;
    assert Answered(cfg, t, s.tracker, ds, s.found);
    SortedAnswers(cfg, t, s.tracker, ds, s.found);
  }

  // ----- who takes which box -----

  // The nearest free detection, the first of equals; none when all are taken.
  lemma {:induction false} NearestIsFirstNearest(center: Point, ds: seq<RawDetection>, taken: set<nat>, n: nat)
    requires n <= |ds|
    ensures var best := Nearest(center, ds, taken, n);
      if best.None? then forall i: nat :: i < n ==> i in taken
      else forall i: nat :: i < n && i !in taken ==>
             var (b, other) := (DistanceSq(center, Center(ds[best.value].box)), DistanceSq(center, Center(ds[i].box)));
             b <= other && (i < best.value ==> b < other)
  {
    hide DistanceSq, Center;
    if n > 0 {
      NearestIsFirstNearest(center, ds, taken, n - 1);
    }
  }

  // x took a box that was nearest for its track among those before did not take.
  ghost predicate TookNearest(t: Tracker, ds: seq<RawDetection>, before: seq<Sighting>, x: Sighting) {
    && x.trackId in t.tracks && x.index < |ds|
    && forall i: nat :: i < |ds| && !FoundIndex(before, i) ==>
         var c := t.tracks[x.trackId].center;
         var (b, other) := (DistanceSq(c, Center(ds[x.index].box)), DistanceSq(c, Center(ds[i].box)));
         b <= other && (i < x.index ==> b < other)
  }

  predicate InReach(cfg: Settings, t: Tracker, id: int, d: RawDetection) {
    id in t.tracks && Within(t.tracks[id].center, Center(d.box), cfg.maxMatchDistance)
  }

  // The tracks in done took the nearest free boxes within the limit, in turn; a
  // track without a box had none left within the limit.
  ghost predicate Reaching(cfg: Settings, t: Tracker, s: Matching, ds: seq<RawDetection>, done: set<int>) {
    && (forall k :: 0 <= k < |s.found| ==>
          TookNearest(t, ds, s.found[..k], s.found[k])
          && InReach(cfg, t, s.found[k].trackId, s.found[k].raw))
    && (forall id, i: nat :: id in done && i < |ds| && InReach(cfg, t, id, ds[i]) ==>
          Found(s.found, id) || i in s.taken)
    && (forall id :: id in done && id in t.tracks && !Found(s.found, id) && t.tracks[id].missing + 1 <= cfg.maxMissing ==>
          id in s.tracker.tracks)
    && (forall k :: 0 <= k < |s.found| ==>
          s.found[k].trackId in s.tracker.tracks
          && s.tracker.tracks[s.found[k].trackId].center == Center(s.found[k].raw.box))
    && (forall id :: id in s.tracker.tracks && !Found(s.found, id) ==>
          id in t.tracks && s.tracker.tracks[id].center == t.tracks[id].center)
  }

  lemma AssociateReaches(cfg: Settings, t: Tracker, s: Matching, ds: seq<RawDetection>, done: set<int>, id: int)
    requires Associated(cfg, t, s, ds, done) && Reaching(cfg, t, s, ds, done) && id in t.tracks && id !in done
    ensures Reaching(cfg, t, Associate(cfg, s, ds, id), ds, done + {id})
  {
    hide Nearest, Found, FoundIndex, Without, DistanceSq, Center, TrackerOk, OneToOne, Within;
    var track := s.tracker.tracks[id];
    var best := Nearest(track.center, ds, s.taken, |ds|);
    NearestIsFirstNearest(track.center, ds, s.taken, |ds|);
    if best.Some? && Within(track.center, Center(ds[best.value].box), cfg.maxMatchDistance) {
      var x := Sighting(id, best.value, ds[best.value]);
      FoundMore(s.found, x);
      FoundAt(s.found);
      var found := s.found + [x];
      forall k | 0 <= k < |found|
        ensures TookNearest(t, ds, found[..k], found[k])
      {
        assert found[..k] == s.found[..k];
        assert s.found[..|s.found|] == s.found;
      }
    } else {
      FoundAt(s.found);
      NearestOutOfReach(cfg, track.center, ds, s.taken, best);
    }
  }

  // When the nearest free box is beyond the limit, every free box is.
  lemma NearestOutOfReach(cfg: Settings, center: Point, ds: seq<RawDetection>, taken: set<nat>, best: Option<nat>)
    requires best == Nearest(center, ds, taken, |ds|)
    requires best.Some? ==> !Within(center, Center(ds[best.value].box), cfg.maxMatchDistance)
    ensures forall i: nat :: i < |ds| && Within(center, Center(ds[i].box), cfg.maxMatchDistance) ==> i in taken
  {
    NearestIsFirstNearest(center, ds, taken, |ds|);
    hide DistanceSq, Center, Nearest;
  }

  lemma {:induction false} AssociateAllReaches(cfg: Settings, t: Tracker, ds: seq<RawDetection>, ids: seq<int>)
    requires TrackerOk(t) && NoDuplicates(ids) && forall id :: id in ids ==> id in t.tracks
    ensures Reaching(cfg, t, AssociateAll(cfg, Matching(t, {}, []), ds, ids), ds, Elements(ids))
  {
    hide Associate, Associated, TookNearest, Within;
    if ids == [] {
      assert AssociateAll(cfg, Matching(t, {}, []), ds, ids) == Matching(t, {}, []);
    } else {
      hide Reaching;
      var n := |ids| - 1;
      assert ids == ids[..n] + [ids[n]];
      AssociateAllReaches(cfg, t, ds, ids[..n]);
      AssociateAllKeeps(cfg, t, ds, ids[..n]);
      assert Elements(ids) == Elements(ids[..n]) + {ids[n]};
      assert ids[n] !in ids[..n];
      var s := AssociateAll(cfg, Matching(t, {}, []), ds, ids[..n]);
      StillTracked(cfg, t, s, ds, Elements(ids[..n]), ids[n]);
      AssociateReaches(cfg, t, s, ds, Elements(ids[..n]), ids[n]);
    }
  }

  lemma StillTracked(cfg: Settings, t: Tracker, s: Matching, ds: seq<RawDetection>, done: set<int>, id: int)
    requires Associated(cfg, t, s, ds, done) && id in t.tracks && id !in done
    ensures id in s.tracker.tracks
  {
  }

  // After the update, before the sightings are sorted: old tracks come first and
  // took the nearest free boxes within the limit in turn; an old track without a
  // box had no box within the limit but those of other old tracks, and is kept
  // while it may be; new tracks have the next numbers.
  ghost predicate Reached(cfg: Settings, t: Tracker, s: Matching, ds: seq<RawDetection>, olds: nat) {
    && olds <= |s.found|
    && (forall k :: 0 <= k < olds ==>
          TookNearest(t, ds, s.found[..k], s.found[k])
          && InReach(cfg, t, s.found[k].trackId, s.found[k].raw))
    && (forall k :: olds <= k < |s.found| ==> t.nextId <= s.found[k].trackId < s.tracker.nextId)
    && s.tracker.nextId == t.nextId + |s.found| - olds
    && (forall id, i: nat :: i < |ds| && InReach(cfg, t, id, ds[i]) ==>
          Found(s.found, id) || FoundIndex(s.found[..olds], i))
    && (forall id :: id in t.tracks && !Found(s.found, id) && t.tracks[id].missing + 1 <= cfg.maxMissing ==>
          id in s.tracker.tracks)
    && (forall k :: 0 <= k < |s.found| ==>
          s.found[k].trackId in s.tracker.tracks
          && s.tracker.tracks[s.found[k].trackId].center == Center(s.found[k].raw.box))
    && (forall id :: id in s.tracker.tracks && !Found(s.found, id) ==>
          id in t.tracks && s.tracker.tracks[id].center == t.tracks[id].center)
  }

  lemma NothingSpawnedYet(cfg: Settings, t: Tracker, a: Matching, ds: seq<RawDetection>)
    requires Associated(cfg, t, a, ds, t.tracks.Keys) && Reaching(cfg, t, a, ds, t.tracks.Keys)
    ensures Reached(cfg, t, a, ds, |a.found|)
  {
    hide TookNearest, Within, Found, FoundIndex, TrackerOk, OneToOne;
    assert a.found[..|a.found|] == a.found;
  }

  lemma SpawnOneReaches(cfg: Settings, t: Tracker, s: Matching, ds: seq<RawDetection>, olds: nat, n: nat)
    requires Reached(cfg, t, s, ds, olds) && TrackerOk(s.tracker) && t.nextId <= s.tracker.nextId && n < |ds|
    ensures var id := s.tracker.nextId;
      var track := SimpleTrack(Center(ds[n].box), ds[n].box, 0);
      Reached(cfg, t,
              Matching(Tracker(id + 1, s.tracker.order + [id], s.tracker.tracks[id := track]), s.taken,
                       s.found + [Sighting(id, n, ds[n])]),
              ds, olds)
  {
    hide TookNearest, Within, Found, FoundIndex, OneToOne;
    var x := Sighting(s.tracker.nextId, n, ds[n]);
    var found := s.found + [x];
    FoundMore(s.found, x);
    FoundAt(s.found);
    assert found[..olds] == s.found[..olds];
    assert forall k :: 0 <= k < olds ==> found[..k] == s.found[..k];
  }

  lemma {:induction false} SpawnAllReaches(cfg: Settings, t: Tracker, a: Matching, ds: seq<RawDetection>, n: nat)
    requires TrackerOk(t) && Associated(cfg, t, a, ds, t.tracks.Keys) && n <= |ds|
    requires Reaching(cfg, t, a, ds, t.tracks.Keys)
    ensures Reached(cfg, t, SpawnAll(a, ds, n), ds, |a.found|)
  {
    hide Associated, Reached, Reaching, TrackerOk;
    if n == 0 {
      NothingSpawnedYet(cfg, t, a, ds);
    } else {
      SpawnAllReaches(cfg, t, a, ds, n - 1);
      SpawnAllKeeps(cfg, t, a, ds, n - 1);
      hide Spawned;
      SpawnedMeans(cfg, t, a, SpawnAll(a, ds, n - 1), ds, n - 1);
      if n - 1 !in a.taken {
        SpawnOneReaches(cfg, t, SpawnAll(a, ds, n - 1), ds, |a.found|, n - 1);
      }
    }
  }

  lemma SpawnedMeans(cfg: Settings, t: Tracker, a: Matching, s: Matching, ds: seq<RawDetection>, n: nat)
    requires Spawned(cfg, t, a, s, ds, n)
    ensures TrackerOk(s.tracker) && t.nextId <= s.tracker.nextId
  {
    hide TrackerOk, OneToOne, Found, FoundIndex;
  }

  lemma NextFrameReaches(cfg: Settings, t: Tracker, ds: seq<RawDetection>)
    requires TrackerOk(t)
    ensures exists olds: nat :: Reached(cfg, t, Matched(cfg, t, ds), ds, olds)
  {
    AssociateAllKeeps(cfg, t, ds, t.order);
    AssociateAllReaches(cfg, t, ds, t.order);
    var a := AssociateAll(cfg, Matching(t, {}, []), ds, t.order);
    assert forall id :: id in Elements(t.order) <==> id in t.tracks.Keys;
    assert Elements(t.order) == t.tracks.Keys;
    hide Associated, Reached, Reaching, TrackerOk, AssociateAll;
    SpawnAllReaches(cfg, t, a, ds, |ds|);
    assert Reached(cfg, t, Matched(cfg, t, ds), ds, |a.found|);
  }

  // A negative limit associates no box with a track: every sighting is a new track.
  lemma AllAreNew(cfg: Settings, t: Tracker, ds: seq<RawDetection>)
    requires TrackerOk(t) && cfg.maxMatchDistance < 0.0
    ensures forall id :: Found(NextFrame(cfg, t, ds).1, id) ==> t.nextId <= id
  {
    NextFrameReaches(cfg, t, ds);
    var found := Matched(cfg, t, ds).found;
    Sorting.SortMembers(ById, found);
    hide Matched, Sorting.Sort, TookNearest;
    var olds: nat :| Reached(cfg, t, Matched(cfg, t, ds), ds, olds);
    assert olds > 0 ==> InReach(cfg, t, found[0].trackId, found[0].raw);
    var sorted := NextFrame(cfg, t, ds).1;
    forall id | Found(sorted, id)
      ensures t.nextId <= id
    {
      var k :| 0 <= k < |sorted| && sorted[k].trackId == id;
      assert sorted[k] in found;
    }
  }

  // ----- the tracker as the source has it -----

  class SimpleBoxTracker {
    const settings: Settings
    var nextId: int
    var order: seq<int>
    var tracks: map<int, SimpleTrack>

    ghost function State(): Tracker
      reads this
    {
      Tracker(nextId, order, tracks)
    }

    constructor (settings: Settings)
      ensures this.settings == settings && State() == INITIAL && TrackerOk(State())
    {
      this.settings := settings;
      nextId, order, tracks := 1, [], map[];
    }

    static method NearestFree(center: Point, ds: seq<RawDetection>, taken: set<nat>) returns (best: Option<nat>)
      ensures best == Nearest(center, ds, taken, |ds|)
    {
      best := None;
      for i := 0 to |ds|
        invariant best == Nearest(center, ds, taken, i)
      {
        if i !in taken {
          var distance := DistanceSq(center, Center(ds[i].box));
          if best.None? || distance < DistanceSq(center, Center(ds[best.value].box)) {
            best := Some(i);
          }
        }
      }
    }

    // A box without positive size raises before any track changes.
    method Update(ds: seq<RawDetection>) returns (r: Result<seq<Sighting>>)
      requires TrackerOk(State())
      modifies this
      ensures TrackerOk(State())
      ensures r.Success? <==> forall d :: d in ds ==> WellSized(d)
      ensures r.Failure? ==> State() == old(State())
      ensures r.Success? ==> (State(), r.value) == NextFrame(settings, old(State()), ds)
    {
      hide Center, AssociateAll;
      if exists d :: d in ds && !WellSized(d) {
        return Failure("detection boxes must be xywh with positive width/height");
      }
      NextFrameAnswers(settings, State(), ds);
      var taken, found := Match(ds);
      for i := 0 to |ds|
        invariant taken == AssociateAll(settings, Matching(old(State()), {}, []), ds, old(order)).taken
        invariant Matching(State(), taken, found)
                  == SpawnAll(AssociateAll(settings, Matching(old(State()), {}, []), ds, old(order)), ds, i)
      {
        if i !in taken {
          var id := nextId;
          nextId := nextId + 1;
          tracks := tracks[id := SimpleTrack(Center(ds[i].box), ds[i].box, 0)];
          order := order + [id];
          found := found + [Sighting(id, i, ds[i])];
        }
      }
      r := Success(Sorting.Sort(ById, found));
    }

    method Match(ds: seq<RawDetection>) returns (taken: set<nat>, found: seq<Sighting>)
      requires TrackerOk(State())
      modifies this
      ensures Matching(State(), taken, found)
              == AssociateAll(settings, Matching(old(State()), {}, []), ds, old(order))
    {
      hide Within, TrackerOk, DistanceSq, Center;
      var ids := order;
      taken, found := {}, [];
      ghost var t := State();
      for i := 0 to |ids|
        invariant Matching(State(), taken, found) == AssociateAll(settings, Matching(t, {}, []), ds, ids[..i])
      {
        StillThere(settings, t, ds, i);
        var id := ids[i];
        var best := NearestFree(tracks[id].center, ds, taken);
        if best.Some? && Within(tracks[id].center, Center(ds[best.value].box), settings.maxMatchDistance) {
          var box := ds[best.value].box;
          tracks := tracks[id := SimpleTrack(Center(box), box, 0)];
          taken := taken + {best.value};
          found := found + [Sighting(id, best.value, ds[best.value])];
        } else if tracks[id].missing + 1 > settings.maxMissing {
          tracks := tracks - {id};
          order := Without(order, id);
        } else {
          tracks := tracks[id := tracks[id].(missing := tracks[id].missing + 1)];
        }
      }
      assert ids[..|ids|] == ids;
    }
  }

  lemma StillThere(cfg: Settings, t: Tracker, ds: seq<RawDetection>, i: nat)
    requires TrackerOk(t) && i < |t.order|
    ensures var s := AssociateAll(cfg, Matching(t, {}, []), ds, t.order[..i]);
      && t.order[i] in s.tracker.tracks
      && AssociateAll(cfg, Matching(t, {}, []), ds, t.order[..i + 1]) == Associate(cfg, s, ds, t.order[i])
  {
    hide Associate;
    AssociateAllKeeps(cfg, t, ds, t.order[..i]);
    assert t.order[..i + 1][..i] == t.order[..i];
    var id := t.order[i];
    assert id in t.order && id !in Elements(t.order[..i]);
    assert id in t.tracks;
  }
}
