// What the counts of one frame of the runtime are of: tracks the gate allows, where
// the frame shows them, and for a delivery chain the fragment it started from.
module RuntimeChains {
  import opened Prelude
  import opened Geometry
  import opened CountModel
  import opened CountWrites
  import opened CountChains
  import opened GateStitching
  import opened GateFragments
  import opened RuntimeModel
  import opened RuntimeEvidence
  import T = BoxTracker

  // src is the fragment of the track that was seen before all the others.
  ghost predicate Earliest(cfg: RuntimeConfig, r: Runtime, id: int, src: int) {
    && id in r.accs && src in Fragments(cfg, r, id) && src in r.accs
    && forall f :: f in Fragments(cfg, r, id) && f != src ==>
         f in r.accs && r.accs[src].lastSeen < r.accs[f].firstSeen
  }

  // The frame shows the track at the box.
  ghost predicate Shown(found: seq<T.Sighting>, id: int, box: Box) {
    exists k :: 0 <= k < |found| && found[k].trackId == id && found[k].raw.box == box
  }

  // What a count of a frame is of.
  ghost predicate CountOfFrame(cfg: RuntimeConfig, r: Runtime, found: seq<T.Sighting>, allowed: set<int>, e: Event) {
    match e.reason
    case ApprovedDeliveryChain =>
      && e.trackId in allowed && Shown(found, e.trackId, e.bbox)
      && e.sourceTrackId.Some? && Earliest(cfg, r, e.trackId, e.sourceTrackId.value)
      && e.chainId == Some(ChainName(e.sourceTrackId.value))
    case StableInOutput =>
      && e.trackId in allowed && Shown(found, e.trackId, e.bbox)
      && e.sourceTrackId.None? && e.chainId.None?
    case DisappearedInOutput => !T.Found(found, e.trackId) && e.sourceTrackId.None? && e.chainId.None?
  }

  // ----- the chains of a frame -----

  ghost predicate Sourced(cfg: RuntimeConfig, r: Runtime, found: seq<T.Sighting>, allowed: set<int>, c: Chain) {
    && c.output in r.accs && c.output in allowed && Shown(found, c.output, c.box)
    && c.source == Fragments(cfg, r, c.output)[0]
  }

  lemma {:induction false} BoxIsShown(found: seq<T.Sighting>, id: int)
    ensures BoxOf(found, id).Some? ==> Shown(found, id, BoxOf(found, id).value)
  {
    if found != [] && found[|found| - 1].trackId != id {
      BoxIsShown(found[..|found| - 1], id);
      if BoxOf(found, id).Some? {
        var k :| 0 <= k < |found| - 1 && found[..|found| - 1][k].trackId == id
                 && found[..|found| - 1][k].raw.box == BoxOf(found, id).value;
        assert found[k].trackId == id && found[k].raw.box == BoxOf(found, id).value;
      }
    }
  }

  lemma SourceIsFirst(cfg: RuntimeConfig, r: Runtime, id: int)
    requires id in r.accs
    ensures ChainSource(cfg, r, id) == Fragments(cfg, r, id)[0]
  {
    hide PredecessorChain;
  }

  // Every chain of a frame starts from the first fragment of its track.
  lemma {:induction false} ChainsAreSourced(cfg: RuntimeConfig, r: Runtime, found: seq<T.Sighting>, allowed: set<int>,
                                            ids: seq<int>)
    ensures forall c :: c in Chains(cfg, r, found, allowed, ids) ==> Sourced(cfg, r, found, allowed, c)
  {
    hide BoxOf, ChainSource, Shown, Fragments;
    if ids != [] {
      ChainsAreSourced(cfg, r, found, allowed, ids[..|ids| - 1]);
      var id := ids[|ids| - 1];
      BoxIsShown(found, id);
      if id in r.accs {
        SourceIsFirst(cfg, r, id);
      }
    }
  }

  // And every track the gate allows and the frame shows has one.
  lemma {:induction false} AllowedHaveChains(cfg: RuntimeConfig, r: Runtime, found: seq<T.Sighting>, allowed: set<int>,
                                             ids: seq<int>, id: int)
    requires id in ids && id in r.accs && id in allowed && T.Found(found, id)
    ensures exists c :: c in Chains(cfg, r, found, allowed, ids) && c.output == id
  {
    hide BoxOf, ChainSource, T.Found;
    var n := |ids| - 1;
    BoxOfFound(found, id);
    if ids[n] == id {
      var chains := Chains(cfg, r, found, allowed, ids);
      assert chains[|chains| - 1].output == id;
    } else {
      assert id in ids[..n] by { assert ids == ids[..n] + [ids[n]]; }
      AllowedHaveChains(cfg, r, found, allowed, ids[..n], id);
      var c :| c in Chains(cfg, r, found, allowed, ids[..n]) && c.output == id;
      assert c in Chains(cfg, r, found, allowed, ids);
    }
  }

  lemma FirstIsEarliest(cfg: RuntimeConfig, r: Runtime, id: int)
    requires id in r.accs && forall i :: i in r.accs ==> SeenInOrder(r.accs[i])
    ensures Earliest(cfg, r, id, Fragments(cfg, r, id)[0])
  {
    hide PredecessorChain, SeenInOrder;
    PredecessorsChronological(cfg.stitch, r.accs, r.accOrder, id);
    ChainKnown(cfg, r, id);
    var ids := Fragments(cfg, r, id);
    forall f | f in ids && f != ids[0]
      ensures r.accs[ids[0]].lastSeen < r.accs[f].firstSeen
    {
      var k :| 0 < k < |ids| && ids[k] == f;
    }
  }

  // ----- what committing them writes -----

  ghost predicate OfChain(e: Event, chains: seq<Chain>) {
    && e.reason == ApprovedDeliveryChain
    && exists c :: c in chains && e.trackId == c.output && e.bbox == c.box
                   && e.sourceTrackId == Some(c.source) && e.chainId == Some(ChainName(c.source))
  }

  ghost predicate ChainsWrite(log: seq<Entry>, more: seq<Entry>, chains: seq<Chain>) {
    log <= more && forall k :: |log| <= k < |more| && more[k].Emitted? ==> OfChain(more[k].event, chains)
  }

  lemma CommitWrites(cfg: RuntimeConfig, m: Machine, c: Chain, chains: seq<Chain>)
    requires c in chains
    ensures var m' := CommitChain(cfg.count, m, ChainName(c.source), c.output, c.box, Some(c.source));
      ChainsWrite(m.log, m'.log, chains) && m'.chains == m.chains + {ChainName(c.source)}
  {
    hide ChainName, CommitChain, Center, BesideRecent, Spends, Spendable;
    ChainExactly(cfg.count, m, ChainName(c.source), c.output, c.box, Some(c.source));
  }

  lemma {:induction false} CommitAllWrites(cfg: RuntimeConfig, m: Machine, chains: seq<Chain>, all: seq<Chain>)
    requires forall c :: c in chains ==> c in all
    ensures ChainsWrite(m.log, CommitAll(cfg, m, chains).log, all)
    ensures forall c :: c in chains ==> ChainName(c.source) in CommitAll(cfg, m, chains).chains
  {
    hide CommitChain, ChainName, OfChain;
    if chains != [] {
      var c := chains[|chains| - 1];
      CommitAllWrites(cfg, m, chains[..|chains| - 1], all);
      CommitWrites(cfg, CommitAll(cfg, m, chains[..|chains| - 1]), c, all);
      assert chains == chains[..|chains| - 1] + [c];
    }
  }

  // ----- whole frames -----

  lemma SightingsShown(found: seq<T.Sighting>, d: Detection)
    requires d in ToDetections(found)
    ensures Shown(found, d.trackId, d.bbox)
  {
    SightingsAsDetections(found);
    hide ToDetections;
    var k :| 0 <= k < |found| && ToDetections(found)[k] == d;
  }

  // A count an update may write is of a track shown and approved, or of one missing.
  lemma DirectCountOfFrame(cfg: RuntimeConfig, r: Runtime, found: seq<T.Sighting>, allowed: set<int>, e: Entry)
    requires UpdateEntry(e, ToDetections(found), Some(Approved(r, allowed))) && e.Emitted?
    ensures CountOfFrame(cfg, r, found, allowed, e.event)
  {
    hide ToDetections, Shown, T.Found, Earliest, ChainName;
    var ds := ToDetections(found);
    FoundAreIds(found);
    if d, yes :| ShownAs(ds, Some(Approved(r, allowed)), d, yes) && DetectEntry(e, d, yes) {
      SightingsShown(found, d);
    } else {
      var id :| id !in Ids(ds) && MissEntry(e, id);
    }
  }

  lemma ChainCountOfFrame(cfg: RuntimeConfig, r: Runtime, found: seq<T.Sighting>, allowed: set<int>, e: Event,
                          chains: seq<Chain>)
    requires OfChain(e, chains) && forall c :: c in chains ==> Sourced(cfg, r, found, allowed, c)
    requires forall i :: i in r.accs ==> SeenInOrder(r.accs[i])
    ensures CountOfFrame(cfg, r, found, allowed, e)
  {
    hide Shown, T.Found, ChainName, Earliest, Fragments, SeenInOrder;
    var c :| c in chains && e.trackId == c.output && e.bbox == c.box
             && e.sourceTrackId == Some(c.source) && e.chainId == Some(ChainName(c.source));
    FirstIsEarliest(cfg, r, c.output);
  }

  // r is what a run is before a frame, r1 what it is once tracks and evidence are
  // brought up to date.
  function Gathered(cfg: RuntimeConfig, r: Runtime, ds: seq<T.RawDetection>): Runtime {
    var (t, found) := T.NextFrame(cfg.tracker, r.tracker, ds);
    Accumulate(r.(tracker := t), found)
  }

  lemma FrameWrites(cfg: RuntimeConfig, r: Runtime, ds: seq<T.RawDetection>, allowed: set<int>)
    ensures var found := T.NextFrame(cfg.tracker, r.tracker, ds).1;
      var r1 := Gathered(cfg, r, ds);
      var r' := ProcessFrame(cfg, r, ds, allowed);
      var m := Update(cfg.count, r.machine, ToDetections(found), Some(Approved(r1, allowed)));
      var chains := Chains(cfg, r1, found, allowed, r1.accOrder);
      && r'.accs == r1.accs && r'.accOrder == r1.accOrder && r'.frame == r1.frame + 1
      && UpdateWritesOnly(r.machine.log, m.log, ToDetections(found), Some(Approved(r1, allowed)))
      && ChainsWrite(m.log, r'.machine.log, chains)
      && (forall c :: c in chains ==> ChainName(c.source) in r'.machine.chains)
  {
    hide Update, T.NextFrame, CommitAll, Chains, Accumulate, ToDetections, ChainsWrite, UpdateWritesOnly, ChainName;
    var (t, found) := T.NextFrame(cfg.tracker, r.tracker, ds);
    var r1 := Gathered(cfg, r, ds);
    AccumulateSpares(r.(tracker := t), found);
    var approved := Some(Approved(r1, allowed));
    UpdateWrites(cfg.count, r.machine, ToDetections(found), approved);
    var m := Update(cfg.count, r.machine, ToDetections(found), approved);
    var chains := Chains(cfg, r1, found, allowed, r1.accOrder);
    CommitAllWrites(cfg, m, chains, chains);
  }

  // Every count that a frame of a run adds is of a track the gate allows and the
  // frame shows, or of one it does not show; a chain is named after, and takes its
  // token from, the fragment that was seen before all others the gate was told of.
  lemma FrameCountsAreExplained(cfg: RuntimeConfig, inputs: seq<FrameInput>, ds: seq<T.RawDetection>,
                                allowed: set<int>, k: nat)
    requires var r := Frames(cfg, inputs);
      |r.machine.log| <= k < |ProcessFrame(cfg, r, ds, allowed).machine.log|
    requires ProcessFrame(cfg, Frames(cfg, inputs), ds, allowed).machine.log[k].Emitted?
    ensures var r := Frames(cfg, inputs);
      var r' := ProcessFrame(cfg, r, ds, allowed);
      CountOfFrame(cfg, r', T.NextFrame(cfg.tracker, r.tracker, ds).1, allowed, r'.machine.log[k].event)
  {
    hide Frames, ProcessFrame, Update, T.NextFrame, Chains, ToDetections, CountOfFrame, Gathered, UpdateEntry, OfChain,
      Sourced, ChainName;
    var r := Frames(cfg, inputs);
    var found := T.NextFrame(cfg.tracker, r.tracker, ds).1;
    var r1 := Gathered(cfg, r, ds);
    var r' := ProcessFrame(cfg, r, ds, allowed);
    FrameWrites(cfg, r, ds, allowed);
    SameForCounts(cfg, r1, r', found, allowed, r'.machine.log[k].event);
    var m := Update(cfg.count, r.machine, ToDetections(found), Some(Approved(r1, allowed)));
    if k < |m.log| {
      assert m.log[k] == r'.machine.log[k];
      DirectCountOfFrame(cfg, r1, found, allowed, m.log[k]);
    } else {
      var chains := Chains(cfg, r1, found, allowed, r1.accOrder);
      ChainsAreSourced(cfg, r1, found, allowed, r1.accOrder);
      SeenInOrderThen(cfg, inputs, ds);
      ChainCountOfFrame(cfg, r1, found, allowed, r'.machine.log[k].event, chains);
    }
  }

  lemma SameForCounts(cfg: RuntimeConfig, r1: Runtime, r': Runtime, found: seq<T.Sighting>, allowed: set<int>, e: Event)
    requires r'.accs == r1.accs && r'.accOrder == r1.accOrder
    ensures CountOfFrame(cfg, r1, found, allowed, e) ==> CountOfFrame(cfg, r', found, allowed, e)
  {
    hide Shown, T.Found, ChainName, PredecessorChain;
  }

  lemma SeenInOrderThen(cfg: RuntimeConfig, inputs: seq<FrameInput>, ds: seq<T.RawDetection>)
    ensures forall i :: i in Gathered(cfg, Frames(cfg, inputs), ds).accs ==>
      SeenInOrder(Gathered(cfg, Frames(cfg, inputs), ds).accs[i])
  {
    hide Frames, T.NextFrame, Accumulate, SeenInOrder;
    FramesAccsOk(cfg, inputs);
    var r := Frames(cfg, inputs);
    var (t, found) := T.NextFrame(cfg.tracker, r.tracker, ds);
    SameAccs(r, r.(tracker := t));
    AccumulateKeeps(r.(tracker := t), found);
  }

  // Every track the gate allows and the frame shows has the chain of its earliest
  // fragment committed.
  lemma AllowedAreDelivered(cfg: RuntimeConfig, inputs: seq<FrameInput>, ds: seq<T.RawDetection>, allowed: set<int>,
                            id: int)
    requires var r := Frames(cfg, inputs);
      T.Found(T.NextFrame(cfg.tracker, r.tracker, ds).1, id) && id in allowed
    ensures var r' := ProcessFrame(cfg, Frames(cfg, inputs), ds, allowed);
      exists src :: Earliest(cfg, r', id, src) && ChainName(src) in r'.machine.chains
  {
    hide Frames, ProcessFrame, Update, T.NextFrame, Chains, ToDetections, Gathered, ChainName, T.Found, Earliest;
    var r := Frames(cfg, inputs);
    var found := T.NextFrame(cfg.tracker, r.tracker, ds).1;
    var r1 := Gathered(cfg, r, ds);
    var r' := ProcessFrame(cfg, r, ds, allowed);
    FrameWrites(cfg, r, ds, allowed);
    FoundAreKnown(cfg, inputs, ds, id);
    AllowedHaveChains(cfg, r1, found, allowed, r1.accOrder, id);
    ChainsAreSourced(cfg, r1, found, allowed, r1.accOrder);
    var c :| c in Chains(cfg, r1, found, allowed, r1.accOrder) && c.output == id;
    assert Sourced(cfg, r1, found, allowed, c);
    SeenInOrderThen(cfg, inputs, ds);
    FirstIsEarliest(cfg, r1, id);
    SameFragments(cfg, r1, r', id, c.source);
  }

  lemma SameFragments(cfg: RuntimeConfig, r1: Runtime, r': Runtime, id: int, src: int)
    requires r'.accs == r1.accs && r'.accOrder == r1.accOrder && Earliest(cfg, r1, id, src)
    ensures Earliest(cfg, r', id, src)
  {
    hide PredecessorChain;
  }

  // ----- accumulators are listed -----

  ghost predicate Listed(r: Runtime) {
    forall id :: id in r.accOrder <==> id in r.accs
  }

  lemma {:induction false} AccumulateLists(r: Runtime, found: seq<T.Sighting>)
    requires Listed(r)
    ensures Listed(Accumulate(r, found))
    ensures forall k :: 0 <= k < |found| ==> found[k].trackId in Accumulate(r, found).accs
    ensures forall id :: id in r.accs ==> id in Accumulate(r, found).accs
  {
    hide Observed;
    if found != [] {
      var n := |found| - 1;
      AccumulateLists(r, found[..n]);
      var r1 := Accumulate(r, found[..n]);
      assert forall k :: 0 <= k < n ==> found[..n][k] == found[k];
      ListsOne(r1, found[n]);
    }
  }

  lemma ListsOne(r: Runtime, x: T.Sighting)
    requires Listed(r)
    ensures Listed(AccumulateOne(r, x)) && x.trackId in AccumulateOne(r, x).accs
    ensures forall id :: id in r.accs ==> id in AccumulateOne(r, x).accs
  {
    hide Observed;
    var r' := AccumulateOne(r, x);
    if x.trackId !in r.accs {
      assert r'.accOrder == r.accOrder + [x.trackId];
      assert r'.accOrder[|r.accOrder|] == x.trackId;
    }
  }

  lemma {:induction false} FramesListed(cfg: RuntimeConfig, inputs: seq<FrameInput>)
    ensures Listed(Frames(cfg, inputs))
  {
    hide ProcessFrame, Listed, Gathered;
    if inputs == [] {
      NothingListed();
    } else {
      var r := Frames(cfg, inputs[..|inputs| - 1]);
      var last := inputs[|inputs| - 1];
      FramesListed(cfg, inputs[..|inputs| - 1]);
      GatheredListed(cfg, r, last.detections);
      FrameKeepsAccs(cfg, r, last.detections, last.allowed);
      SameListed(Gathered(cfg, r, last.detections), ProcessFrame(cfg, r, last.detections, last.allowed));
    }
  }

  lemma FrameKeepsAccs(cfg: RuntimeConfig, r: Runtime, ds: seq<T.RawDetection>, allowed: set<int>)
    ensures ProcessFrame(cfg, r, ds, allowed).accs == Gathered(cfg, r, ds).accs
    ensures ProcessFrame(cfg, r, ds, allowed).accOrder == Gathered(cfg, r, ds).accOrder
  {
    hide Update, T.NextFrame, CommitAll, Chains, Accumulate, ToDetections;
  }

  lemma NothingListed()
    ensures Listed(START)
  {
  }

  lemma SameListed(r: Runtime, r': Runtime)
    requires Listed(r) && r'.accs == r.accs && r'.accOrder == r.accOrder
    ensures Listed(r')
  {
  }

  lemma GatheredListed(cfg: RuntimeConfig, r: Runtime, ds: seq<T.RawDetection>)
    requires Listed(r)
    ensures Listed(Gathered(cfg, r, ds))
    ensures forall id :: T.Found(T.NextFrame(cfg.tracker, r.tracker, ds).1, id) ==> id in Gathered(cfg, r, ds).accs
  {
    hide T.NextFrame, Accumulate;
    var (t, found) := T.NextFrame(cfg.tracker, r.tracker, ds);
    SameListed(r, r.(tracker := t));
    AccumulateLists(r.(tracker := t), found);
  }

  lemma FoundAreKnown(cfg: RuntimeConfig, inputs: seq<FrameInput>, ds: seq<T.RawDetection>, id: int)
    requires T.Found(T.NextFrame(cfg.tracker, Frames(cfg, inputs).tracker, ds).1, id)
    ensures var r1 := Gathered(cfg, Frames(cfg, inputs), ds); id in r1.accs && id in r1.accOrder
  {
    hide Frames, T.NextFrame, Gathered, T.Found;
    FramesListed(cfg, inputs);
    GatheredListed(cfg, Frames(cfg, inputs), ds);
  }

  // ----- what the gate is told, in every run -----

  // In every run the accumulator of a track sums up the sightings of its id.
  lemma EvidenceSumsUp(cfg: RuntimeConfig, inputs: seq<FrameInput>, id: int)
    requires id in Frames(cfg, inputs).accs
    ensures SumsUp(Frames(cfg, inputs).accs[id], History(cfg, inputs, id))
  {
    hide Frames, History, Fed, SumsUp;
    AccumulatorsAreFed(cfg, inputs, id);
    FedSumsUp(History(cfg, inputs, id));
  }

  // In every run a track that was in the output and hardly in the source is linked
  // with all the fragments there are to link, up to three, and no other track is.
  lemma ChainsAreComplete(cfg: RuntimeConfig, inputs: seq<FrameInput>, id: int)
    requires id in Frames(cfg, inputs).accs
    ensures var r := Frames(cfg, inputs);
      var chain := PredecessorChain(cfg.stitch, r.accs, r.accOrder, id);
      if r.accs[id].outputFrames > 0 && r.accs[id].sourceFrames <= 1 then GoesBack(cfg.stitch, r.accs, chain, id, 3)
      else chain == []
  {
    hide Frames, PredecessorChain, GoesBack;
    var r := Frames(cfg, inputs);
    FramesListed(cfg, inputs);
    PredecessorsAreComplete(cfg.stitch, r.accs, r.accOrder, id);
  }
}
