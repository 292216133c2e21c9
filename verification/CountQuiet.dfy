// Which steps of the counter can count at all, and what they count.
module CountQuiet {
  import opened Prelude
  import opened Geometry
  import opened CountModel
  import opened CountHistory
  import opened CountEffects

  // Nothing is counted.
  ghost predicate Silent(m: Machine, m': Machine) {
    && m'.frame == m.frame && m'.chains == m.chains && m'.total == m.total && m'.residents == m.residents
    && Events(m'.log) == Events(m.log)
  }

  // Track id is counted once, now.
  ghost predicate CountsOne(m: Machine, m': Machine, id: int) {
    && m'.frame == m.frame && m'.chains == m.chains && m'.total == m.total + 1
    && |m'.residents| == |m.residents| + 1 && m'.residents[..|m.residents|] == m.residents
    && m'.residents[|m.residents|].createdFrame == m.frame
    && m'.residents[|m.residents|].trackId == id
    && |Events(m'.log)| == |Events(m.log)| + 1 && Events(m'.log)[..|Events(m.log)|] == Events(m.log)
    && Events(m'.log)[|Events(m.log)|].trackId == id
    && m'.residents[|m.residents|].bbox == Events(m'.log)[|Events(m.log)|].bbox
    && m'.residents[|m.residents|].center == Center(m'.residents[|m.residents|].bbox)
  }

  lemma EventsMore(log: seq<Entry>, e: Entry)
    ensures Events(log + [e]) == if e.Emitted? then Events(log) + [e.event] else Events(log)
  {
    OneMore(log, e);
  }

  lemma SilentFirst(m: Machine, m': Machine, m'': Machine, a: bool, id: int)
    requires Silent(m, m') && (Silent(m', m'') || (a && CountsOne(m', m'', id)))
    ensures Silent(m, m'') || (a && CountsOne(m, m'', id))
  {
    hide Events;
  }

  // ----- one detection -----

  lemma ObserveSilent(m: Machine, d: Detection, approved: bool)
    ensures Silent(m, Observe(m, d, approved)) && Observe(m, d, approved).tracks[d.trackId].approved == approved
  {
    hide Events;
    EventsMore(m.log, Detected(d.trackId, Center(d.bbox)));
  }

  lemma ClassifySilent(cfg: Config, m: Machine, d: Detection)
    requires Placeable(m, d.trackId)
    ensures var r := Classify(cfg, m, d);
      r.Some? ==> Silent(m, r.value) && r.value.tracks[d.trackId].approved == m.tracks[d.trackId].approved
  {
    hide Events, MatchingResident;
    var lender := Lender(cfg, m, m.order, d.trackId);
    if lender.Some? {
      EventsMore(m.log, Inherited(d.trackId, lender.value));
    }
  }

  lemma SourceStepSilent(cfg: Config, m: Machine, d: Detection)
    requires Placeable(m, d.trackId)
    ensures Silent(m, SourceStep(cfg, m, d))
    ensures SourceStep(cfg, m, d).tracks[d.trackId].approved == m.tracks[d.trackId].approved
  {
    hide Events;
  }

  lemma GateStepSilent(cfg: Config, m: Machine, d: Detection, previous: Option<Point>)
    requires Placeable(m, d.trackId)
    ensures Silent(m, GateStep(cfg, m, d, previous))
    ensures GateStep(cfg, m, d, previous).tracks[d.trackId].approved == m.tracks[d.trackId].approved
  {
    hide Events, GateCrossed;
  }

  lemma CommitCountsOne(m: Machine, id: int, reason: Reason, chainId: Option<string>,
                        sourceTrackId: Option<int>, provenance: Option<Provenance>)
    requires Placeable(m, id)
    ensures var m' := Commit(m, id, reason, chainId, sourceTrackId, provenance);
      && CountsOne(m, m', id) && id in m'.tracks
      && m'.tracks[id].approved == m.tracks[id].approved && m'.tracks[id].counted
  {
    hide Events, Age;
    var e := Emitted(CountEvent(m, id, reason, chainId, sourceTrackId, provenance), Age(m, m.tracks[id]));
    EventsMore(m.log, e);
    assert Commit(m, id, reason, chainId, sourceTrackId, provenance).log == m.log + [e];
  }

  lemma SettleCounts(cfg: Config, m: Machine, d: Detection, previous: Option<Point>)
    requires Placeable(m, d.trackId)
    ensures var m' := Settle(cfg, m, d, previous);
      && (Silent(m, m') || (m.tracks[d.trackId].approved && CountsOne(m, m', d.trackId)))
      && m'.tracks[d.trackId].approved == m.tracks[d.trackId].approved
  {
    hide Events, Stable, Commit;
    var t := m.tracks[d.trackId];
    var t' := t.(
      outputFrames := t.outputFrames + 1,
      enteredOutput := true,
      state := SettledState(t.state),
      stableOutputFrames := if Stable(cfg, previous, Center(d.bbox)) then t.stableOutputFrames + 1 else 1);
    var m' := Put(m, d.trackId, t');
    CommitCountsOne(m', d.trackId, StableInOutput, None, None, None);
  }

  lemma OutputStepCounts(cfg: Config, m: Machine, d: Detection, previous: Option<Point>)
    requires Placeable(m, d.trackId)
    ensures var m' := OutputStep(cfg, m, d, previous);
      && (Silent(m, m') || (m.tracks[d.trackId].approved && CountsOne(m, m', d.trackId)))
      && m'.tracks[d.trackId].approved == m.tracks[d.trackId].approved
  {
    hide Events, Settle;
    SettleCounts(cfg, m, d, previous);
  }

  lemma AdvanceCounts(cfg: Config, m: Machine, d: Detection, previous: Option<Point>)
    requires Placeable(m, d.trackId)
    ensures var m' := Advance(cfg, m, d, previous);
      && (Silent(m, m') || (m.tracks[d.trackId].approved && CountsOne(m, m', d.trackId)))
      && m'.tracks[d.trackId].approved == m.tracks[d.trackId].approved
  {
    hide Silent, CountsOne, SourceStep, GateStep, OutputStep;
    var m1 := SourceStep(cfg, m, d);
    var m2 := GateStep(cfg, m1, d, previous);
    var m3 := OutputStep(cfg, m2, d, previous);
    var a := m.tracks[d.trackId].approved;
    SourceStepSilent(cfg, m, d);
    GateStepSilent(cfg, m1, d, previous);
    OutputStepCounts(cfg, m2, d, previous);
    SilentFirst(m1, m2, m3, a, d.trackId);
    SilentFirst(m, m1, m3, a, d.trackId);
  }

  lemma JudgeCounts(cfg: Config, m: Machine, d: Detection, previous: Option<Point>)
    requires Placeable(m, d.trackId)
    ensures var m' := Judge(cfg, m, d, previous);
      && (Silent(m, m') || (m.tracks[d.trackId].approved && CountsOne(m, m', d.trackId)))
      && m'.tracks[d.trackId].approved == m.tracks[d.trackId].approved
  {
    hide Events, CountsOne, Classify, Advance;
    var m1 := Put(m, d.trackId, m.tracks[d.trackId].(lastValidInOutput := !d.ignoreHit && d.outputHit));
    var judged := Classify(cfg, m1, d);
    ClassifySilent(cfg, m1, d);
    if judged.Some? {
      AdvanceCounts(cfg, judged.value, d, previous);
      SilentFirst(m, judged.value, Advance(cfg, judged.value, d, previous), m.tracks[d.trackId].approved, d.trackId);
    }
  }

  // A detection counts its own track or none, and only an approved one.
  lemma DetectCounts(cfg: Config, m: Machine, d: Detection, approved: bool)
    ensures var m' := Detect(cfg, m, d, approved);
      && (Silent(m, m') || (approved && CountsOne(m, m', d.trackId)))
      && m'.tracks[d.trackId].approved == approved
  {
    hide Silent, CountsOne, Observe, Judge;
    var m1 := Observe(m, d, approved);
    var previous := PreviousCenter(m, d.trackId);
    ObserveSilent(m, d, approved);
    JudgeCounts(cfg, m1, d, previous);
    SilentFirst(m, m1, Judge(cfg, m1, d, previous), approved, d.trackId);
  }

  // ----- tracks that cannot be counted while they are missing -----

  predicate Idle(t: Track) {
    !t.approved || t.counted
  }

  lemma MissSilent(cfg: Config, m: Machine, id: int)
    requires id in m.tracks && Idle(m.tracks[id])
    ensures var m' := Miss(cfg, m, id);
      Silent(m, m') && (id in m'.tracks ==> Idle(m'.tracks[id]))
  {
    hide Events;
    EventsMore(MarkMissing(cfg, m, id).log, Forgotten(id));
  }

  // All tracks but those present are idle.
  ghost predicate IdleBut(m: Machine, present: set<int>) {
    forall j :: j in m.tracks && j !in present ==> Idle(m.tracks[j])
  }

  lemma {:induction false} MissAllSilent(cfg: Config, m: Machine, ids: seq<int>, present: set<int>)
    requires IdleBut(m, present)
    ensures var m' := MissAll(cfg, m, ids, present);
      && Silent(m, m') && IdleBut(m', present)
      && (forall j :: j in present && j in m.tracks ==> j in m'.tracks && m'.tracks[j] == m.tracks[j])
      && (forall j :: j in m'.tracks ==> j in m.tracks)
  {
    hide Miss, Events, Idle;
    if ids != [] {
      MissAllSilent(cfg, m, ids[..|ids| - 1], present);
      var m1 := MissAll(cfg, m, ids[..|ids| - 1], present);
      var id := ids[|ids| - 1];
      if id !in present && id in m1.tracks {
        MissSilent(cfg, m1, id);
        MissElsewhere(cfg, m1, id);
      }
    }
  }

  lemma MissElsewhere(cfg: Config, m: Machine, id: int)
    requires id in m.tracks
    ensures var m' := Miss(cfg, m, id);
      && (forall j :: j != id ==> (j in m'.tracks <==> j in m.tracks))
      && (forall j :: j != id && j in m.tracks ==> m'.tracks[j] == m.tracks[j])
  {
    hide MarkMissing, CountsOf;
    MarkMissingActs(cfg, m, id);
  }

  // Expiring tokens changes neither approval nor the counted flag.
  lemma {:induction false} ExpireAllSilent(cfg: Config, m: Machine, ids: seq<int>)
    ensures var m' := ExpireAll(cfg, m, ids);
      && Silent(m, m') && m'.tracks.Keys == m.tracks.Keys
      && (forall j :: j in m.tracks ==>
            m'.tracks[j].approved == m.tracks[j].approved && m'.tracks[j].counted == m.tracks[j].counted)
  {
    hide Events, Live, Age;
    if ids != [] {
      ExpireAllSilent(cfg, m, ids[..|ids| - 1]);
    }
  }

  // ----- whole updates -----

  lemma {:induction false} DetectAllSilent(cfg: Config, m: Machine, ds: seq<Detection>, approved: set<int>)
    requires forall d :: d in ds ==> d.trackId !in approved
    ensures var m' := DetectAll(cfg, m, ds, Some(approved));
      && Silent(m, m')
      && (forall j :: j in Ids(ds) ==> j in m'.tracks && Idle(m'.tracks[j]))
      && (forall j :: j !in Ids(ds) ==> (j in m'.tracks <==> j in m.tracks))
      && (forall j :: j !in Ids(ds) && j in m.tracks ==> m'.tracks[j] == m.tracks[j])
  {
    hide Detect, Events;
    if ds != [] {
      var front := ds[..|ds| - 1];
      var d := ds[|ds| - 1];
      assert ds == front + [d];
      assert Ids(ds) == Ids(front) + {d.trackId};
      DetectAllSilent(cfg, m, front, approved);
      var m1 := DetectAll(cfg, m, front, Some(approved));
      DetectCounts(cfg, m1, d, false);
      DetectActs(cfg, m1, d, false);
      hide Acts;
      DetectElsewhere(cfg, m1, d, false);
    }
  }

  lemma DetectElsewhere(cfg: Config, m: Machine, d: Detection, approved: bool)
    ensures var m' := Detect(cfg, m, d, approved);
      && d.trackId in m'.tracks
      && (forall j :: j != d.trackId ==> (j in m'.tracks <==> j in m.tracks))
      && (forall j :: j != d.trackId && j in m.tracks ==> m'.tracks[j] == m.tracks[j])
  {
    hide CountsOf, Detect;
    DetectActs(cfg, m, d, approved);
  }

  lemma BeginFrameSilent(m: Machine)
    ensures Silent(m.(frame := m.frame + 1), BeginFrame(m))
  {
    EventsMore(m.log, Tick);
  }

  // After the detections nothing else counts when the missing tracks are idle.
  lemma RestSilent(cfg: Config, m: Machine, present: set<int>)
    requires IdleBut(m, present)
    ensures var m1 := MissAll(cfg, m, m.order, present);
      var m' := ExpireAll(cfg, m1, m1.order);
      && Silent(m, m') && IdleBut(m', present)
      && (forall j :: j in present && j in m.tracks ==>
            j in m'.tracks && m'.tracks[j].approved == m.tracks[j].approved
            && m'.tracks[j].counted == m.tracks[j].counted)
  {
    hide Events, MissAll, ExpireAll;
    MissAllSilent(cfg, m, m.order, present);
    var m1 := MissAll(cfg, m, m.order, present);
    ExpireAllSilent(cfg, m1, m1.order);
  }

  // An update that detects no approved track and misses idle ones is silent.
  lemma UpdateSilent(cfg: Config, m: Machine, ds: seq<Detection>, approved: set<int>)
    requires IdleBut(m, Ids(ds)) && forall d :: d in ds ==> d.trackId !in approved
    ensures var m' := Update(cfg, m, ds, Some(approved));
      Silent(m.(frame := m.frame + 1), m') && IdleBut(m', {})
  {
    hide Events, MissAll, ExpireAll, DetectAll, Idle;
    var m0 := BeginFrame(m);
    BeginFrameSilent(m);
    DetectAllSilent(cfg, m0, ds, approved);
    var m1 := DetectAll(cfg, m0, ds, Some(approved));
    assert IdleBut(m1, {});
    RestSilent(cfg, m1, Ids(ds));
    QuietStays(cfg, m1, Ids(ds));
  }

  lemma QuietStays(cfg: Config, m: Machine, present: set<int>)
    requires IdleBut(m, {})
    ensures var m1 := MissAll(cfg, m, m.order, present); IdleBut(ExpireAll(cfg, m1, m1.order), {})
  {
    hide Events, MissAll, ExpireAll;
    MissAllSilent(cfg, m, m.order, present);
    RestSilent(cfg, m, present);
    var m1 := MissAll(cfg, m, m.order, present);
    ExpireAllSilent(cfg, m1, m1.order);
  }

  // How many of the events are counts of the id.
  ghost function CountsIn(events: seq<Event>, id: int): nat {
    if events == [] then 0
    else CountsIn(events[..|events| - 1], id) + if events[|events| - 1].trackId == id then 1 else 0
  }

  lemma {:induction false} CountsOfIsCountsIn(log: seq<Entry>, id: int)
    ensures CountsOf(log, id) == CountsIn(Events(log), id)
  {
    if log != [] {
      CountsOfIsCountsIn(log[..|log| - 1], id);
      var e := log[|log| - 1];
      if e.Emitted? {
        var events := Events(log);
        assert events[..|events| - 1] == Events(log[..|log| - 1]);
      }
    }
  }

  lemma CountsChange(m: Machine, m': Machine, id: int)
    ensures Silent(m, m') ==> CountsOf(m'.log, id) == CountsOf(m.log, id)
    ensures CountsOne(m, m', id) ==> CountsOf(m'.log, id) == CountsOf(m.log, id) + 1
  {
    CountsOfIsCountsIn(m.log, id);
    CountsOfIsCountsIn(m'.log, id);
    hide CountsOf, Events;
  }

  // An update that sees one track the counter does not know counts that track
  // or none, and its memory knows which.
  lemma UpdateOfNewTrack(cfg: Config, m: Machine, d: Detection, approved: set<int>)
    requires IdleBut(m, {}) && d.trackId !in m.tracks
    ensures var m' := Update(cfg, m, [d], Some(approved));
      && d.trackId in m'.tracks && IdleBut(m', {d.trackId})
      && (if m'.tracks[d.trackId].counted then CountsOne(m.(frame := m.frame + 1), m', d.trackId)
          else Silent(m.(frame := m.frame + 1), m'))
  {
    hide Events, Idle, CountsOf, Detect, MissAll, ExpireAll, CountsOne;
    var id := d.trackId;
    var m0 := BeginFrame(m);
    BeginFrameSilent(m);
    var a := id in approved;
    OneDetection(cfg, m0, d, approved);
    var m1 := Detect(cfg, m0, d, a);
    DetectCounts(cfg, m0, d, a);
    DetectElsewhere(cfg, m0, d, a);
    DetectActs(cfg, m0, d, a);
    CountsChange(m0, m1, id);
    assert Unremembered(m1, id) == Unremembered(m0, id);
    assert Ids([d]) == {id};
    RestSilent(cfg, m1, {id});
    var m' := Update(cfg, m, [d], Some(approved));
    ThenSilent(m0, m1, m', id);
    ThenSilent(m.(frame := m.frame + 1), m0, m', id);
  }

  lemma OneDetection(cfg: Config, m: Machine, d: Detection, approved: set<int>)
    ensures DetectAll(cfg, m, [d], Some(approved)) == Detect(cfg, m, d, d.trackId in approved)
  {
    hide Detect;
    assert [d][..0] == [];
    assert DetectAll(cfg, m, [], Some(approved)) == m;
  }

  lemma ThenSilent(m: Machine, m': Machine, m'': Machine, id: int)
    ensures Silent(m, m') && Silent(m', m'') ==> Silent(m, m'')
    ensures Silent(m, m') && CountsOne(m', m'', id) ==> CountsOne(m, m'', id)
    ensures CountsOne(m, m', id) && Silent(m', m'') ==> CountsOne(m, m'', id)
  {
    hide Events;
  }

  // ----- delivery chains -----

  // A new chain counts a track that is not counted yet, unless a resident that
  // is young enough lies there.
  lemma ChainCounts(cfg: Config, m: Machine, chainId: string, id: int, bbox: Box, sourceTrackId: Option<int>)
    requires id in m.tracks && !m.tracks[id].counted && chainId !in m.chains
    requires forall r :: r in m.residents ==> m.frame - r.createdFrame > cfg.dedupeWindow
    ensures var m' := CommitChain(cfg, m, chainId, id, bbox, sourceTrackId);
      && CountsOne(m.(chains := m.chains + {chainId}), m', id)
      && id in m'.tracks && m'.tracks[id].counted
  {
    hide Events, MatchingResident, Commit, CountsOne;
    NearIsResident(cfg, m.residents, bbox);
    var m1 := m.(chains := m.chains + {chainId});
    var m2 := Approach(cfg, m1, id, bbox);
    EventsMore(m1.log, Placed(id, Center(bbox)));
    var (m3, provenance) := Provide(m2, id, sourceTrackId);
    ProvideQuietly(m2, id, sourceTrackId);
    CommitCountsOne(m3, id, ApprovedDeliveryChain, Some(chainId), sourceTrackId, Some(provenance));
    ThenSilent(m1, m3, CommitChain(cfg, m, chainId, id, bbox, sourceTrackId), id);
  }

  lemma ProvideQuietly(m: Machine, id: int, sourceTrackId: Option<int>)
    requires Placeable(m, id)
    ensures Silent(m, Provide(m, id, sourceTrackId).0) && Placeable(Provide(m, id, sourceTrackId).0, id)
  {
    hide Events;
  }

  lemma {:induction false} NearIsResident(cfg: Config, residents: seq<Resident>, bbox: Box)
    ensures var near := MatchingResident(cfg, residents, bbox); near.Some? ==> near.value in residents
  {
    hide MatchesResident, DistanceSq;
    if residents != [] {
      NearIsResident(cfg, residents[..|residents| - 1], bbox);
    }
  }

  // Any chain: residents are old ones or made now.
  lemma ChainChanges(cfg: Config, m: Machine, chainId: string, id: int, bbox: Box, sourceTrackId: Option<int>)
    ensures var m' := CommitChain(cfg, m, chainId, id, bbox, sourceTrackId);
      && m'.frame == m.frame && m'.chains == m.chains + {chainId}
      && (forall r :: r in m'.residents ==> r in m.residents || r.createdFrame == m.frame)
  {
    hide Events, MatchingResident, Commit;
    if chainId !in m.chains {
      var m1 := Remember(m, id).(chains := m.chains + {chainId});
      var m2 := Approach(cfg, m1, id, bbox);
      var (m3, provenance) := Provide(m2, id, sourceTrackId);
      ProvideQuietly(m2, id, sourceTrackId);
      CommitCountsOne(m3, id, ApprovedDeliveryChain, Some(chainId), sourceTrackId, Some(provenance));
      ResidentsOfOne(m3, Commit(m3, id, ApprovedDeliveryChain, Some(chainId), sourceTrackId, Some(provenance)), id);
    }
  }

  lemma ResidentsOfOne(m: Machine, m': Machine, id: int)
    requires CountsOne(m, m', id)
    ensures forall r :: r in m'.residents ==> r in m.residents || r.createdFrame == m.frame
  {
    hide Events;
    forall r | r in m'.residents
      ensures r in m.residents || r.createdFrame == m.frame
    {
      var k :| 0 <= k < |m'.residents| && m'.residents[k] == r;
      if k < |m.residents| {
        assert m'.residents[..|m.residents|][k] == r;
      }
    }
  }
}
