// What the detections of other tracks, and the rest of an update, leave of a
// track whose token no other track holds.
module CountBystanders {
  import opened Prelude
  import opened Geometry
  import opened CountModel
  import opened CountEffects
  import opened CountWrites

  // The tokens that tracks hold exist.
  ghost predicate Holding(m: Machine) {
    forall j :: j in m.tracks && m.tracks[j].token.Some? ==> m.tracks[j].token.value < |m.tokens|
  }

  // No other track holds the token of this one.
  ghost predicate Sole(m: Machine, id: int) {
    && id in m.tracks
    && (forall j :: j in m.tracks && m.tracks[j].token.Some? ==> m.tracks[j].token.value < |m.tokens|)
    && (forall j :: j in m.tracks && j != id && m.tracks[id].token.Some? ==> m.tracks[j].token != m.tracks[id].token)
  }

  // m' differs from m in nothing that bears on track id.
  ghost predicate Spares(m: Machine, m': Machine, id: int) {
    && Sole(m, id) && Sole(m', id)
    && m'.tracks[id] == m.tracks[id] && m'.frame == m.frame
    && (m.tracks[id].token.Some? ==> m'.tokens[m.tracks[id].token.value] == m.tokens[m.tracks[id].token.value])
    && CountsOf(m'.log, id) == CountsOf(m.log, id)
  }

  // m' differs from m in nothing that bears on track id, which m may not know yet.
  ghost predicate Leaves(m: Machine, m': Machine, id: int) {
    if id in m.tracks then Spares(m, m', id)
    else Holding(m') && id !in m'.tracks && m'.frame == m.frame && CountsOf(m'.log, id) == CountsOf(m.log, id)
  }

  // No other track holds the token of this one, if there is one.
  ghost predicate Apart(m: Machine, id: int) {
    if id in m.tracks then Sole(m, id) else Holding(m)
  }

  // ----- what detecting a track does to the others -----

  // The detection is the first judged one of its track, in the output outside
  // the source: such a track may take over the token of another.
  predicate Newcomer(m: Machine, d: Detection) {
    !d.ignoreHit && d.outputHit && !d.sourceHit && (d.trackId in m.tracks ==> m.tracks[d.trackId].state.NewTrack?)
  }

  function Held(m: Machine, j: int): Option<nat> {
    if j in m.tracks then m.tracks[j].token else None
  }

  // A step on track j touches no token but the one it holds or a new one.
  ghost predicate Minds(m: Machine, m': Machine, j: int) {
    && m'.frame == m.frame && |m.tokens| <= |m'.tokens|
    && (Held(m', j) == Held(m, j) || (Held(m', j).Some? && |m.tokens| <= Held(m', j).value < |m'.tokens|))
    && (forall k :: 0 <= k < |m.tokens| && Held(m, j) != Some(k) ==> m'.tokens[k] == m.tokens[k])
    && (j in m.tracks && !m.tracks[j].state.NewTrack? ==> j in m'.tracks && !m'.tracks[j].state.NewTrack?)
  }

  lemma MindsTransitive(m: Machine, m': Machine, m'': Machine, j: int)
    requires Minds(m, m', j) && Minds(m', m'', j)
    ensures Minds(m, m'', j)
  {
  }

  lemma PutMinds(m: Machine, j: int, t: Track)
    requires j in m.tracks && t.token == m.tracks[j].token
    requires t.state.NewTrack? ==> m.tracks[j].state.NewTrack?
    ensures Minds(m, Put(m, j, t), j)
  {
  }

  lemma ObserveMinds(m: Machine, d: Detection, approved: bool)
    ensures var m' := Observe(m, d, approved);
      Minds(m, m', d.trackId) && (Newcomer(m', d) <==> Newcomer(m, d))
  {
  }

  lemma ClassifyMinds(cfg: Config, m: Machine, d: Detection)
    requires Placeable(m, d.trackId) && !d.ignoreHit && !Newcomer(m, d)
    ensures Classify(cfg, m, d).Some? ==> Minds(m, Classify(cfg, m, d).value, d.trackId)
  {
    hide MatchingResident, Lender;
  }

  lemma SourceStepMinds(cfg: Config, m: Machine, d: Detection)
    requires Placeable(m, d.trackId)
    ensures Minds(m, SourceStep(cfg, m, d), d.trackId)
  {
  }

  lemma GateStepMinds(cfg: Config, m: Machine, d: Detection, previous: Option<Point>)
    requires Placeable(m, d.trackId)
    ensures Minds(m, GateStep(cfg, m, d, previous), d.trackId)
  {
    hide GateCrossed;
  }

  lemma SettleMinds(cfg: Config, m: Machine, d: Detection, previous: Option<Point>)
    requires Placeable(m, d.trackId)
    ensures Minds(m, Settle(cfg, m, d, previous), d.trackId)
  {
    hide Stable, Center, CountEvent, Age;
  }

  lemma OutputStepMinds(cfg: Config, m: Machine, d: Detection, previous: Option<Point>)
    requires Placeable(m, d.trackId)
    ensures Minds(m, OutputStep(cfg, m, d, previous), d.trackId)
  {
    hide Settle;
    SettleMinds(cfg, m, d, previous);
  }

  lemma AdvanceMinds(cfg: Config, m: Machine, d: Detection, previous: Option<Point>)
    requires Placeable(m, d.trackId)
    ensures Minds(m, Advance(cfg, m, d, previous), d.trackId)
  {
    hide Minds, SourceStep, GateStep, OutputStep, Placeable;
    var m1 := SourceStep(cfg, m, d);
    var m2 := GateStep(cfg, m1, d, previous);
    SourceStepMinds(cfg, m, d);
    GateStepMinds(cfg, m1, d, previous);
    OutputStepMinds(cfg, m2, d, previous);
    MindsTransitive(m, m1, m2, d.trackId);
    MindsTransitive(m, m2, OutputStep(cfg, m2, d, previous), d.trackId);
  }

  lemma JudgeMinds(cfg: Config, m: Machine, d: Detection, previous: Option<Point>)
    requires Placeable(m, d.trackId) && !Newcomer(m, d)
    ensures Minds(m, Judge(cfg, m, d, previous), d.trackId)
  {
    hide Minds, Classify, Advance;
    var id := d.trackId;
    var t := m.tracks[id].(lastValidInOutput := !d.ignoreHit && d.outputHit);
    var m1 := Put(m, id, t);
    PutMinds(m, id, t);
    if !d.ignoreHit {
      var judged := Classify(cfg, m1, d);
      if judged.None? {
        PutMinds(m1, id, t.(state := ResidentOutputObject));
        MindsTransitive(m, m1, Put(m1, id, t.(state := ResidentOutputObject)), id);
      } else {
        ClassifyMinds(cfg, m1, d);
        AdvanceMinds(cfg, judged.value, d, previous);
        MindsTransitive(m, m1, judged.value, id);
        MindsTransitive(m, judged.value, Advance(cfg, judged.value, d, previous), id);
      }
    }
  }

  lemma DetectMinds(cfg: Config, m: Machine, d: Detection, approved: bool)
    requires !Newcomer(m, d)
    ensures Minds(m, Detect(cfg, m, d, approved), d.trackId)
  {
    hide Minds, Newcomer, Observe, Judge;
    var m1 := Observe(m, d, approved);
    ObserveMinds(m, d, approved);
    JudgeMinds(cfg, m1, d, PreviousCenter(m, d.trackId));
    MindsTransitive(m, m1, Judge(cfg, m1, d, PreviousCenter(m, d.trackId)), d.trackId);
  }

  lemma MindingLeaves(m: Machine, m': Machine, j: int, id: int)
    requires Acts(m, m', j) && Minds(m, m', j) && Apart(m, id) && j != id
    ensures Leaves(m, m', id) && Apart(m', id)
  {
    hide CountsOf;
    assert Unremembered(m', id) == Unremembered(m, id);
  }

  // Who is no newcomer does not become one.
  ghost predicate NoNewNewcomers(m: Machine, m': Machine) {
    forall d :: Newcomer(m', d) ==> Newcomer(m, d)
  }

  lemma StillNoNewcomers(m: Machine, m': Machine, j: int)
    requires Acts(m, m', j) && Minds(m, m', j)
    ensures NoNewNewcomers(m, m')
  {
    hide CountsOf, Unremembered;
  }

  // Detections of other tracks, no newcomer among them, leave the track alone.
  lemma {:induction false} DetectAllLeaves(cfg: Config, m: Machine, ds: seq<Detection>, approved: Option<set<int>>,
                                           id: int)
    requires Apart(m, id) && forall d :: d in ds ==> d.trackId != id && !Newcomer(m, d)
    ensures var m' := DetectAll(cfg, m, ds, approved);
      Leaves(m, m', id) && Apart(m', id) && NoNewNewcomers(m, m')
  {
    hide Leaves, Apart, Detect, Newcomer, Acts, Minds;
    LeavesItself(m, id);
    if ds != [] {
      var front := ds[..|ds| - 1];
      var d := ds[|ds| - 1];
      DetectAllLeaves(cfg, m, front, approved, id);
      var m1 := DetectAll(cfg, m, front, approved);
      var a := approved.None? || d.trackId in approved.value;
      DetectActs(cfg, m1, d, a);
      DetectMinds(cfg, m1, d, a);
      MindingLeaves(m1, Detect(cfg, m1, d, a), d.trackId, id);
      StillNoNewcomers(m1, Detect(cfg, m1, d, a), d.trackId);
      LeavesTransitive(m, m1, Detect(cfg, m1, d, a), id);
    }
  }

  lemma LeavesItself(m: Machine, id: int)
    requires Apart(m, id)
    ensures Leaves(m, m, id)
  {
    hide CountsOf;
  }

  lemma LeavesTransitive(m: Machine, m': Machine, m'': Machine, id: int)
    requires Leaves(m, m', id) && Leaves(m', m'', id)
    ensures Leaves(m, m'', id)
  {
    hide CountsOf, Spares, Sole, Holding;
    if id in m.tracks {
      SparedIsSole(m, m', id);
      SoleHolds(m', id);
      SparesTransitive(m, m', m'', id);
    }
  }

  lemma {:induction false} DetectAllInTurn(cfg: Config, m: Machine, front: seq<Detection>, back: seq<Detection>,
                                           approved: Option<set<int>>)
    ensures DetectAll(cfg, m, front + back, approved)
            == DetectAll(cfg, DetectAll(cfg, m, front, approved), back, approved)
  {
    hide Detect;
    if back == [] {
      assert front + back == front;
    } else {
      var n := |back| - 1;
      assert (front + back)[..|front + back| - 1] == front + back[..n];
      DetectAllInTurn(cfg, m, front, back[..n], approved);
    }
  }

  // ----- what the rest of an update does to the other tracks -----

  lemma MarkMissingSpares(cfg: Config, m: Machine, j: int, id: int)
    requires Sole(m, id) && j in m.tracks && j != id
    ensures Spares(m, MarkMissing(cfg, m, j), id) && j in MarkMissing(cfg, m, j).tracks
  {
    hide CountsOf;
    var t := m.tracks[j].(missing := m.tracks[j].missing + 1);
    if ReadyToDisappear(cfg, m, t) && t.missing >= cfg.disappearFrames {
      var e := CountEvent(Put(m, j, t), j, DisappearedInOutput, None, None, None);
      CountsOfMore(m.log, Emitted(e, Age(m, t)), id);
    }
  }

  lemma MissSpares(cfg: Config, m: Machine, j: int, id: int)
    requires Sole(m, id) && j in m.tracks && j != id
    ensures Spares(m, Miss(cfg, m, j), id)
  {
    hide CountsOf, MarkMissing;
    MarkMissingSpares(cfg, m, j, id);
    CountsOfMore(MarkMissing(cfg, m, j).log, Forgotten(j), id);
  }

  lemma SparesTransitive(m: Machine, m': Machine, m'': Machine, id: int)
    requires Spares(m, m', id) && Spares(m', m'', id)
    ensures Spares(m, m'', id)
  {
    hide CountsOf, Sole;
    SoleHolds(m, id);
    SoleHolds(m', id);
    SoleHolds(m'', id);
  }

  lemma SoleHolds(m: Machine, id: int)
    requires Sole(m, id)
    ensures id in m.tracks && (m.tracks[id].token.Some? ==> m.tracks[id].token.value < |m.tokens|)
  {
  }

  lemma SparesItself(m: Machine, id: int)
    requires Sole(m, id)
    ensures Spares(m, m, id)
  {
  }

  lemma {:induction false} MissAllSpares(cfg: Config, m: Machine, ids: seq<int>, present: set<int>, id: int)
    requires Sole(m, id) && id in present
    ensures Spares(m, MissAll(cfg, m, ids, present), id)
  {
    hide Spares, Sole, Miss;
    SparesItself(m, id);
    if ids != [] {
      var m1 := MissAll(cfg, m, ids[..|ids| - 1], present);
      var j := ids[|ids| - 1];
      MissAllSpares(cfg, m, ids[..|ids| - 1], present, id);
      if j !in present && j in m1.tracks {
        SparedIsSole(m, m1, id);
        MissSpares(cfg, m1, j, id);
        SparesTransitive(m, m1, Miss(cfg, m1, j), id);
      }
    }
  }

  lemma SparedIsSole(m: Machine, m': Machine, id: int)
    requires Spares(m, m', id)
    ensures Sole(m', id)
  {
  }

  // Expiring leaves the track alone.
  ghost predicate Young(cfg: Config, m: Machine, id: int)
    requires id in m.tracks
  {
    Age(m, m.tracks[id]) <= cfg.tokenTtl || m.tracks[id].enteredOutput || m.tracks[id].counted
  }

  lemma ExpireSpares(cfg: Config, m: Machine, j: int, id: int)
    requires Sole(m, id) && j in m.tracks && Young(cfg, m, id)
    ensures Spares(m, Expire(cfg, m, j), id) && Young(cfg, Expire(cfg, m, j), id)
  {
    hide CountsOf;
  }

  lemma {:induction false} ExpireAllSpares(cfg: Config, m: Machine, ids: seq<int>, id: int)
    requires Sole(m, id) && Young(cfg, m, id)
    ensures Spares(m, ExpireAll(cfg, m, ids), id) && id in ExpireAll(cfg, m, ids).tracks
    ensures Young(cfg, ExpireAll(cfg, m, ids), id)
  {
    hide Spares, Expire, Sole, Young;
    SparesItself(m, id);
    SoleHolds(m, id);
    if ids != [] {
      var m1 := ExpireAll(cfg, m, ids[..|ids| - 1]);
      var j := ids[|ids| - 1];
      ExpireAllSpares(cfg, m, ids[..|ids| - 1], id);
      if j in m1.tracks {
        SparedIsSole(m, m1, id);
        ExpireSpares(cfg, m1, j, id);
        SparedIsSole(m1, Expire(cfg, m1, j), id);
        SoleHolds(Expire(cfg, m1, j), id);
        SparesTransitive(m, m1, Expire(cfg, m1, j), id);
      }
    }
  }

  lemma SparedIsYoung(cfg: Config, m: Machine, m': Machine, id: int)
    requires Spares(m, m', id) && Young(cfg, m, id)
    ensures Young(cfg, m', id)
  {
  }

  // ----- a frame with other tracks -----

  predicate Approves(approved: Option<set<int>>, id: int) {
    approved.None? || id in approved.value
  }

  // Detection k, and it alone, is d and of its track.
  ghost predicate OnlyAt(ds: seq<Detection>, d: Detection, k: nat) {
    k < |ds| && ds[k] == d && forall h :: 0 <= h < |ds| && h != k ==> ds[h].trackId != d.trackId
  }

  // The detection is there, and no other of its track.
  ghost predicate Shows(ds: seq<Detection>, d: Detection) {
    exists k: nat :: OnlyAt(ds, d, k)
  }

  // The other detections are of tracks that are no newcomers.
  ghost predicate Bystanders(m: Machine, ds: seq<Detection>, id: int) {
    forall d :: d in ds && d.trackId != id ==> !Newcomer(m, d)
  }

  // Before the track's turn.
  function BeforeTurn(cfg: Config, m: Machine, ds: seq<Detection>, approved: Option<set<int>>, k: nat): Machine
    requires k < |ds|
  {
    DetectAll(cfg, BeginFrame(m), ds[..k], approved)
  }

  // The track's turn.
  function Turn(cfg: Config, m: Machine, ds: seq<Detection>, approved: Option<set<int>>, k: nat): Machine
    requires k < |ds|
  {
    Detect(cfg, BeforeTurn(cfg, m, ds, approved, k), ds[k], Approves(approved, ds[k].trackId))
  }

  lemma BeforeTurnLeaves(cfg: Config, m: Machine, ds: seq<Detection>, approved: Option<set<int>>, d: Detection, k: nat)
    requires OnlyAt(ds, d, k) && Bystanders(m, ds, d.trackId) && Apart(m, d.trackId)
    ensures Leaves(BeginFrame(m), BeforeTurn(cfg, m, ds, approved, k), d.trackId)
    ensures NoNewNewcomers(m, BeforeTurn(cfg, m, ds, approved, k))
  {
    hide Leaves, DetectAll, Newcomer;
    BeginFrameLeaves(m, d.trackId);
    forall e | e in ds[..k]
      ensures e.trackId != d.trackId && !Newcomer(BeginFrame(m), e)
    {
      assert e in ds;
    }
    DetectAllLeaves(cfg, BeginFrame(m), ds[..k], approved, d.trackId);
  }

  lemma BeginFrameLeaves(m: Machine, id: int)
    requires Apart(m, id)
    ensures Apart(BeginFrame(m), id) && NoNewNewcomers(m, BeginFrame(m))
    ensures CountsOf(BeginFrame(m).log, id) == CountsOf(m.log, id)
  {
    CountsOfMore(m.log, Tick, id);
  }

  // The rest of an update leaves what the track's turn has made of it.
  lemma UpdateSpares(cfg: Config, m: Machine, ds: seq<Detection>, approved: Option<set<int>>, d: Detection, k: nat)
    requires OnlyAt(ds, d, k) && Bystanders(m, ds, d.trackId)
    requires NoNewNewcomers(m, BeforeTurn(cfg, m, ds, approved, k))
    requires var m1 := Turn(cfg, m, ds, approved, k); Sole(m1, d.trackId) && Young(cfg, m1, d.trackId)
    ensures Spares(Turn(cfg, m, ds, approved, k), Update(cfg, m, ds, approved), d.trackId)
  {
    hide Spares, Sole, Young, Detect, DetectAll, MissAll, ExpireAll, Newcomer;
    var id := d.trackId;
    var m1 := Turn(cfg, m, ds, approved, k);
    AfterTurnSpares(cfg, m, ds, approved, d, k);
    var m2 := DetectAll(cfg, BeginFrame(m), ds, approved);
    SparedIsSole(m1, m2, id);
    assert ds[k] in ds;
    MissAllSpares(cfg, m2, m2.order, Ids(ds), id);
    var m3 := MissAll(cfg, m2, m2.order, Ids(ds));
    SparesTransitive(m1, m2, m3, id);
    SparedIsSole(m1, m3, id);
    SoleHolds(m3, id);
    SparedIsYoung(cfg, m1, m3, id);
    ExpireAllSpares(cfg, m3, m3.order, id);
    SparesTransitive(m1, m3, ExpireAll(cfg, m3, m3.order), id);
  }

  lemma AfterTurnSpares(cfg: Config, m: Machine, ds: seq<Detection>, approved: Option<set<int>>, d: Detection, k: nat)
    requires OnlyAt(ds, d, k) && Bystanders(m, ds, d.trackId)
    requires NoNewNewcomers(m, BeforeTurn(cfg, m, ds, approved, k))
    requires Sole(Turn(cfg, m, ds, approved, k), d.trackId)
    ensures Spares(Turn(cfg, m, ds, approved, k), DetectAll(cfg, BeginFrame(m), ds, approved), d.trackId)
  {
    hide Spares, Sole, Detect, DetectAll, Newcomer;
    var id := d.trackId;
    var m1 := Turn(cfg, m, ds, approved, k);
    var m0 := BeforeTurn(cfg, m, ds, approved, k);
    SoleHolds(m1, id);
    forall e | e in ds[k + 1..]
      ensures e.trackId != id && !Newcomer(m1, e)
    {
      assert e in ds;
      OthersAsBefore(cfg, m0, d, Approves(approved, id), e);
    }
    DetectAllLeaves(cfg, m1, ds[k + 1..], approved, id);
    DetectAllInTurn(cfg, BeginFrame(m), ds[..k], ds[k..], approved);
    DetectAllInTurn(cfg, m0, [d], ds[k + 1..], approved);
    DetectAlone(cfg, m0, d, approved);
    assert ds[..k] + ds[k..] == ds && [d] + ds[k + 1..] == ds[k..];
  }

  lemma OthersAsBefore(cfg: Config, m: Machine, d: Detection, approved: bool, e: Detection)
    requires e.trackId != d.trackId && !Newcomer(m, e)
    ensures !Newcomer(Detect(cfg, m, d, approved), e)
  {
    hide Detect, CountsOf, Unremembered;
    DetectActs(cfg, m, d, approved);
  }

  lemma DetectAlone(cfg: Config, m: Machine, d: Detection, approved: Option<set<int>>)
    ensures DetectAll(cfg, m, [d], approved) == Detect(cfg, m, d, Approves(approved, d.trackId))
  {
    hide Detect;
    assert [d][..0] == [];
    assert DetectAll(cfg, m, [], approved) == m;
  }

  lemma DetectAllInTurns(cfg: Config, m: Machine, ds: seq<Detection>, approved: Option<set<int>>, d: Detection, k: nat)
    requires OnlyAt(ds, d, k)
    ensures DetectAll(cfg, BeginFrame(m), ds, approved)
            == DetectAll(cfg, Turn(cfg, m, ds, approved, k), ds[k + 1..], approved)
  {
    hide Detect, DetectAll;
    DetectAllInTurn(cfg, BeginFrame(m), ds[..k], ds[k..], approved);
    DetectAllInTurn(cfg, BeforeTurn(cfg, m, ds, approved, k), [d], ds[k + 1..], approved);
    DetectAlone(cfg, BeforeTurn(cfg, m, ds, approved, k), d, approved);
    assert ds[..k] + ds[k..] == ds && [d] + ds[k + 1..] == ds[k..];
  }

  lemma UpdateGoesOnFrom(cfg: Config, m: Machine, ds: seq<Detection>, approved: Option<set<int>>, d: Detection, k: nat)
    requires OnlyAt(ds, d, k)
    ensures Turn(cfg, m, ds, approved, k).log <= Update(cfg, m, ds, approved).log
  {
    hide Detect, DetectAll, MissAll, ExpireAll;
    var m1 := Turn(cfg, m, ds, approved, k);
    DetectAllInTurns(cfg, m, ds, approved, d, k);
    DetectAllWrites(cfg, m1, ds[k + 1..], approved, ds[k + 1..]);
    var m2 := DetectAll(cfg, m1, ds[k + 1..], approved);
    MissAllWrites(cfg, m2, m2.order, ds, approved);
    var m3 := MissAll(cfg, m2, m2.order, Ids(ds));
    ExpireAllWrites(cfg, m3, m3.order);
  }
}
