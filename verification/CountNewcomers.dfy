// What becomes of a track that is judged for the first time in the output: beside
// a resident, or without a token to inherit, it is never counted; else it takes
// over the token of the lender that is missing for the fewest frames.
module CountNewcomers {
  import opened Prelude
  import opened Geometry
  import opened CountModel
  import opened CountHistory
  import opened CountInvariant
  import opened CountEffects
  import opened CountTheorems
  import opened CountChoices
  import opened CountBystanders
  import opened CountQuiet
  import opened CountWrites

  // The track is unknown, or so far it was only seen in ignore zones; it holds no
  // token that can be spent.
  ghost predicate NeverJudged(m: Machine, id: int) {
    id in m.tracks ==>
      && m.tracks[id].state.NewTrack?
      && (m.tracks[id].token.Some? ==>
            m.tracks[id].token.value < |m.tokens| && m.tokens[m.tracks[id].token.value].consumed)
  }

  // Track j holds a token that can be spent and is young enough.
  ghost predicate HasTokenToLend(cfg: Config, m: Machine, j: int) {
    && j in m.tracks && !m.tracks[j].counted
    && m.tracks[j].token.Some? && m.tracks[j].token.value < |m.tokens|
    && var token := m.tokens[m.tracks[j].token.value];
    && !token.consumed && m.frame - token.lastFrame <= cfg.tokenTtl
  }

  ghost predicate Beside(cfg: Config, residents: seq<Resident>, box: Box) {
    exists k :: 0 <= k < |residents|
      && (Within(Center(box), residents[k].center, cfg.residentDistance)
          || Overlap(box, residents[k].bbox) >= cfg.residentOverlap)
  }

  // The log goes on with the sighting and nothing else.
  ghost predicate StopsThere(m: Machine, m': Machine, d: Detection) {
    && OutputOnly(m', d.trackId) && m'.log == m.log + [Detected(d.trackId, Center(d.bbox))]
    && m'.tracks[d.trackId].counted == (d.trackId in m.tracks && m.tracks[d.trackId].counted)
  }

  // The track takes over the token of lender j.
  ghost predicate TakesOver(cfg: Config, m: Machine, m': Machine, d: Detection, j: int) {
    var id := d.trackId;
    && j != id && HasTokenToLend(cfg, m, j)
    && (forall i :: i != id && HasTokenToLend(cfg, m, i) ==> m.tracks[j].missing <= m.tracks[i].missing)
    && m.log + [Detected(id, Center(d.bbox)), Inherited(id, j)] <= m'.log
    && id in m'.tracks && m'.tracks[id].token == m.tracks[j].token
    && (m.tracks[j].crossedGate ==> m'.tracks[id].crossedGate)
    && m'.tracks[id].sourceFrames >= cfg.sourceMinFrames
    && IsFor(m', m.tracks[j].token, id)
  }

  // The token is the track's now.
  predicate IsFor(m: Machine, token: Option<nat>, id: int) {
    token.Some? && token.value < |m.tokens| && m.tokens[token.value].trackId == id
  }

  ghost predicate AnyLender(cfg: Config, m: Machine, id: int) {
    exists j :: j != id && HasTokenToLend(cfg, m, j)
  }

  // Some lender's token is taken over, and the log says which.
  ghost predicate TakesOne(cfg: Config, m: Machine, m': Machine, d: Detection, log: seq<Entry>) {
    exists j :: TakesOver(cfg, m, m', d, j) && |m.log| + 1 < |log| && log[|m.log| + 1] == Inherited(d.trackId, j)
  }

  lemma ResidentsBeside(cfg: Config, residents: seq<Resident>, box: Box)
    ensures MatchingResident(cfg, residents, box).Some? <==> Beside(cfg, residents, box)
  {
    hide Within, Overlap, Center;
    MatchingResidentIsNearest(cfg, residents, box);
  }

  lemma LenderHasToken(cfg: Config, m: Machine, j: int, id: int)
    requires j != id
    ensures CanLend(cfg, m, j, id) <==> HasTokenToLend(cfg, m, j)
  {
  }

  // Observing a track leaves the others' tokens alone when it holds none itself.
  lemma ObservedLenders(cfg: Config, m: Machine, d: Detection, approved: bool)
    requires NeverJudged(m, d.trackId)
    ensures var m0 := Observe(m, d, approved);
      && m0.residents == m.residents && m0.tokens == m.tokens && m0.frame == m.frame
      && m0.log == m.log + [Detected(d.trackId, Center(d.bbox))]
      && NeverJudged(m0, d.trackId)
      && m0.order == (if d.trackId in m.tracks then m.order else m.order + [d.trackId])
      && (forall j :: j != d.trackId && j in m.tracks ==> j in m0.tracks && m0.tracks[j] == m.tracks[j])
      && (forall j :: j != d.trackId && j in m0.tracks ==> j in m.tracks)
      && m0.tracks[d.trackId].counted == (d.trackId in m.tracks && m.tracks[d.trackId].counted)
  {
  }

  // What a detection does to a track that is judged for the first time, in the
  // output.
  lemma FirstJudgedInOutput(cfg: Config, m: Machine, d: Detection, approved: bool)
    requires NeverJudged(m, d.trackId) && !d.ignoreHit && d.outputHit
    requires forall j :: j in m.tracks <==> j in m.order
    ensures var m' := Detect(cfg, m, d, approved);
      if Beside(cfg, m.residents, d.bbox) || (!d.sourceHit && !AnyLender(cfg, m, d.trackId)) then StopsThere(m, m', d)
      else !d.sourceHit ==> TakesOne(cfg, m, m', d, m'.log)
  {
    hide Center, Observe, Judge, MatchingResident, Lender, AnyLender, Beside, HasTokenToLend, NeverJudged, TakesOne,
      StopsThere, Advance, Classify;
    var id := d.trackId;
    var m0 := Observe(m, d, approved);
    ObservedLenders(cfg, m, d, approved);
    StillUnjudged(m0, id);
    ResidentsBeside(cfg, m.residents, d.bbox);
    var m1 := Put(m0, id, m0.tracks[id].(lastValidInOutput := true));
    LendersAgree(cfg, m, m1, id);
    NoLenderNone(cfg, m, id);
    JudgedFirst(cfg, m0, d, PreviousCenter(m, id));
    if !Beside(cfg, m.residents, d.bbox) && !d.sourceHit && AnyLender(cfg, m, id) {
      InheritsAtOnce(cfg, m, m1, d, PreviousCenter(m, id));
    } else if Beside(cfg, m.residents, d.bbox) || !d.sourceHit {
      StopsAtOnce(m, m0, d);
    }
  }

  lemma StopsAtOnce(m: Machine, m0: Machine, d: Detection)
    requires d.trackId in m0.tracks && NeverJudged(m0, d.trackId)
    requires m0.log == m.log + [Detected(d.trackId, Center(d.bbox))]
    requires m0.tracks[d.trackId].counted == (d.trackId in m.tracks && m.tracks[d.trackId].counted)
    ensures var t := m0.tracks[d.trackId].(lastValidInOutput := true, state := ResidentOutputObject);
      StopsThere(m, Put(m0, d.trackId, t), d)
  {
    hide Center;
  }

  lemma InheritsAtOnce(cfg: Config, m: Machine, m1: Machine, d: Detection, previous: Option<Point>)
    requires Placeable(m1, d.trackId) && m1.tracks[d.trackId].state.NewTrack? && d.outputHit && !d.sourceHit
    requires m1.log == m.log + [Detected(d.trackId, Center(d.bbox))]
    requires MatchingResident(cfg, m1.residents, d.bbox).None?
    requires var lender := Lender(cfg, m1, m1.order, d.trackId);
      && lender.Some? && lender.value != d.trackId
      && HasTokenToLend(cfg, m, lender.value) && HasTokenToLend(cfg, m1, lender.value)
      && m1.tracks[lender.value] == m.tracks[lender.value]
      && forall j :: j != d.trackId && HasTokenToLend(cfg, m, j) ==>
           m.tracks[lender.value].missing <= m.tracks[j].missing
    ensures Classify(cfg, m1, d).Some?
    ensures var m' := Advance(cfg, Classify(cfg, m1, d).value, d, previous);
      TakesOne(cfg, m, m', d, m'.log)
  {
    hide Center, Advance, Classify, MatchingResident, Lender, HasTokenToLend;
    var lender := Lender(cfg, m1, m1.order, d.trackId);
    Inherits(cfg, m1, d, lender.value, previous);
    var m' := Advance(cfg, Classify(cfg, m1, d).value, d, previous);
    assert m'.log[|m.log| + 1] == Inherited(d.trackId, lender.value);
    assert TakesOver(cfg, m, m', d, lender.value);
  }

  lemma StillUnjudged(m: Machine, id: int)
    requires NeverJudged(m, id) && id in m.tracks
    ensures m.tracks[id].state.NewTrack?
    ensures m.tracks[id].token.Some? ==>
      m.tracks[id].token.value < |m.tokens| && m.tokens[m.tracks[id].token.value].consumed
  {
  }

  lemma NoLenderNone(cfg: Config, m: Machine, id: int)
    ensures AnyLender(cfg, m, id) <==> exists j :: j != id && HasTokenToLend(cfg, m, j)
  {
  }

  // Which way the first judgement in the output goes.
  lemma JudgedFirst(cfg: Config, m: Machine, d: Detection, previous: Option<Point>)
    requires Placeable(m, d.trackId) && m.tracks[d.trackId].state.NewTrack? && !d.ignoreHit && d.outputHit
    ensures var t := m.tracks[d.trackId].(lastValidInOutput := true);
      var m1 := Put(m, d.trackId, t);
      if MatchingResident(cfg, m.residents, d.bbox).Some?
         || (!d.sourceHit && Lender(cfg, m1, m1.order, d.trackId).None?)
      then Judge(cfg, m, d, previous) == Put(m, d.trackId, t.(state := ResidentOutputObject))
      else !d.sourceHit ==>
             Classify(cfg, m1, d).Some?
             && Judge(cfg, m, d, previous) == Advance(cfg, Classify(cfg, m1, d).value, d, previous)
  {
    hide Advance, MatchingResident, Lender, Borrow;
    var t := m.tracks[d.trackId].(lastValidInOutput := true);
    var m1 := Put(m, d.trackId, t);
    var stopped := t.(state := ResidentOutputObject);
    assert Put(m1, d.trackId, stopped) == Put(m, d.trackId, stopped);
  }

  // The lender is chosen among those that have a token to lend.
  lemma LendersAgree(cfg: Config, m: Machine, m1: Machine, id: int)
    requires m1.tokens == m.tokens && m1.frame == m.frame
    requires forall j :: j != id && j in m.tracks ==> j in m1.tracks && m1.tracks[j] == m.tracks[j]
    requires forall j :: j != id && j in m1.tracks ==> j in m.tracks
    requires forall j :: j != id && j in m.tracks ==> j in m1.order
    ensures var lender := Lender(cfg, m1, m1.order, id);
      && (lender.None? ==> forall j :: j != id ==> !HasTokenToLend(cfg, m, j))
      && (lender.Some? ==>
            && lender.value != id && HasTokenToLend(cfg, m, lender.value) && HasTokenToLend(cfg, m1, lender.value)
            && m1.tracks[lender.value] == m.tracks[lender.value]
            && forall j :: j != id && HasTokenToLend(cfg, m, j) ==>
                 m.tracks[lender.value].missing <= m.tracks[j].missing)
  {
    hide Lender;
    var lender := Lender(cfg, m1, m1.order, id);
    LenderIsLeastMissing(cfg, m1, m1.order, id);
    forall j | j != id && HasTokenToLend(cfg, m, j)
      ensures lender.Some? && m1.tracks[lender.value].missing <= m.tracks[j].missing
    {
      LenderHasToken(cfg, m1, j, id);
    }
  }

  // The borrowed token and what comes with it survive the stages after.
  lemma Inherits(cfg: Config, m: Machine, d: Detection, j: int, previous: Option<Point>)
    requires Placeable(m, d.trackId) && m.tracks[d.trackId].state.NewTrack? && d.outputHit && !d.sourceHit
    requires MatchingResident(cfg, m.residents, d.bbox).None?
    requires Lender(cfg, m, m.order, d.trackId) == Some(j) && j != d.trackId && HasTokenToLend(cfg, m, j)
    ensures Classify(cfg, m, d).Some?
    ensures var m' := Advance(cfg, Classify(cfg, m, d).value, d, previous);
      && m.log + [Inherited(d.trackId, j)] <= m'.log
      && m'.tracks[d.trackId].token == m.tracks[j].token
      && (m.tracks[j].crossedGate ==> m'.tracks[d.trackId].crossedGate)
      && m'.tracks[d.trackId].sourceFrames >= cfg.sourceMinFrames
      && IsFor(m', m.tracks[j].token, d.trackId)
  {
    hide MatchingResident, Lender, Stable, GateCrossed, Age, Center, Advance;
    AdvanceKeepsToken(cfg, Classify(cfg, m, d).value, d, previous);
  }

  lemma AdvanceKeepsToken(cfg: Config, m: Machine, d: Detection, previous: Option<Point>)
    requires Placeable(m, d.trackId) && !d.sourceHit
    ensures var m' := Advance(cfg, m, d, previous);
      && m.log <= m'.log && m'.tracks[d.trackId].token == m.tracks[d.trackId].token
      && (m.tracks[d.trackId].crossedGate ==> m'.tracks[d.trackId].crossedGate)
      && m'.tracks[d.trackId].sourceFrames == m.tracks[d.trackId].sourceFrames
      && |m'.tokens| == |m.tokens|
      && (forall k :: 0 <= k < |m.tokens| ==> m'.tokens[k].trackId == m.tokens[k].trackId)
  {
    hide GateStep, OutputStep;
    assert SourceStep(cfg, m, d) == m;
    GateKeepsToken(cfg, m, d, previous);
    OutputKeepsToken(cfg, GateStep(cfg, m, d, previous), d, previous);
  }

  lemma GateKeepsToken(cfg: Config, m: Machine, d: Detection, previous: Option<Point>)
    requires Placeable(m, d.trackId)
    ensures var m' := GateStep(cfg, m, d, previous);
      && m'.log == m.log && m'.tokens == m.tokens && m'.tracks[d.trackId].token == m.tracks[d.trackId].token
      && (m.tracks[d.trackId].crossedGate ==> m'.tracks[d.trackId].crossedGate)
      && m'.tracks[d.trackId].sourceFrames == m.tracks[d.trackId].sourceFrames
  {
    hide GateCrossed, Center;
  }

  lemma OutputKeepsToken(cfg: Config, m: Machine, d: Detection, previous: Option<Point>)
    requires Placeable(m, d.trackId)
    ensures var m' := OutputStep(cfg, m, d, previous);
      && m.log <= m'.log && m'.tracks[d.trackId].token == m.tracks[d.trackId].token
      && m'.tracks[d.trackId].crossedGate == m.tracks[d.trackId].crossedGate
      && m'.tracks[d.trackId].sourceFrames == m.tracks[d.trackId].sourceFrames
      && |m'.tokens| == |m.tokens|
      && (forall k :: 0 <= k < |m.tokens| ==> m'.tokens[k].trackId == m.tokens[k].trackId)
  {
    hide Stable, Age, Center, CountEvent;
  }

  // ----- whole updates -----

  lemma {:induction false} OthersBefore(cfg: Config, m: Machine, ds: seq<Detection>, approved: Option<set<int>>,
                                         id: int)
    requires NeverJudged(m, id) && forall d :: d in ds ==> d.trackId != id
    ensures var b := DetectAll(cfg, m, ds, approved);
      && NeverJudged(b, id) && (id in b.tracks <==> id in m.tracks) && m.residents <= b.residents
  {
    hide Detect, CountsOf, Unremembered;
    if ds != [] {
      var d := ds[|ds| - 1];
      var a := approved.None? || d.trackId in approved.value;
      OthersBefore(cfg, m, ds[..|ds| - 1], approved, id);
      var b := DetectAll(cfg, m, ds[..|ds| - 1], approved);
      DetectActs(cfg, b, d, a);
      DetectKeepsResidents(cfg, b, d, a);
    }
  }

  lemma DetectKeepsResidents(cfg: Config, m: Machine, d: Detection, approved: bool)
    ensures m.residents <= Detect(cfg, m, d, approved).residents
  {
    hide Detect, Events;
    DetectCounts(cfg, m, d, approved);
  }

  lemma GoodIsOrdered(cfg: Config, m: Machine, ds: seq<Detection>, approved: Option<set<int>>)
    requires Good(cfg, m)
    ensures var b := DetectAll(cfg, BeginFrame(m), ds, approved); forall j :: j in b.tracks <==> j in b.order
  {
    hide Inv, DetectAll, BeginFrame;
    BeginFrameKeeps(cfg, m);
    BeginFrameTracks(m);
    DetectAllKeeps(cfg, BeginFrame(m), ds, approved, m.tracks.Keys);
    OrderIsKeys(cfg, DetectAll(cfg, BeginFrame(m), ds, approved), m.tracks.Keys - Ids(ds));
  }

  lemma GoodIsUnjudged(cfg: Config, m: Machine, id: int)
    requires Good(cfg, m) && (id in m.tracks ==> m.tracks[id].state.NewTrack?)
    ensures NeverJudged(BeginFrame(m), id)
  {
    hide LastSeen, UpdatesSinceDetected, Evidenced, GlobalOk;
    if id in m.tracks {
      assert TrackOk(cfg, m, id, 0);
    }
  }

  // The rest of an update does nothing for a track that stopped at its turn.
  lemma StopsForGood(cfg: Config, m: Machine, ds: seq<Detection>, approved: Option<set<int>>, d: Detection, k: nat)
    requires OnlyAt(ds, d, k)
    requires StopsThere(BeforeTurn(cfg, m, ds, approved, k), Turn(cfg, m, ds, approved, k), d)
    ensures var m' := Update(cfg, m, ds, approved);
      OutputOnly(m', d.trackId) && NothingOf(m.log, m'.log, d.trackId)
  {
    hide OutputOnly, Detect, DetectAll, MissAll, ExpireAll, StopsThere, CountsOf;
    var id := d.trackId;
    var (b, m1) := (BeforeTurn(cfg, m, ds, approved, k), Turn(cfg, m, ds, approved, k));
    StopsQuietly(b, m1, d);
    DetectAllNothingOf(cfg, BeginFrame(m), ds[..k], approved, id);
    NothingMore(m.log, BeginFrame(m).log, b.log, id);
    NothingMore(m.log, b.log, m1.log, id);
    var m2 := DetectAll(cfg, m1, ds[k + 1..], approved);
    DetectAllInTurns(cfg, m, ds, approved, d, k);
    DetectAllStaysOut(cfg, m1, ds[k + 1..], approved, id);
    DetectAllNothingOf(cfg, m1, ds[k + 1..], approved, id);
    NothingMore(m.log, m1.log, m2.log, id);
    assert ds[k] in ds;
    MissAllStaysOut(cfg, m2, m2.order, Ids(ds), id);
    MissAllNothingOf(cfg, m2, m2.order, Ids(ds), id);
    var m3 := MissAll(cfg, m2, m2.order, Ids(ds));
    NothingMore(m.log, m2.log, m3.log, id);
    OutputOnlyTracked(m2, id);
    MissAllKeepsPresent(cfg, m2, m2.order, Ids(ds), id);
    ExpireAllStaysOut(cfg, m3, m3.order, id);
    ExpireAllWrites(cfg, m3, m3.order);
  }

  lemma OutputOnlyTracked(m: Machine, id: int)
    requires OutputOnly(m, id)
    ensures id in m.tracks
  {
  }

  lemma StopsQuietly(m: Machine, m': Machine, d: Detection)
    requires StopsThere(m, m', d)
    ensures OutputOnly(m', d.trackId) && NothingOf(m.log, m'.log, d.trackId)
  {
    hide OutputOnly;
  }

  lemma {:induction false} MissAllKeepsPresent(cfg: Config, m: Machine, ids: seq<int>, present: set<int>, id: int)
    requires id in m.tracks && id in present
    ensures id in MissAll(cfg, m, ids, present).tracks
  {
    hide Miss;
    if ids != [] {
      MissAllKeepsPresent(cfg, m, ids[..|ids| - 1], present, id);
      var m1 := MissAll(cfg, m, ids[..|ids| - 1], present);
      if ids[|ids| - 1] !in present && ids[|ids| - 1] in m1.tracks {
        MissElsewhere(cfg, m1, ids[|ids| - 1]);
      }
    }
  }

  // The track's turn in an update.
  lemma TurnOfFirstJudged(cfg: Config, m: Machine, ds: seq<Detection>, approved: Option<set<int>>, d: Detection, k: nat)
    requires Good(cfg, m) && OnlyAt(ds, d, k) && !d.ignoreHit && d.outputHit
    requires d.trackId in m.tracks ==> m.tracks[d.trackId].state.NewTrack?
    ensures var b := BeforeTurn(cfg, m, ds, approved, k);
      && m.residents <= b.residents
      && var m1 := Turn(cfg, m, ds, approved, k);
         if Beside(cfg, b.residents, d.bbox) || (!d.sourceHit && !AnyLender(cfg, b, d.trackId)) then
           StopsThere(b, m1, d)
         else !d.sourceHit ==> TakesOne(cfg, b, m1, d, m1.log)
  {
    hide Good, Detect, DetectAll, Beside, AnyLender, TakesOne, StopsThere, NeverJudged;
    GoodIsUnjudged(cfg, m, d.trackId);
    OthersBefore(cfg, BeginFrame(m), ds[..k], approved, d.trackId);
    GoodIsOrdered(cfg, m, ds[..k], approved);
    FirstJudgedInOutput(cfg, BeforeTurn(cfg, m, ds, approved, k), d, Approves(approved, d.trackId));
  }

  // A track the counter has not judged yet that shows up in the output beside a
  // part counted before is not counted and takes no token, whatever else is seen.
  lemma ResidentIsNotRecounted(cfg: Config, m: Machine, ds: seq<Detection>, approved: Option<set<int>>, d: Detection,
                               k: nat, r: Resident)
    requires Good(cfg, m) && OnlyAt(ds, d, k) && !d.ignoreHit && d.outputHit
    requires d.trackId in m.tracks ==> m.tracks[d.trackId].state.NewTrack?
    requires r in m.residents
    requires Within(Center(d.bbox), r.center, cfg.residentDistance) || Overlap(d.bbox, r.bbox) >= cfg.residentOverlap
    ensures var m' := Update(cfg, m, ds, approved);
      && OutputOnly(m', d.trackId)
      && CountsOf(m'.log, d.trackId) == CountsOf(m.log, d.trackId)
      && NothingOf(m.log, m'.log, d.trackId)
  {
    hide Good, Update, OutputOnly, CountsOf, NothingOf, Detect, DetectAll, StopsThere, Within, Overlap, Center,
      AnyLender, TakesOne;
    var b := BeforeTurn(cfg, m, ds, approved, k);
    TurnOfFirstJudged(cfg, m, ds, approved, d, k);
    var i: nat :| i < |m.residents| && m.residents[i] == r;
    assert b.residents[i] == r;
    StopsForGood(cfg, m, ds, approved, d, k);
    NothingCounts(m.log, Update(cfg, m, ds, approved).log, d.trackId);
  }

  // Such a track outside the source, with no such part beside it, takes over the
  // token of the lender missing for the fewest frames, and exactly then it takes
  // over any; without a lender it is not counted.
  lemma NewcomerInheritsExactly(cfg: Config, m: Machine, ds: seq<Detection>, approved: Option<set<int>>, d: Detection,
                                k: nat)
    requires Good(cfg, m) && OnlyAt(ds, d, k) && !d.ignoreHit && d.outputHit && !d.sourceHit
    requires d.trackId in m.tracks ==> m.tracks[d.trackId].state.NewTrack?
    ensures var b := BeforeTurn(cfg, m, ds, approved, k);
      var m' := Update(cfg, m, ds, approved);
      if !Beside(cfg, b.residents, d.bbox) && AnyLender(cfg, b, d.trackId) then
        TakesOne(cfg, b, Turn(cfg, m, ds, approved, k), d, m'.log)
      else OutputOnly(m', d.trackId) && NothingOf(m.log, m'.log, d.trackId)
  {
    hide Good, Update, OutputOnly, NothingOf, Detect, DetectAll, StopsThere, Beside, AnyLender, TakesOver;
    var b := BeforeTurn(cfg, m, ds, approved, k);
    TurnOfFirstJudged(cfg, m, ds, approved, d, k);
    if !Beside(cfg, b.residents, d.bbox) && AnyLender(cfg, b, d.trackId) {
      UpdateGoesOnFrom(cfg, m, ds, approved, d, k);
    } else {
      StopsForGood(cfg, m, ds, approved, d, k);
    }
  }
}
