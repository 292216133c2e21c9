// What single sightings do: an ignored one only moves its track, one in the source
// gives it a token exactly when it needs one, and one in the output that has moved
// begins the steady frames anew.
module CountSightings {
  import opened Prelude
  import opened Geometry
  import opened CountModel
  import opened CountHistory
  import opened CountInvariant
  import opened CountEffects
  import opened CountTheorems
  import opened CountBystanders
  import opened CountQuiet
  import opened CountWrites
  import opened CountDelivery

  // ----- ignored -----

  function Before(m: Machine, id: int): Track {
    if id in m.tracks then m.tracks[id] else FRESH_TRACK
  }

  // A sighting in an ignore zone changes where the track is and renews its token;
  // it is no evidence of anything.
  lemma IgnoredOnlyMoves(cfg: Config, m: Machine, d: Detection, approved: bool)
    requires d.ignoreHit
    ensures var m' := Detect(cfg, m, d, approved);
      && m'.tracks[d.trackId] == Before(m, d.trackId).(
                                   approved := approved, missing := 0, lastValidInOutput := false,
                                   lastBbox := Some(d.bbox), lastCenter := Some(Center(d.bbox)))
      && m'.log == m.log + [Detected(d.trackId, Center(d.bbox))]
      && m'.residents == m.residents && |m'.tokens| == |m.tokens|
      && forall k :: 0 <= k < |m.tokens| ==>
           m'.tokens[k] == if Before(m, d.trackId).token == Some(k) && !m.tokens[k].consumed
                           then m.tokens[k].(lastFrame := m.frame) else m.tokens[k]
  {
    hide Center;
  }

  // ----- in the source -----

  // A sighting in the source alone: a track that may have a token and was seen
  // often enough has a live one afterwards, the one it had or else a new one made
  // here and now; one that was not seen often enough gets none.
  lemma SourceSightingGivesToken(cfg: Config, m: Machine, d: Detection, approved: bool)
    requires !d.ignoreHit && d.sourceHit && !d.outputHit
    requires var t := Before(m, d.trackId); !t.counted && t.state != ResidentOutputObject
    ensures var t := Before(m, d.trackId);
      var m' := Detect(cfg, m, d, approved);
      var t' := m'.tracks[d.trackId];
      && t'.sourceFrames == t.sourceFrames + 1
      && if Live(m, t) then Live(m', t') && t'.token == t.token && |m'.tokens| == |m.tokens|
         else if t.sourceFrames + 1 >= cfg.sourceMinFrames then
           && Live(m', t') && t'.token == Some(|m.tokens|) && |m'.tokens| == |m.tokens| + 1
           && m'.tokens[|m.tokens|] == Token(d.trackId, m.frame, m.frame, d.bbox, false)
         else t'.token == t.token && m'.tokens == m.tokens
  {
    hide Center, MatchingResident, Lender, Observe, Advance, Classify;
    var id := d.trackId;
    var m0 := Observe(m, d, approved);
    ObservedInSource(m, d, approved);
    var m1 := Put(m0, id, m0.tracks[id].(lastValidInOutput := false));
    ClassifiedInSource(cfg, m1, d);
    var m2 := Classify(cfg, m1, d).value;
    AdvancedInSource(cfg, m2, d, PreviousCenter(m, id));
  }

  // Observing renews a live token and makes no other.
  lemma ObservedInSource(m: Machine, d: Detection, approved: bool)
    ensures var m' := Observe(m, d, approved);
      var t := Before(m, d.trackId);
      var t' := m'.tracks[d.trackId];
      && t'.token == t.token && t'.counted == t.counted && t'.state == t.state && t'.sourceFrames == t.sourceFrames
      && (Live(m', t') <==> Live(m, t)) && |m'.tokens| == |m.tokens| && m'.frame == m.frame
      && (!Live(m, t) ==> m'.tokens == m.tokens)
  {
    hide Center;
  }

  lemma ClassifiedInSource(cfg: Config, m: Machine, d: Detection)
    requires Placeable(m, d.trackId) && d.sourceHit && !d.outputHit
    ensures Classify(cfg, m, d).Some?
    ensures var m' := Classify(cfg, m, d).value;
      && m'.tokens == m.tokens && m'.frame == m.frame && Placeable(m', d.trackId)
      && m'.tracks[d.trackId] == m.tracks[d.trackId].(state := m'.tracks[d.trackId].state)
      && (m.tracks[d.trackId].state != ResidentOutputObject ==> m'.tracks[d.trackId].state != ResidentOutputObject)
  {
    hide MatchingResident, Lender;
  }

  lemma AdvancedInSource(cfg: Config, m: Machine, d: Detection, previous: Option<Point>)
    requires Placeable(m, d.trackId) && d.sourceHit && !d.outputHit
    requires !m.tracks[d.trackId].counted && m.tracks[d.trackId].state != ResidentOutputObject
    ensures var t := m.tracks[d.trackId];
      var m' := Advance(cfg, m, d, previous);
      var t' := m'.tracks[d.trackId];
      && t'.sourceFrames == t.sourceFrames + 1
      && if Live(m, t) then Live(m', t') && t'.token == t.token && m'.tokens == m.tokens
         else if t.sourceFrames + 1 >= cfg.sourceMinFrames then
           && Live(m', t') && t'.token == Some(|m.tokens|)
           && m'.tokens == m.tokens + [Token(d.trackId, m.frame, m.frame, d.bbox, false)]
         else t'.token == t.token && m'.tokens == m.tokens
  {
    hide Center, GateStep, OutputStep;
    var m1 := SourceStep(cfg, m, d);
    PassesInSource(cfg, m1, d, previous);
  }

  // The stages after it leave tokens and source frames alone in the source.
  lemma PassesInSource(cfg: Config, m: Machine, d: Detection, previous: Option<Point>)
    requires Placeable(m, d.trackId) && !d.outputHit
    ensures var m' := OutputStep(cfg, GateStep(cfg, m, d, previous), d, previous);
      && m'.tokens == m.tokens && m'.tracks[d.trackId].token == m.tracks[d.trackId].token
      && m'.tracks[d.trackId].sourceFrames == m.tracks[d.trackId].sourceFrames
  {
    hide Center, GateCrossed, Settle;
  }

  // ----- in the output, moving -----

  // At most n steady frames count for anything.
  ghost predicate Moving(cfg: Config, m: Machine, id: int, n: int) {
    && id in m.tracks
    && var t := m.tracks[id];
    && !t.state.NewTrack? && Steady(cfg, t)
    && (t.token.Some? ==> t.token.value < |m.tokens|)
    && (Live(m, t) ==> t.stableOutputFrames <= n)
  }

  // The track was not seen before, or farther away than a steady frame allows.
  ghost predicate Moved(cfg: Config, m: Machine, id: int, box: Box) {
    !Stable(cfg, PreviousCenter(m, id), Center(box))
  }

  ghost predicate MayMove(cfg: Config, m: Machine, id: int, box: Box, n: int) {
    if n > 0 then Moving(cfg, m, id, n)
    else
      && Moved(cfg, m, id, box)
      && (id in m.tracks ==>
            && Steady(cfg, m.tracks[id])
            && (m.tracks[id].token.Some? ==> m.tracks[id].token.value < |m.tokens|)
            && (m.tracks[id].state.NewTrack? ==> !Live(m, m.tracks[id])))
  }

  // What the track may be like when it comes to the stages of a sighting.
  ghost predicate Stepping(cfg: Config, m: Machine, d: Detection, previous: Option<Point>, n: int) {
    && Placeable(m, d.trackId)
    && var t := m.tracks[d.trackId];
    && !t.state.NewTrack? && Steady(cfg, t)
    && (t.token.Some? ==> t.token.value < |m.tokens|)
    && (if n == 0 then !Stable(cfg, previous, Center(d.bbox)) else Live(m, t) ==> t.stableOutputFrames <= n)
  }

  lemma GateStepping(cfg: Config, m: Machine, d: Detection, previous: Option<Point>, n: int)
    requires Stepping(cfg, m, d, previous, n)
    ensures var m' := GateStep(cfg, m, d, previous); Stepping(cfg, m', d, previous, n) && m'.log == m.log
  {
    hide GateCrossed, Stable, Center;
  }

  lemma OutputStepping(cfg: Config, m: Machine, d: Detection, previous: Option<Point>, n: int)
    requires Stepping(cfg, m, d, previous, n) && d.outputHit && n >= 0
    ensures var m' := OutputStep(cfg, m, d, previous);
      && Moving(cfg, m', d.trackId, n + 1)
      && (n + 1 < cfg.outputStableFrames ==> m'.log == m.log)
  {
    hide Stable, Center, CountEvent, Age;
    var t := m.tracks[d.trackId];
    if d.outputHit && Live(m, t) && GateSatisfied(cfg, t) {
      SettleStepping(cfg, m, d, previous, n);
    }
  }

  lemma SettleStepping(cfg: Config, m: Machine, d: Detection, previous: Option<Point>, n: int)
    requires Stepping(cfg, m, d, previous, n) && n >= 0
    requires Live(m, m.tracks[d.trackId]) && GateSatisfied(cfg, m.tracks[d.trackId])
    ensures var m' := Settle(cfg, m, d, previous);
      && Moving(cfg, m', d.trackId, n + 1)
      && (n + 1 < cfg.outputStableFrames ==> m'.log == m.log)
  {
    hide Stable, Center, CountEvent, Age;
  }

  lemma ClassifyMoving(cfg: Config, m: Machine, d: Detection)
    requires Placeable(m, d.trackId) && d.outputHit && !d.sourceHit
    requires var t := m.tracks[d.trackId];
      && Steady(cfg, t) && (t.token.Some? ==> t.token.value < |m.tokens|)
      && (t.state.NewTrack? ==> !Live(m, t))
    ensures Classify(cfg, m, d).Some? ==>
      var m' := Classify(cfg, m, d).value;
      var t := m'.tracks[d.trackId];
      && !t.state.NewTrack? && Steady(cfg, t) && (t.token.Some? ==> t.token.value < |m'.tokens|)
      && NothingCounted(m.log, m'.log)
      && (!m.tracks[d.trackId].state.NewTrack? ==> m' == m)
    ensures Classify(cfg, m, d).None? ==> m.tracks[d.trackId].state.NewTrack?
  {
    hide MatchingResident, Lender;
  }

  ghost predicate NothingCounted(log: seq<Entry>, more: seq<Entry>) {
    log <= more && forall k :: |log| <= k < |more| ==> !more[k].Emitted?
  }

  lemma NothingCountedMeans(log: seq<Entry>, more: seq<Entry>, id: int)
    requires NothingCounted(log, more)
    ensures CountsOf(more, id) == CountsOf(log, id)
    decreases |more|
  {
    if |more| == |log| {
      assert more == log;
    } else {
      NothingCountedMeans(log, more[..|more| - 1], id);
    }
  }

  // Before the first judgement.
  ghost predicate Judgeable(cfg: Config, m: Machine, d: Detection, previous: Option<Point>, n: int) {
    && Placeable(m, d.trackId)
    && var t := m.tracks[d.trackId];
    && Steady(cfg, t) && (t.token.Some? ==> t.token.value < |m.tokens|)
    && (t.state.NewTrack? ==> n == 0 && !Live(m, t))
    && (if n == 0 then !Stable(cfg, previous, Center(d.bbox)) else Live(m, t) ==> t.stableOutputFrames <= n)
  }

  lemma ObserveMoving(cfg: Config, m: Machine, d: Detection, approved: bool, n: int)
    requires MayMove(cfg, m, d.trackId, d.bbox, n) && n >= 0
    ensures var m' := Observe(m, d, approved);
      && Judgeable(cfg, m', d, PreviousCenter(m, d.trackId), n) && NothingCounted(m.log, m'.log)
  {
    hide Stable, Center;
  }

  // One sighting in the output of a track that has moved n frames ago.
  lemma MovingTurn(cfg: Config, m: Machine, d: Detection, approved: bool, n: int)
    requires MayMove(cfg, m, d.trackId, d.bbox, n) && n >= 0
    requires !d.ignoreHit && d.outputHit && !d.sourceHit
    ensures var m' := Detect(cfg, m, d, approved);
      && Moving(cfg, m', d.trackId, n + 1)
      && (n + 1 < cfg.outputStableFrames ==> NothingCounted(m.log, m'.log))
  {
    hide MayMove, Observe, Judge, Moving, Judgeable, NothingCounted;
    var m0 := Observe(m, d, approved);
    ObserveMoving(cfg, m, d, approved, n);
    MovingJudge(cfg, m0, d, PreviousCenter(m, d.trackId), n);
    if n + 1 < cfg.outputStableFrames {
      NothingCountedMore(m.log, m0.log, Detect(cfg, m, d, approved).log);
    }
  }

  lemma NothingCountedMore(log: seq<Entry>, more: seq<Entry>, most: seq<Entry>)
    requires NothingCounted(log, more) && NothingCounted(more, most)
    ensures NothingCounted(log, most)
  {
  }

  lemma MovingJudge(cfg: Config, m: Machine, d: Detection, previous: Option<Point>, n: int)
    requires Judgeable(cfg, m, d, previous, n) && n >= 0
    requires !d.ignoreHit && d.outputHit && !d.sourceHit
    ensures var m' := Judge(cfg, m, d, previous);
      && Moving(cfg, m', d.trackId, n + 1)
      && (n + 1 < cfg.outputStableFrames ==> NothingCounted(m.log, m'.log))
  {
    hide GateStep, OutputStep, Classify, Center, Stable;
    var t := m.tracks[d.trackId].(lastValidInOutput := true);
    var m1 := Put(m, d.trackId, t);
    ClassifyMoving(cfg, m1, d);
    var judged := Classify(cfg, m1, d);
    if judged.Some? {
      assert SourceStep(cfg, judged.value, d) == judged.value;
      GateStepping(cfg, judged.value, d, previous, n);
      OutputStepping(cfg, GateStep(cfg, judged.value, d, previous), d, previous, n);
    }
  }

  // ----- what the rest of an update does to it -----

  // The track is as it was but for its state, and no token came back to life.
  ghost predicate Calmer(m: Machine, m': Machine, id: int) {
    && id in m.tracks && id in m'.tracks && |m.tokens| <= |m'.tokens|
    && m'.tracks[id] == m.tracks[id].(state := m'.tracks[id].state)
    && (m'.tracks[id].state.NewTrack? ==> m.tracks[id].state.NewTrack?)
    && (forall k :: 0 <= k < |m.tokens| && m.tokens[k].consumed ==> m'.tokens[k].consumed)
  }

  lemma CalmerMoves(cfg: Config, m: Machine, m': Machine, id: int, n: int)
    requires Moving(cfg, m, id, n) && Calmer(m, m', id)
    ensures Moving(cfg, m', id, n)
  {
  }

  lemma CalmerYet(m: Machine, m': Machine, m'': Machine, id: int)
    requires Calmer(m, m', id) && Calmer(m', m'', id)
    ensures Calmer(m, m'', id)
  {
  }

  lemma ActsCalmly(m: Machine, m': Machine, j: int, id: int)
    requires Acts(m, m', j) && j != id && id in m.tracks
    ensures Calmer(m, m', id)
  {
    hide Unremembered;
  }

  lemma {:induction false} DetectAllCalmly(cfg: Config, m: Machine, ds: seq<Detection>, approved: Option<set<int>>,
                                           id: int)
    requires id in m.tracks && forall d :: d in ds ==> d.trackId != id
    ensures Calmer(m, DetectAll(cfg, m, ds, approved), id)
  {
    hide Detect, Acts, Calmer;
    CalmItself(m, id);
    if ds != [] {
      var d := ds[|ds| - 1];
      var a := approved.None? || d.trackId in approved.value;
      var m1 := DetectAll(cfg, m, ds[..|ds| - 1], approved);
      DetectAllCalmly(cfg, m, ds[..|ds| - 1], approved, id);
      CalmerKnows(m, m1, id);
      DetectActs(cfg, m1, d, a);
      ActsCalmly(m1, Detect(cfg, m1, d, a), d.trackId, id);
      CalmerYet(m, m1, Detect(cfg, m1, d, a), id);
    }
  }

  lemma CalmItself(m: Machine, id: int)
    requires id in m.tracks
    ensures Calmer(m, m, id)
  {
  }

  lemma CalmerKnows(m: Machine, m': Machine, id: int)
    requires Calmer(m, m', id)
    ensures id in m'.tracks
  {
  }

  lemma MissCalmly(cfg: Config, m: Machine, j: int, id: int)
    requires j in m.tracks && id in m.tracks && j != id
    ensures Calmer(m, Miss(cfg, m, j), id)
  {
    hide MarkMissing, Acts;
    var m1 := MarkMissing(cfg, m, j);
    MarkMissingActs(cfg, m, j);
    ActsCalmly(m, m1, j, id);
  }

  lemma {:induction false} MissAllCalmly(cfg: Config, m: Machine, ids: seq<int>, present: set<int>, id: int)
    requires id in m.tracks && id in present
    ensures Calmer(m, MissAll(cfg, m, ids, present), id)
  {
    hide Miss, Calmer;
    CalmItself(m, id);
    if ids != [] {
      var m1 := MissAll(cfg, m, ids[..|ids| - 1], present);
      var j := ids[|ids| - 1];
      MissAllCalmly(cfg, m, ids[..|ids| - 1], present, id);
      CalmerKnows(m, m1, id);
      if j !in present && j in m1.tracks {
        MissCalmly(cfg, m1, j, id);
        CalmerYet(m, m1, Miss(cfg, m1, j), id);
      }
    }
  }

  lemma ExpireCalmly(cfg: Config, m: Machine, j: int, id: int)
    requires j in m.tracks && id in m.tracks
    ensures Calmer(m, Expire(cfg, m, j), id)
  {
  }

  lemma {:induction false} ExpireAllCalmly(cfg: Config, m: Machine, ids: seq<int>, id: int)
    requires id in m.tracks
    ensures Calmer(m, ExpireAll(cfg, m, ids), id)
  {
    hide Expire, Calmer;
    CalmItself(m, id);
    if ids != [] {
      var m1 := ExpireAll(cfg, m, ids[..|ids| - 1]);
      ExpireAllCalmly(cfg, m, ids[..|ids| - 1], id);
      CalmerKnows(m, m1, id);
      if ids[|ids| - 1] in m1.tracks {
        ExpireCalmly(cfg, m1, ids[|ids| - 1], id);
        CalmerYet(m, m1, Expire(cfg, m1, ids[|ids| - 1]), id);
      }
    }
  }

  // ----- the tracks of every run are sane -----

  ghost predicate AllSane(cfg: Config, m: Machine) {
    forall j :: j in m.tracks ==> Sane(cfg, m.tracks[j])
  }

  lemma {:induction false} DetectAllSane(cfg: Config, m: Machine, ds: seq<Detection>, approved: Option<set<int>>)
    requires AllSane(cfg, m)
    ensures AllSane(cfg, DetectAll(cfg, m, ds, approved))
  {
    hide Detect, DetectWrites, Sane;
    if ds != [] {
      var d := ds[|ds| - 1];
      var a := approved.None? || d.trackId in approved.value;
      var m1 := DetectAll(cfg, m, ds[..|ds| - 1], approved);
      DetectAllSane(cfg, m, ds[..|ds| - 1], approved);
      DetectGoes(cfg, m1, d, a);
      DetectElsewhere(cfg, m1, d, a);
    }
  }

  lemma {:induction false} MissAllSane(cfg: Config, m: Machine, ids: seq<int>, present: set<int>)
    requires AllSane(cfg, m)
    ensures AllSane(cfg, MissAll(cfg, m, ids, present))
  {
    hide Miss, MissWrites, Sane;
    if ids != [] {
      var m1 := MissAll(cfg, m, ids[..|ids| - 1], present);
      var j := ids[|ids| - 1];
      MissAllSane(cfg, m, ids[..|ids| - 1], present);
      if j !in present && j in m1.tracks {
        MissGoes(cfg, m1, j);
        MissElsewhere(cfg, m1, j);
      }
    }
  }

  lemma {:induction false} ExpireAllSane(cfg: Config, m: Machine, ids: seq<int>)
    requires AllSane(cfg, m)
    ensures AllSane(cfg, ExpireAll(cfg, m, ids))
  {
    if ids != [] {
      ExpireAllSane(cfg, m, ids[..|ids| - 1]);
    }
  }

  lemma UpdateSane(cfg: Config, m: Machine, ds: seq<Detection>, approved: Option<set<int>>)
    requires AllSane(cfg, m)
    ensures AllSane(cfg, Update(cfg, m, ds, approved))
  {
    hide DetectAll, MissAll, ExpireAll, Sane;
    var m1 := DetectAll(cfg, BeginFrame(m), ds, approved);
    var m2 := MissAll(cfg, m1, m1.order, Ids(ds));
    DetectAllSane(cfg, BeginFrame(m), ds, approved);
    MissAllSane(cfg, m1, m1.order, Ids(ds));
    ExpireAllSane(cfg, m2, m2.order);
  }

  lemma ChainSane(cfg: Config, m: Machine, chainId: string, id: int, box: Box, source: Option<int>)
    requires AllSane(cfg, m)
    ensures AllSane(cfg, CommitChain(cfg, m, chainId, id, box, source))
  {
    hide MatchingResident, Center, CountEvent, Age;
  }

  lemma {:induction false} RunSane(cfg: Config, ops: seq<Operation>)
    ensures AllSane(cfg, Run(cfg, ops))
  {
    hide Update, CommitChain, AllSane;
    if ops == [] {
      assert AllSane(cfg, INITIAL) by { NothingInsane(cfg); }
    } else {
      var m := Run(cfg, ops[..|ops| - 1]);
      RunSane(cfg, ops[..|ops| - 1]);
      match ops[|ops| - 1]
      case UpdateOp(ds, approved) => UpdateSane(cfg, m, ds, approved);
      case ChainOp(chainId, id, box, source) => ChainSane(cfg, m, chainId, id, box, source);
    }
  }

  lemma NothingInsane(cfg: Config)
    ensures AllSane(cfg, INITIAL)
  {
  }

  // In every run a track's state says what happened to it: it was counted, it was
  // given a token, or it entered the output with the gate satisfied.
  lemma StatesAreEarned(cfg: Config, ops: seq<Operation>, id: int)
    requires id in Run(cfg, ops).tracks
    ensures var t := Run(cfg, ops).tracks[id];
      && (t.state.CountedOutputResident? ==> t.counted)
      && (t.state in {SourceConfirmed, MovingToOutput, UncertainReview} ==> t.token.Some?)
      && (t.state.InOutputUnsettled? ==> t.enteredOutput && (cfg.gate.None? || t.crossedGate))
      && (t.stableOutputFrames > 0 ==> cfg.gate.None? || t.crossedGate)
  {
    hide Run;
    RunSane(cfg, ops);
  }

  // ----- a part that moves in the output -----

  // One update that shows the track in the output.
  lemma MovingUpdate(cfg: Config, m: Machine, ds: seq<Detection>, approved: Option<set<int>>, id: int, box: Box,
                     n: int, k: nat)
    requires OnlyAt(ds, InOutput(id, box), k) && n >= 0
    requires MayMove(cfg, BeforeTurn(cfg, m, ds, approved, k), id, box, n)
    ensures var m' := Update(cfg, m, ds, approved);
      && Moving(cfg, m', id, n + 1)
      && (n + 1 < cfg.outputStableFrames ==> CountsOf(m'.log, id) == CountsOf(m.log, id))
  {
    hide CountsOf, MayMove, Moving, Detect, DetectAll, MissAll, ExpireAll, NothingCounted, NothingOf, Calmer;
    var (b, m1) := (BeforeTurn(cfg, m, ds, approved, k), Turn(cfg, m, ds, approved, k));
    DetectAllNothingOf(cfg, BeginFrame(m), ds[..k], approved, id);
    BeginsWithNothing(m, b, id);
    MovingTurn(cfg, b, InOutput(id, box), Approves(approved, id), n);
    if n + 1 < cfg.outputStableFrames {
      NothingCountedMeans(b.log, m1.log, id);
    }
    RestCalmly(cfg, m, ds, approved, id, box, k);
    CalmerMoves(cfg, m1, Update(cfg, m, ds, approved), id, n + 1);
  }

  lemma BeginsWithNothing(m: Machine, b: Machine, id: int)
    requires NothingOf(BeginFrame(m).log, b.log, id)
    ensures CountsOf(b.log, id) == CountsOf(m.log, id)
  {
    hide CountsOf;
    CountsOfMore(m.log, Tick, id);
    NothingCounts(BeginFrame(m).log, b.log, id);
  }

  lemma RestCalmly(cfg: Config, m: Machine, ds: seq<Detection>, approved: Option<set<int>>, id: int, box: Box, k: nat)
    requires OnlyAt(ds, InOutput(id, box), k)
    ensures var (m1, m') := (Turn(cfg, m, ds, approved, k), Update(cfg, m, ds, approved));
      Calmer(m1, m', id) && CountsOf(m'.log, id) == CountsOf(m1.log, id)
  {
    hide CountsOf, Detect, DetectAll, MissAll, ExpireAll, Calmer, NothingOf;
    var m1 := Turn(cfg, m, ds, approved, k);
    DetectElsewhere(cfg, BeforeTurn(cfg, m, ds, approved, k), InOutput(id, box), Approves(approved, id));
    DetectAllInTurns(cfg, m, ds, approved, InOutput(id, box), k);
    var m2 := DetectAll(cfg, m1, ds[k + 1..], approved);
    DetectAllCalmly(cfg, m1, ds[k + 1..], approved, id);
    DetectAllNothingOf(cfg, m1, ds[k + 1..], approved, id);
    CalmerKnows(m1, m2, id);
    assert ds[k] in ds;
    MissAllCalmly(cfg, m2, m2.order, Ids(ds), id);
    MissAllNothingOf(cfg, m2, m2.order, Ids(ds), id);
    var m3 := MissAll(cfg, m2, m2.order, Ids(ds));
    CalmerKnows(m2, m3, id);
    CalmerYet(m1, m2, m3, id);
    ExpireAllCalmly(cfg, m3, m3.order, id);
    ExpireAllWrites(cfg, m3, m3.order);
    CalmerYet(m1, m3, ExpireAll(cfg, m3, m3.order), id);
    NothingMore(m1.log, m2.log, m3.log, id);
    NothingCounts(m1.log, m3.log, id);
  }

  // Before its turn the track is as it was.
  lemma MayMoveBefore(cfg: Config, m: Machine, ds: seq<Detection>, approved: Option<set<int>>, id: int, box: Box,
                      k: nat)
    requires Good(cfg, m) && AllSane(cfg, m) && Moved(cfg, m, id, box)
    requires OnlyAt(ds, InOutput(id, box), k)
    ensures MayMove(cfg, BeforeTurn(cfg, m, ds, approved, k), id, box, 0)
  {
    hide Stable, DetectAll, Unremembered, Good;
    GoodToMove(cfg, m, id);
    var b := BeforeTurn(cfg, m, ds, approved, k);
    DetectAllElsewhere(cfg, BeginFrame(m), ds[..k], approved, id);
    if id in m.tracks {
      DetectAllCalmly(cfg, BeginFrame(m), ds[..k], approved, id);
    }
  }

  lemma GoodToMove(cfg: Config, m: Machine, id: int)
    requires Good(cfg, m)
    ensures id in m.tracks ==>
      && (m.tracks[id].token.Some? ==> m.tracks[id].token.value < |m.tokens|)
      && (m.tracks[id].state.NewTrack? ==> !Live(m, m.tracks[id]))
  {
    hide LastSeen, UpdatesSinceDetected, Evidenced, GlobalOk;
    if id in m.tracks {
      assert TrackOk(cfg, m, id, 0);
    }
  }

  lemma {:induction false} DetectAllElsewhere(cfg: Config, m: Machine, ds: seq<Detection>, approved: Option<set<int>>,
                                              id: int)
    requires forall d :: d in ds ==> d.trackId != id
    ensures var m' := DetectAll(cfg, m, ds, approved);
      (id in m'.tracks <==> id in m.tracks) && (id in m.tracks ==> m'.tracks[id] == m.tracks[id])
  {
    hide Detect;
    if ds != [] {
      DetectAllElsewhere(cfg, m, ds[..|ds| - 1], approved, id);
      DetectElsewhere(cfg, DetectAll(cfg, m, ds[..|ds| - 1], approved), ds[|ds| - 1],
                      approved.None? || ds[|ds| - 1].trackId in approved.value);
    }
  }

  lemma MovingBefore(cfg: Config, m: Machine, ds: seq<Detection>, approved: Option<set<int>>, id: int, box: Box,
                     n: int, k: nat)
    requires Moving(cfg, m, id, n) && n > 0 && OnlyAt(ds, InOutput(id, box), k)
    ensures MayMove(cfg, BeforeTurn(cfg, m, ds, approved, k), id, box, n)
  {
    hide DetectAll, Moving;
    var b := BeforeTurn(cfg, m, ds, approved, k);
    MovingKnows(cfg, m, id, n);
    DetectAllCalmly(cfg, BeginFrame(m), ds[..k], approved, id);
    CalmerMoves(cfg, BeginFrame(m), b, id, n);
  }

  lemma MovingKnows(cfg: Config, m: Machine, id: int, n: int)
    requires Moving(cfg, m, id, n)
    ensures id in m.tracks && Moving(cfg, BeginFrame(m), id, n)
  {
  }

  // The frames show the track in the output alone, n boxes long.
  ghost predicate ShowsInOutput(frames: seq<Frame>, id: int, boxes: seq<Box>) {
    |frames| == |boxes|
    && forall i :: 0 <= i < |frames| ==> Shows(frames[i].detections, InOutput(id, boxes[i]))
  }

  lemma {:induction false} KeepsMoving(cfg: Config, m: Machine, id: int, boxes: seq<Box>, frames: seq<Frame>)
    requires Good(cfg, m) && AllSane(cfg, m) && frames != [] && ShowsInOutput(frames, id, boxes)
    requires Moved(cfg, m, id, boxes[0]) && |frames| < cfg.outputStableFrames
    ensures var m' := Updates(cfg, m, frames);
      Moving(cfg, m', id, |frames|) && CountsOf(m'.log, id) == CountsOf(m.log, id)
  {
    hide Good, AllSane, CountsOf, Update, OnlyAt, Moving, MayMove, Moved;
    var n := |frames| - 1;
    assert Shows(frames[n].detections, InOutput(id, boxes[n]));
    var k: nat :| OnlyAt(frames[n].detections, InOutput(id, boxes[n]), k);
    if n == 0 {
      assert frames[..0] == [];
      OnlyAtPlace(frames[0].detections, InOutput(id, boxes[0]), k);
      MayMoveBefore(cfg, m, frames[0].detections, frames[0].approved, id, boxes[0], k);
      MovingUpdate(cfg, m, frames[0].detections, frames[0].approved, id, boxes[0], 0, k);
    } else {
      ShowsBefore(frames, id, boxes, n);
      KeepsMoving(cfg, m, id, boxes[..n], frames[..n]);
      var m1 := Updates(cfg, m, frames[..n]);
      OnlyAtPlace(frames[n].detections, InOutput(id, boxes[n]), k);
      MovingBefore(cfg, m1, frames[n].detections, frames[n].approved, id, boxes[n], n, k);
      MovingUpdate(cfg, m1, frames[n].detections, frames[n].approved, id, boxes[n], n, k);
    }
  }

  lemma OnlyAtPlace(ds: seq<Detection>, d: Detection, k: nat)
    requires OnlyAt(ds, d, k)
    ensures k < |ds|
  {
  }

  lemma ShowsBefore(frames: seq<Frame>, id: int, boxes: seq<Box>, n: nat)
    requires ShowsInOutput(frames, id, boxes) && n <= |frames|
    ensures ShowsInOutput(frames[..n], id, boxes[..n])
  {
    hide Shows;
  }

  // After any run: a part that has just moved, or just appeared, in the output is
  // not counted before it has been seen there in output_stable_frames updates, whoever
  // else is seen and whatever is approved.
  lemma {:induction false} MovingIsNotCounted(cfg: Config, ops: seq<Operation>, id: int, boxes: seq<Box>,
                                              frames: seq<Frame>)
    requires frames != [] && ShowsInOutput(frames, id, boxes) && |frames| < cfg.outputStableFrames
    requires var m := Run(cfg, ops);
      id in m.tracks && m.tracks[id].lastCenter.Some? ==>
        !Within(m.tracks[id].lastCenter.value, Center(boxes[0]), cfg.stableEpsilon)
    ensures CountsOf(Updates(cfg, Run(cfg, ops), frames).log, id) == CountsOf(Run(cfg, ops).log, id)
  {
    hide Run, Good, AllSane, CountsOf, Update, Shows, Center, Within;
    RunGood(cfg, ops);
    RunSane(cfg, ops);
    KeepsMoving(cfg, Run(cfg, ops), id, boxes, frames);
  }
}
