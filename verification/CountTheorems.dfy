// What the source-token counter guarantees over every run of update and
// commit_approved_delivery_chain.
module CountTheorems {
  import opened Prelude
  import opened Geometry
  import opened CountModel
  import opened CountHistory
  import opened CountInvariant
  import opened CountEffects

  // ----- every run keeps the invariant -----

  lemma InitialGood(cfg: Config)
    ensures Good(cfg, INITIAL)
  {
  }

  lemma ProvideFresh(cfg: Config, m: Machine, id: int, sourceTrackId: Option<int>, j: int)
    requires id in m.tracks && j != id && Fresh(cfg, m, j)
    requires forall k :: 0 <= k < |m.tokens| ==> m.tokens[k].lastFrame <= m.frame
    ensures Fresh(cfg, Provide(m, id, sourceTrackId).0, j)
  {
  }

  lemma CommitFresh(cfg: Config, m: Machine, id: int, reason: Reason, chainId: Option<string>,
                    sourceTrackId: Option<int>, provenance: Option<Provenance>, j: int)
    requires Placeable(m, id) && (j == id || Fresh(cfg, m, j))
    ensures Fresh(cfg, Commit(m, id, reason, chainId, sourceTrackId, provenance), j)
  {
    hide CountEvent;
  }

  lemma CommitChainFresh(cfg: Config, m: Machine, chainId: string, id: int, bbox: Box, sourceTrackId: Option<int>,
                         j: int)
    requires Fresh(cfg, m, j)
    requires forall k :: 0 <= k < |m.tokens| ==> m.tokens[k].lastFrame <= m.frame
    ensures Fresh(cfg, CommitChain(cfg, m, chainId, id, bbox, sourceTrackId), j)
  {
    hide MatchingResident, Commit, Provide;
    var m1 := Remember(m, id).(chains := m.chains + {chainId});
    var near := MatchingResident(cfg, m.residents, bbox);
    if chainId !in m.chains && !m1.tracks[id].counted
       && !(near.Some? && m.frame - near.value.createdFrame <= cfg.dedupeWindow) {
      var m2 := Approach(cfg, m1, id, bbox);
      var (m3, provenance) := Provide(m2, id, sourceTrackId);
      if j != id {
        ProvideFresh(cfg, m2, id, sourceTrackId, j);
      }
      ProvidePlaceable(m2, id, sourceTrackId);
      CommitFresh(cfg, m3, id, ApprovedDeliveryChain, Some(chainId), sourceTrackId, Some(provenance), j);
    }
  }

  lemma ProvidePlaceable(m: Machine, id: int, sourceTrackId: Option<int>)
    requires Placeable(m, id)
    ensures Placeable(Provide(m, id, sourceTrackId).0, id)
  {
  }

  lemma {:induction false} StepKeeps(cfg: Config, m: Machine, op: Operation)
    requires Good(cfg, m)
    ensures Good(cfg, Step(cfg, m, op))
  {
    match op
    case UpdateOp(ds, approved) =>
      hide Update, Good;
      UpdateKeeps(cfg, m, ds, approved);
    case ChainOp(chainId, id, bbox, source) =>
      assert forall k :: 0 <= k < |m.tokens| ==> m.tokens[k].lastFrame <= m.frame;
      hide CommitChain, Inv, Fresh;
      CommitChainKeeps(cfg, m, chainId, id, bbox, source);
      CommitChainTracks(cfg, m, chainId, id, bbox, source);
      forall j | j in CommitChain(cfg, m, chainId, id, bbox, source).tracks
        ensures Fresh(cfg, CommitChain(cfg, m, chainId, id, bbox, source), j)
      {
        if j !in m.tracks {
          UnknownFresh(cfg, m, j);
        }
        CommitChainFresh(cfg, m, chainId, id, bbox, source, j);
      }
  }

  lemma UnknownFresh(cfg: Config, m: Machine, j: int)
    requires j !in m.tracks
    ensures Fresh(cfg, m, j)
  {
  }

  lemma CommitChainTracks(cfg: Config, m: Machine, chainId: string, id: int, bbox: Box, sourceTrackId: Option<int>)
    ensures forall j :: j in CommitChain(cfg, m, chainId, id, bbox, sourceTrackId).tracks ==> j in m.tracks || j == id
  {
    hide Acts;
    CommitChainActs(cfg, m, chainId, id, bbox, sourceTrackId);
    ActsTracks(m, CommitChain(cfg, m, chainId, id, bbox, sourceTrackId), id);
  }

  lemma ActsTracks(m: Machine, m': Machine, id: int)
    requires Acts(m, m', id)
    ensures forall j :: j in m'.tracks ==> j in m.tracks || j == id
  {
  }

  lemma {:induction false} RunGood(cfg: Config, ops: seq<Operation>)
    ensures Good(cfg, Run(cfg, ops))
  {
    hide Good, Step;
    if ops == [] {
      InitialGood(cfg);
    } else {
      RunGood(cfg, ops[..|ops| - 1]);
      StepKeeps(cfg, Run(cfg, ops[..|ops| - 1]), ops[|ops| - 1]);
    }
  }

  // ----- no token is spent twice -----

  lemma SpentOnce(cfg: Config, log: seq<Entry>, i: nat, j: nat)
    requires AllJustified(cfg, log)
    requires i < j < |log| && log[i].Emitted? && log[j].Emitted?
    requires log[i].event.authority.SourceTokenAuthorized? && log[j].event.authority.SourceTokenAuthorized?
    ensures log[i].event.tokenId.Some? && log[j].event.tokenId.Some?
    ensures log[i].event.tokenId != log[j].event.tokenId
  {
    JustifiedAt(cfg, log, i);
    JustifiedAt(cfg, log, j);
    SpentTokenNamed(log[..j], i);
  }

  // Two authorized counts of one run never name the same token, whichever
  // tracks shared it.
  lemma {:induction false} NoTokenSpentTwice(cfg: Config, ops: seq<Operation>, i: nat, j: nat)
    requires var log := Run(cfg, ops).log;
      i < j < |log| && log[i].Emitted? && log[j].Emitted?
      && log[i].event.authority.SourceTokenAuthorized? && log[j].event.authority.SourceTokenAuthorized?
    ensures var log := Run(cfg, ops).log;
      log[i].event.tokenId.Some? && log[j].event.tokenId.Some?
      && log[i].event.tokenId.value != log[j].event.tokenId.value
  {
    RunGood(cfg, ops);
    SpentOnce(cfg, Run(cfg, ops).log, i, j);
  }

  // Each chain id yields at most one count.
  lemma {:induction false} NoChainCountedTwice(cfg: Config, ops: seq<Operation>, i: nat, j: nat)
    requires var log := Run(cfg, ops).log;
      i < j < |log| && log[i].Emitted? && log[j].Emitted?
      && log[i].event.chainId.Some? && log[j].event.chainId.Some?
    ensures Run(cfg, ops).log[i].event.chainId != Run(cfg, ops).log[j].event.chainId
  {
    RunGood(cfg, ops);
    var log := Run(cfg, ops).log;
    JustifiedAt(cfg, log, j);
    CountedChainNamed(log[..j], i);
  }

  // ----- gate evidence and freshness -----

  // With a gate configured, a direct count is of a track that really crossed,
  // itself or through the tracks its token came from; a crossing flag that a
  // delivery chain forced is never the reason.
  lemma {:induction false} DirectCountsCrossedGate(cfg: Config, ops: seq<Operation>, i: nat)
    requires cfg.gate.Some?
    requires i < |Run(cfg, ops).log| && Run(cfg, ops).log[i].Emitted?
    requires !Run(cfg, ops).log[i].event.reason.ApprovedDeliveryChain?
    ensures Evidenced(cfg.gate.value, Run(cfg, ops).log[..i], Run(cfg, ops).log[i].event.trackId)
  {
    RunGood(cfg, ops);
    JustifiedAt(cfg, Run(cfg, ops).log, i);
  }

  // A disappearance counts exactly Patience(cfg) updates after the track was
  // last detected, a settled track in the update that sees it; the token is
  // never older than that.
  lemma {:induction false} DirectCountsAreFresh(cfg: Config, ops: seq<Operation>, i: nat)
    requires i < |Run(cfg, ops).log| && Run(cfg, ops).log[i].Emitted?
    requires !Run(cfg, ops).log[i].event.reason.ApprovedDeliveryChain?
    ensures var e := Run(cfg, ops).log[i];
      var since := UpdatesSinceDetected(Run(cfg, ops).log[..i], e.event.trackId);
      && e.event.authority.SourceTokenAuthorized?
      && (e.event.reason.DisappearedInOutput? ==> since == Some(Patience(cfg)) && 0 <= e.age <= Patience(cfg))
      && (e.event.reason.StableInOutput? ==> since == Some(0) && e.age == 0)
  {
    RunGood(cfg, ops);
    JustifiedAt(cfg, Run(cfg, ops).log, i);
  }

  // No live token outside the output outlives its time to live, and a counted
  // track holds no live token.
  lemma {:induction false} LiveTokensAreYoung(cfg: Config, ops: seq<Operation>, id: int)
    requires id in Run(cfg, ops).tracks && Live(Run(cfg, ops), Run(cfg, ops).tracks[id])
    ensures var m := Run(cfg, ops);
      !m.tracks[id].counted && (!m.tracks[id].enteredOutput ==> Age(m, m.tracks[id]) <= cfg.tokenTtl)
  {
    RunGood(cfg, ops);
    hide Run;
    At(cfg, Run(cfg, ops), id, {});
    assert Fresh(cfg, Run(cfg, ops), id);
  }

  // ----- conservation -----

  lemma {:induction false} SumIsLength(cfg: Config, log: seq<Entry>)
    requires AllJustified(cfg, log)
    ensures SumOfCounts(Events(log)) == |Events(log)|
  {
    if log != [] {
      SumIsLength(cfg, log[..|log| - 1]);
      if log[|log| - 1].Emitted? {
        assert Events(log)[..|Events(log)| - 1] == Events(log[..|log| - 1]);
      }
    }
  }

  // The total is the sum of all returned counts, the number of residents and
  // the sum of the two counters; an authorized count costs a minted token and
  // an inferred one a committed chain.
  lemma {:induction false} CountsAreConserved(cfg: Config, ops: seq<Operation>)
    ensures var m := Run(cfg, ops);
      && m.total == SumOfCounts(Events(m.log)) == |m.residents| == m.authorized + m.inferred
      && m.authorized == |WithAuthority(Events(m.log), SourceTokenAuthorized)| <= |m.tokens|
      && m.inferred == |WithAuthority(Events(m.log), RuntimeInferredOnly)| <= |m.chains|
  {
    RunGood(cfg, ops);
    hide Run, WithAuthority;
    var m := Run(cfg, ops);
    SumIsLength(cfg, m.log);
    RangeSize(set k: nat | k in SpentTokens(m.log) :: k as int, 0, |m.tokens|);
    assert SpentTokens(m.log) == set k: nat | k in SpentTokens(m.log) :: k as int;
    SubsetSize(CountedChains(m.log), m.chains);
  }

  // ----- what was always in the output stays uncounted -----

  ghost predicate OutputOnly(m: Machine, id: int) {
    id in m.tracks
    && m.tracks[id].state == ResidentOutputObject
    && (m.tracks[id].token.Some? ==>
          m.tracks[id].token.value < |m.tokens| && m.tokens[m.tracks[id].token.value].consumed)
  }

  // Still output-only, or its memory is gone; in either case not counted anew.
  ghost predicate StaysOut(m: Machine, m': Machine, id: int) {
    && (id in m'.tracks ==> OutputOnly(m', id))
    && CountsOf(m'.log, id) == CountsOf(m.log, id)
  }

  lemma OthersStayOut(m: Machine, m': Machine, id: int, j: int)
    requires Acts(m, m', id) && j != id && OutputOnly(m, j)
    ensures OutputOnly(m', j) && CountsOf(m'.log, j) == CountsOf(m.log, j)
  {
    hide CountsOf;
    assert Unremembered(m', j) == Unremembered(m, j);
  }

  lemma DetectStaysOut(cfg: Config, m: Machine, d: Detection, approved: bool, id: int)
    requires OutputOnly(m, id)
    ensures OutputOnly(Detect(cfg, m, d, approved), id) && StaysOut(m, Detect(cfg, m, d, approved), id)
  {
    hide CountsOf, Detect;
    var m' := Detect(cfg, m, d, approved);
    DetectActs(cfg, m, d, approved);
    if d.trackId != id {
      OthersStayOut(m, m', d.trackId, id);
    } else {
      DetectItselfStaysOut(cfg, m, d, approved);
      assert Unremembered(m', id) == Unremembered(m, id);
    }
  }

  lemma DetectItselfStaysOut(cfg: Config, m: Machine, d: Detection, approved: bool)
    requires OutputOnly(m, d.trackId)
    ensures var m' := Detect(cfg, m, d, approved);
      OutputOnly(m', d.trackId) && m'.tracks[d.trackId].counted == m.tracks[d.trackId].counted
  {
    hide Judge;
    JudgeItselfStaysOut(cfg, Observe(m, d, approved), d, PreviousCenter(m, d.trackId));
  }

  lemma JudgeItselfStaysOut(cfg: Config, m: Machine, d: Detection, previous: Option<Point>)
    requires OutputOnly(m, d.trackId) && Placeable(m, d.trackId)
    ensures var m' := Judge(cfg, m, d, previous);
      OutputOnly(m', d.trackId) && m'.tracks[d.trackId].counted == m.tracks[d.trackId].counted
  {
    hide MatchingResident, Lender, Advance;
    var m1 := Put(m, d.trackId, m.tracks[d.trackId].(lastValidInOutput := !d.ignoreHit && d.outputHit));
    AdvanceItselfStaysOut(cfg, m1, d, previous);
  }

  lemma AdvanceItselfStaysOut(cfg: Config, m: Machine, d: Detection, previous: Option<Point>)
    requires OutputOnly(m, d.trackId) && Placeable(m, d.trackId)
    ensures var m' := Advance(cfg, m, d, previous);
      OutputOnly(m', d.trackId) && m'.tracks[d.trackId].counted == m.tracks[d.trackId].counted
  {
    hide Settle, GateCrossed;
    assert SourceStep(cfg, m, d) == m;
  }

  lemma MissStaysOut(cfg: Config, m: Machine, id: int, j: int)
    requires id in m.tracks && OutputOnly(m, j)
    ensures StaysOut(m, Miss(cfg, m, id), j)
    ensures j != id ==> j in Miss(cfg, m, id).tracks
  {
    hide CountsOf;
    var m1 := MarkMissing(cfg, m, id);
    CountsOfMore(m1.log, Forgotten(id), j);
    if j != id {
      MarkMissingActs(cfg, m, id);
      OthersStayOut(m, m1, id, j);
    }
  }

  lemma ExpireStaysOut(cfg: Config, m: Machine, id: int, j: int)
    requires id in m.tracks && OutputOnly(m, j)
    ensures OutputOnly(Expire(cfg, m, id), j) && StaysOut(m, Expire(cfg, m, id), j)
  {
    hide CountsOf;
  }

  lemma MissAbsent(cfg: Config, m: Machine, id: int, j: int)
    requires id in m.tracks && j !in m.tracks
    ensures j !in Miss(cfg, m, id).tracks && CountsOf(Miss(cfg, m, id).log, j) == CountsOf(m.log, j)
  {
    hide CountsOf, MarkMissing;
    var m1 := MarkMissing(cfg, m, id);
    MarkMissingActs(cfg, m, id);
    assert Unremembered(m1, j) == Unremembered(m, j);
    CountsOfMore(m1.log, Forgotten(id), j);
  }

  lemma {:induction false} DetectAllStaysOut(cfg: Config, m: Machine, ds: seq<Detection>, approved: Option<set<int>>,
                                             id: int)
    requires OutputOnly(m, id)
    ensures OutputOnly(DetectAll(cfg, m, ds, approved), id) && StaysOut(m, DetectAll(cfg, m, ds, approved), id)
  {
    hide Detect, CountsOf;
    if ds != [] {
      DetectAllStaysOut(cfg, m, ds[..|ds| - 1], approved, id);
      var d := ds[|ds| - 1];
      DetectStaysOut(cfg, DetectAll(cfg, m, ds[..|ds| - 1], approved), d,
                     approved.None? || d.trackId in approved.value, id);
    }
  }

  lemma {:induction false} MissAllStaysOut(cfg: Config, m: Machine, ids: seq<int>, present: set<int>, id: int)
    requires OutputOnly(m, id)
    ensures StaysOut(m, MissAll(cfg, m, ids, present), id)
  {
    hide Miss, CountsOf;
    if ids != [] {
      MissAllStaysOut(cfg, m, ids[..|ids| - 1], present, id);
      var m1 := MissAll(cfg, m, ids[..|ids| - 1], present);
      var last := ids[|ids| - 1];
      if last !in present && last in m1.tracks {
        if id in m1.tracks {
          MissStaysOut(cfg, m1, last, id);
        } else {
          MissAbsent(cfg, m1, last, id);
        }
      }
    }
  }

  lemma {:induction false} ExpireAllStaysOut(cfg: Config, m: Machine, ids: seq<int>, id: int)
    requires OutputOnly(m, id)
    ensures OutputOnly(ExpireAll(cfg, m, ids), id) && StaysOut(m, ExpireAll(cfg, m, ids), id)
  {
    hide Expire, CountsOf;
    if ids != [] {
      ExpireAllStaysOut(cfg, m, ids[..|ids| - 1], id);
      var m1 := ExpireAll(cfg, m, ids[..|ids| - 1]);
      if ids[|ids| - 1] in m1.tracks {
        ExpireStaysOut(cfg, m1, ids[|ids| - 1], id);
      }
    }
  }

  lemma {:induction false} ExpireAllQuiet(cfg: Config, m: Machine, ids: seq<int>)
    ensures ExpireAll(cfg, m, ids).log == m.log
    ensures ExpireAll(cfg, m, ids).tracks.Keys == m.tracks.Keys
  {
    if ids != [] {
      ExpireAllQuiet(cfg, m, ids[..|ids| - 1]);
    }
  }

  lemma UpdateStaysOut(cfg: Config, m: Machine, ds: seq<Detection>, approved: Option<set<int>>, id: int)
    requires OutputOnly(m, id)
    ensures StaysOut(m, Update(cfg, m, ds, approved), id)
  {
    hide CountsOf, DetectAll, MissAll, ExpireAll;
    var m0 := BeginFrame(m);
    CountsOfMore(m.log, Tick, id);
    DetectAllStaysOut(cfg, m0, ds, approved, id);
    var m1 := DetectAll(cfg, m0, ds, approved);
    MissAllStaysOut(cfg, m1, m1.order, Ids(ds), id);
    var m2 := MissAll(cfg, m1, m1.order, Ids(ds));
    ExpireAllQuiet(cfg, m2, m2.order);
    if id in m2.tracks {
      ExpireAllStaysOut(cfg, m2, m2.order, id);
    }
  }

  datatype Frame = Frame(detections: seq<Detection>, approved: Option<set<int>>)

  function Updates(cfg: Config, m: Machine, frames: seq<Frame>): Machine {
    if frames == [] then m
    else
      var last := frames[|frames| - 1];
      Update(cfg, Updates(cfg, m, frames[..|frames| - 1]), last.detections, last.approved)
  }

  // Over any updates during which its memory lives, an output-only track is
  // not counted, whatever is detected and approved.
  lemma {:induction false} OutputOnlyNeverCounted(cfg: Config, m: Machine, frames: seq<Frame>, id: int)
    requires OutputOnly(m, id)
    requires forall k :: 0 <= k < |frames| ==> id in Updates(cfg, m, frames[..k]).tracks
    ensures CountsOf(Updates(cfg, m, frames).log, id) == CountsOf(m.log, id)
    ensures id in Updates(cfg, m, frames).tracks ==> OutputOnly(Updates(cfg, m, frames), id)
  {
    hide CountsOf, Update, OutputOnly;
    if frames != [] {
      var before := frames[..|frames| - 1];
      forall k | 0 <= k < |before|
        ensures id in Updates(cfg, m, before[..k]).tracks
      {
        assert before[..k] == frames[..k];
      }
      OutputOnlyNeverCounted(cfg, m, before, id);
      assert frames[..|before|] == before;
      var last := frames[|frames| - 1];
      UpdateStaysOut(cfg, Updates(cfg, m, before), last.detections, last.approved, id);
    }
  }
}
