// What a step of the counter does to the tracks it is not about, and how the
// counts of one track relate to its counted flag.
module CountEffects {
  import opened Prelude
  import opened Geometry
  import opened CountModel

  // How often a track id was counted.
  ghost function CountsOf(log: seq<Entry>, id: int): nat {
    if log == [] then 0
    else
      CountsOf(log[..|log| - 1], id)
      + match log[|log| - 1]
        case Emitted(e, _) => if e.trackId == id then 1 else 0
        case _ => 0
  }

  predicate IsCounted(m: Machine, id: int) {
    id in m.tracks && m.tracks[id].counted
  }

  // Counts of the id that its present memory does not know of.
  ghost function Unremembered(m: Machine, id: int): int {
    CountsOf(m.log, id) - if IsCounted(m, id) then 1 else 0
  }

  // A step on track id leaves every other track alone, never revives a token,
  // never clears a counted flag and counts exactly when it sets one.
  ghost predicate Acts(m: Machine, m': Machine, id: int) {
    && |m.tokens| <= |m'.tokens|
    && (forall k :: 0 <= k < |m.tokens| && m.tokens[k].consumed ==> m'.tokens[k].consumed)
    && (forall j :: j != id ==> (j in m'.tracks <==> j in m.tracks))
    && (forall j :: j != id && j in m.tracks ==> m'.tracks[j] == m.tracks[j])
    && (id in m.tracks ==> id in m'.tracks)
    && (IsCounted(m, id) ==> IsCounted(m', id))
    && (forall j :: Unremembered(m', j) == Unremembered(m, j))
  }

  lemma CountsOfMore(log: seq<Entry>, e: Entry, j: int)
    ensures CountsOf(log + [e], j) == CountsOf(log, j) + if e.Emitted? && e.event.trackId == j then 1 else 0
  {
    assert (log + [e])[..|log + [e]| - 1] == log;
  }

  lemma CountsOfMoreForAll(log: seq<Entry>, e: Entry)
    ensures forall j :: CountsOf(log + [e], j)
                        == CountsOf(log, j) + if e.Emitted? && e.event.trackId == j then 1 else 0
  {
    hide CountsOf;
    forall j
      ensures CountsOf(log + [e], j) == CountsOf(log, j) + if e.Emitted? && e.event.trackId == j then 1 else 0
    {
      CountsOfMore(log, e, j);
    }
  }

  lemma ActsTransitive(m: Machine, m': Machine, m'': Machine, id: int)
    requires Acts(m, m', id) && Acts(m', m'', id)
    ensures Acts(m, m'', id)
  {
    hide CountsOf, IsCounted;
  }

  // ----- the steps -----

  lemma ObserveActs(m: Machine, d: Detection, approved: bool)
    ensures Acts(m, Observe(m, d, approved), d.trackId)
    ensures d.trackId in m.tracks ==> Observe(m, d, approved).tracks[d.trackId].state == m.tracks[d.trackId].state
    ensures d.trackId in m.tracks ==> Observe(m, d, approved).tracks[d.trackId].token == m.tracks[d.trackId].token
    ensures d.trackId in m.tracks ==> Observe(m, d, approved).tracks[d.trackId].counted == m.tracks[d.trackId].counted
  {
    hide CountsOf;
    CountsOfMoreForAll(m.log, Detected(d.trackId, Center(d.bbox)));
    assert Observe(m, d, approved).log == m.log + [Detected(d.trackId, Center(d.bbox))];
  }

  lemma ClassifyActs(cfg: Config, m: Machine, d: Detection)
    requires Placeable(m, d.trackId)
    ensures Classify(cfg, m, d).Some? ==> Acts(m, Classify(cfg, m, d).value, d.trackId)
  {
    hide CountsOf, MatchingResident;
    var lender := Lender(cfg, m, m.order, d.trackId);
    if lender.Some? {
      CountsOfMoreForAll(m.log, Inherited(d.trackId, lender.value));
    }
  }

  lemma SourceStepActs(cfg: Config, m: Machine, d: Detection)
    requires Placeable(m, d.trackId)
    ensures Acts(m, SourceStep(cfg, m, d), d.trackId)
  {
    hide CountsOf;
  }

  lemma GateStepActs(cfg: Config, m: Machine, d: Detection, previous: Option<Point>)
    requires Placeable(m, d.trackId)
    ensures Acts(m, GateStep(cfg, m, d, previous), d.trackId)
  {
    hide CountsOf, GateCrossed;
  }

  lemma CommitActs(m: Machine, id: int, reason: Reason, chainId: Option<string>,
                   sourceTrackId: Option<int>, provenance: Option<Provenance>)
    requires Placeable(m, id) && !m.tracks[id].counted
    ensures Acts(m, Commit(m, id, reason, chainId, sourceTrackId, provenance), id)
  {
    hide CountsOf, Age;
    var e := Emitted(CountEvent(m, id, reason, chainId, sourceTrackId, provenance), Age(m, m.tracks[id]));
    CountsOfMoreForAll(m.log, e);
    assert Commit(m, id, reason, chainId, sourceTrackId, provenance).log == m.log + [e];
  }

  lemma PutActs(m: Machine, id: int, t: Track)
    requires id in m.tracks && t.counted == m.tracks[id].counted
    ensures Acts(m, Put(m, id, t), id)
  {
    hide CountsOf;
  }

  lemma SettleActs(cfg: Config, m: Machine, d: Detection, previous: Option<Point>)
    requires Placeable(m, d.trackId)
    ensures Acts(m, Settle(cfg, m, d, previous), d.trackId)
  {
    hide CountsOf, Acts, Stable, Commit;
    var t := m.tracks[d.trackId];
    var t' := t.(
      outputFrames := t.outputFrames + 1,
      enteredOutput := true,
      state := SettledState(t.state),
      stableOutputFrames := if Stable(cfg, previous, Center(d.bbox)) then t.stableOutputFrames + 1 else 1);
    PutActs(m, d.trackId, t');
    var m' := Put(m, d.trackId, t');
    if t'.approved && !t'.counted && t'.stableOutputFrames >= cfg.outputStableFrames {
      CommitActs(m', d.trackId, StableInOutput, None, None, None);
      ActsTransitive(m, m', Settle(cfg, m, d, previous), d.trackId);
    }
  }

  lemma OutputStepActs(cfg: Config, m: Machine, d: Detection, previous: Option<Point>)
    requires Placeable(m, d.trackId)
    ensures Acts(m, OutputStep(cfg, m, d, previous), d.trackId)
  {
    hide CountsOf, Acts, Settle;
    var t := m.tracks[d.trackId];
    if d.outputHit && Live(m, t) && GateSatisfied(cfg, t) {
      SettleActs(cfg, m, d, previous);
    } else {
      PutActs(m, d.trackId, OutputStep(cfg, m, d, previous).tracks[d.trackId]);
    }
  }

  lemma AdvanceActs(cfg: Config, m: Machine, d: Detection, previous: Option<Point>)
    requires Placeable(m, d.trackId)
    ensures Acts(m, Advance(cfg, m, d, previous), d.trackId)
  {
    hide Acts, SourceStep, GateStep, OutputStep, Placeable;
    var m1 := SourceStep(cfg, m, d);
    var m2 := GateStep(cfg, m1, d, previous);
    SourceStepActs(cfg, m, d);
    GateStepActs(cfg, m1, d, previous);
    OutputStepActs(cfg, m2, d, previous);
    ActsTransitive(m, m1, m2, d.trackId);
    ActsTransitive(m, m2, OutputStep(cfg, m2, d, previous), d.trackId);
  }

  lemma JudgeActs(cfg: Config, m: Machine, d: Detection, previous: Option<Point>)
    requires Placeable(m, d.trackId)
    ensures Acts(m, Judge(cfg, m, d, previous), d.trackId)
  {
    hide Acts, Classify, Advance;
    var id := d.trackId;
    var t := m.tracks[id].(lastValidInOutput := !d.ignoreHit && d.outputHit);
    var m1 := Put(m, id, t);
    PutActs(m, id, t);
    if !d.ignoreHit {
      var judged := Classify(cfg, m1, d);
      if judged.None? {
        PutActs(m1, id, t.(state := ResidentOutputObject));
        ActsTransitive(m, m1, Put(m1, id, t.(state := ResidentOutputObject)), id);
      } else {
        ClassifyActs(cfg, m1, d);
        AdvanceActs(cfg, judged.value, d, previous);
        ActsTransitive(m, m1, judged.value, id);
        ActsTransitive(m, judged.value, Advance(cfg, judged.value, d, previous), id);
      }
    }
  }

  lemma DetectActs(cfg: Config, m: Machine, d: Detection, approved: bool)
    ensures Acts(m, Detect(cfg, m, d, approved), d.trackId)
  {
    hide Acts, Observe, Judge;
    var m1 := Observe(m, d, approved);
    ObserveActs(m, d, approved);
    JudgeActs(cfg, m1, d, PreviousCenter(m, d.trackId));
    ActsTransitive(m, m1, Judge(cfg, m1, d, PreviousCenter(m, d.trackId)), d.trackId);
  }

  lemma MarkMissingActs(cfg: Config, m: Machine, id: int)
    requires id in m.tracks
    ensures Acts(m, MarkMissing(cfg, m, id), id)
    ensures MarkMissing(cfg, m, id).tracks[id].missing == m.tracks[id].missing + 1
  {
    hide Acts;
    var t := m.tracks[id].(missing := m.tracks[id].missing + 1);
    var m1 := Put(m, id, t);
    PutActs(m, id, t);
    if ReadyToDisappear(cfg, m, t) && t.missing >= cfg.disappearFrames {
      CommitActs(m1, id, DisappearedInOutput, None, None, None);
      ActsTransitive(m, m1, MarkMissing(cfg, m, id), id);
    }
  }

  lemma ExpireActs(cfg: Config, m: Machine, id: int)
    requires id in m.tracks
    ensures Acts(m, Expire(cfg, m, id), id)
    ensures Expire(cfg, m, id).tracks[id].missing == m.tracks[id].missing
  {
    hide CountsOf;
  }

  lemma CommitChainActs(cfg: Config, m: Machine, chainId: string, id: int, bbox: Box, sourceTrackId: Option<int>)
    ensures Acts(m, CommitChain(cfg, m, chainId, id, bbox, sourceTrackId), id)
    ensures CommitChain(cfg, m, chainId, id, bbox, sourceTrackId).frame == m.frame
    ensures id in m.tracks ==>
      CommitChain(cfg, m, chainId, id, bbox, sourceTrackId).tracks[id].missing == m.tracks[id].missing
  {
    hide CountsOf, MatchingResident, Acts;
    if chainId in m.chains {
      ActsRefl(m, id);
    } else {
      var m1 := Remember(m, id).(chains := m.chains + {chainId});
      RememberActs(m, id, chainId);
      var t := m1.tracks[id];
      var near := MatchingResident(cfg, m.residents, bbox);
      if near.Some? && m.frame - near.value.createdFrame <= cfg.dedupeWindow {
        var m2 := CommitChain(cfg, m, chainId, id, bbox, sourceTrackId);
        PlaceActs(m1, id, m2.tracks[id], Center(bbox));
        ActsTransitive(m, m1, m2, id);
      } else if !t.counted {
        var m2 := Approach(cfg, m1, id, bbox);
        PlaceActs(m1, id, m2.tracks[id], Center(bbox));
        ActsTransitive(m, m1, m2, id);
        ProvideActs(m2, id, sourceTrackId);
        var (m3, provenance) := Provide(m2, id, sourceTrackId);
        ActsTransitive(m, m2, m3, id);
        CommitActs(m3, id, ApprovedDeliveryChain, Some(chainId), sourceTrackId, Some(provenance));
        ActsTransitive(m, m3, CommitChain(cfg, m, chainId, id, bbox, sourceTrackId), id);
      }
    }
  }

  lemma ActsRefl(m: Machine, id: int)
    ensures Acts(m, m, id)
  {
  }

  lemma RememberActs(m: Machine, id: int, chainId: string)
    ensures Acts(m, Remember(m, id).(chains := m.chains + {chainId}), id)
  {
    hide CountsOf;
  }

  lemma PlaceActs(m: Machine, id: int, t: Track, center: Point)
    requires id in m.tracks && t.counted == m.tracks[id].counted
    ensures Acts(m, Note(Put(m, id, t), Placed(id, center)), id)
  {
    hide CountsOf;
    CountsOfMoreForAll(m.log, Placed(id, center));
  }

  lemma ProvideActs(m: Machine, id: int, sourceTrackId: Option<int>)
    requires id in m.tracks
    ensures Acts(m, Provide(m, id, sourceTrackId).0, id)
  {
    hide CountsOf;
  }
}
