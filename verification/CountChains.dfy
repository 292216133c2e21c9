// What a delivery chain does: exactly when it counts, which token it spends and
// what it reports.
module CountChains {
  import opened Prelude
  import opened Geometry
  import opened CountModel
  import opened CountChoices

  // The nearest of the residents that match the box, the first of equals, is
  // young enough to make the chain a repetition.
  ghost predicate BesideRecent(cfg: Config, m: Machine, box: Box) {
    exists k :: 0 <= k < |m.residents| && NearestBeside(cfg, m.residents, box, k)
                && m.frame - m.residents[k].createdFrame <= cfg.dedupeWindow
  }

  ghost predicate LiesAt(cfg: Config, r: Resident, box: Box) {
    Within(Center(box), r.center, cfg.residentDistance) || Overlap(box, r.bbox) >= cfg.residentOverlap
  }

  ghost predicate NearestBeside(cfg: Config, residents: seq<Resident>, box: Box, k: nat) {
    && k < |residents| && LiesAt(cfg, residents[k], box)
    && forall j :: 0 <= j < |residents| && LiesAt(cfg, residents[j], box) ==>
         var (best, other) := (DistanceSq(Center(box), residents[k].center),
                               DistanceSq(Center(box), residents[j].center));
         best <= other && (j < k ==> best < other)
  }

  // The track holds a token that can be spent.
  ghost predicate Spendable(m: Machine, j: int) {
    && j in m.tracks && m.tracks[j].token.Some? && m.tracks[j].token.value < |m.tokens|
    && !m.tokens[m.tracks[j].token.value].consumed
  }

  // The count names the token of track j, and it is spent.
  ghost predicate Spends(m: Machine, m': Machine, e: Event, j: int) {
    && j in m.tracks && m.tracks[j].token.Some? && m.tracks[j].token.value < |m.tokens| == |m'.tokens|
    && e.tokenId == m.tracks[j].token && e.authority == SourceTokenAuthorized
    && e.sourceBbox == Some(m.tokens[m.tracks[j].token.value].sourceBbox)
    && m'.tokens[m.tracks[j].token.value].consumed
  }

  // The one count of a chain: with the source track's token, else with the output
  // track's own, else inferred.
  ghost predicate ChainCount(m: Machine, m': Machine, e: Event, chainId: string, id: int, box: Box,
                             source: Option<int>)
  {
    && e.trackId == id && e.count == 1 && e.reason == ApprovedDeliveryChain && e.bbox == box
    && e.chainId == Some(chainId) && e.sourceTrackId == source
    && if source.Some? && Spendable(m, source.value) then
         && Spends(m, m', e, source.value) && e.provenance == Some(InheritedLiveSourceToken)
         && m'.tokens[m.tracks[source.value].token.value].trackId == id
       else if Spendable(m, id) then
         Spends(m, m', e, id) && e.provenance == Some(SourceZoneToken)
       else e.authority == RuntimeInferredOnly && e.provenance == Some(SyntheticApprovedChainToken)
  }

  // A chain that counts: its track is put in the output and counted, one resident
  // more lies there, and the log says so.
  ghost predicate CountsChain(m: Machine, m': Machine, chainId: string, id: int, box: Box, source: Option<int>) {
    && |m'.log| == |m.log| + 2 && m.log < m'.log && m'.log[|m.log|] == Placed(id, Center(box))
    && m'.log[|m.log| + 1].Emitted? && ChainCount(m, m', m'.log[|m.log| + 1].event, chainId, id, box, source)
    && id in m'.tracks && m'.tracks[id].counted && m'.total == m.total + 1
    && m'.residents == m.residents + [Resident(id, box, Center(box), m.frame)]
  }

  lemma RecentResident(cfg: Config, m: Machine, box: Box)
    ensures var near := MatchingResident(cfg, m.residents, box);
      BesideRecent(cfg, m, box) <==> near.Some? && m.frame - near.value.createdFrame <= cfg.dedupeWindow
  {
    hide DistanceSq, Center, Within, Overlap;
    MatchingResidentIsNearest(cfg, m.residents, box);
  }

  lemma ProvideSpends(m: Machine, id: int, box: Box, chainId: string, source: Option<int>)
    requires Placeable(m, id) && m.tracks[id].lastBbox == Some(box)
    ensures var (m1, provenance) := Provide(m, id, source);
      && Placeable(m1, id) && m1.frame == m.frame && m1.log == m.log && m1.residents == m.residents
      && m1.total == m.total && m1.chains == m.chains
      && var m2 := Commit(m1, id, ApprovedDeliveryChain, Some(chainId), source, Some(provenance));
         ChainCount(m, m2, CountEvent(m1, id, ApprovedDeliveryChain, Some(chainId), source, Some(provenance)),
                    chainId, id, box, source)
  {
    hide Age, Center;
  }

  // Everything a chain does.
  lemma ChainExactly(cfg: Config, m: Machine, chainId: string, id: int, box: Box, source: Option<int>)
    ensures var m' := CommitChain(cfg, m, chainId, id, box, source);
      if chainId in m.chains then m' == m
      else
        && m'.chains == m.chains + {chainId} && m'.frame == m.frame && id in m'.tracks
        && if BesideRecent(cfg, m, box) then
             && m'.log == m.log + [Placed(id, Center(box))] && m'.tracks[id].state == ResidentOutputObject
             && m'.tracks[id].lastBbox == Some(box) && m'.tokens == m.tokens && m'.residents == m.residents
           else if id in m.tracks && m.tracks[id].counted then
             m'.log == m.log && m'.tracks == m.tracks && m'.tokens == m.tokens && m'.residents == m.residents
           else CountsChain(m, m', chainId, id, box, source)
  {
    hide BesideRecent, Center, MatchingResident, Commit, Provide, Approach, Spendable, Spends;
    RecentResident(cfg, m, box);
    if chainId !in m.chains && !BesideRecent(cfg, m, box) && !(id in m.tracks && m.tracks[id].counted) {
      var m1 := Remember(m, id).(chains := m.chains + {chainId});
      ChainThatCounts(cfg, m, m1, chainId, id, box, source);
    }
  }

  lemma ChainThatCounts(cfg: Config, m: Machine, m1: Machine, chainId: string, id: int, box: Box, source: Option<int>)
    requires m1 == Remember(m, id).(chains := m.chains + {chainId}) && !m1.tracks[id].counted
    ensures var m2 := Approach(cfg, m1, id, box);
      var (m3, provenance) := Provide(m2, id, source);
      && Placeable(m3, id)
      && var m' := Commit(m3, id, ApprovedDeliveryChain, Some(chainId), source, Some(provenance));
         && m'.chains == m.chains + {chainId} && m'.frame == m.frame && id in m'.tracks
         && CountsChain(m, m', chainId, id, box, source)
  {
    hide Center, Spends, Spendable, Age;
    var m2 := Approach(cfg, m1, id, box);
    ProvideSpends(m2, id, box, chainId, source);
    var (m3, provenance) := Provide(m2, id, source);
    hide Approach, Provide, CountEvent;
    ChainTokens(cfg, m, m1, chainId, id, box, source);
    ApproachLog(cfg, m1, id, box);
    CommitTallies(m3, id, chainId, source, provenance);
  }

  lemma ApproachLog(cfg: Config, m: Machine, id: int, box: Box)
    requires id in m.tracks
    ensures var m' := Approach(cfg, m, id, box);
      && m'.log == m.log + [Placed(id, Center(box))] && m'.frame == m.frame && m'.residents == m.residents
      && m'.total == m.total && m'.chains == m.chains
      && Placeable(m', id) && m'.tracks[id].lastBbox == Some(box)
  {
    hide Center;
  }

  lemma CommitTallies(m: Machine, id: int, chainId: string, source: Option<int>, provenance: Provenance)
    requires Placeable(m, id)
    ensures var e := CountEvent(m, id, ApprovedDeliveryChain, Some(chainId), source, Some(provenance));
      var m' := Commit(m, id, ApprovedDeliveryChain, Some(chainId), source, Some(provenance));
      && |m'.log| == |m.log| + 1 && m.log < m'.log && m'.log[|m.log|].Emitted? && m'.log[|m.log|].event == e
      && m'.residents == m.residents + [Resident(e.trackId, e.bbox, Center(e.bbox), m.frame)]
      && m'.total == m.total + 1 && m'.chains == m.chains && m'.frame == m.frame
      && id in m'.tracks && m'.tracks[id].counted
  {
    hide Center, Age, CountEvent;
  }

  // The tokens are as they were before the track was put in the output.
  lemma ChainTokens(cfg: Config, m: Machine, m1: Machine, chainId: string, id: int, box: Box, source: Option<int>)
    requires m1 == Remember(m, id).(chains := m.chains + {chainId})
    ensures var m2 := Approach(cfg, m1, id, box);
      forall m', e :: ChainCount(m2, m', e, chainId, id, box, source) ==> ChainCount(m, m', e, chainId, id, box, source)
  {
    hide Center;
    var m2 := Approach(cfg, m1, id, box);
    assert m2.tokens == m.tokens;
    forall m', e | ChainCount(m2, m', e, chainId, id, box, source)
      ensures ChainCount(m, m', e, chainId, id, box, source)
    {
      SameTokens(m, m1, m2, id);
    }
  }

  lemma SameTokens(m: Machine, m1: Machine, m2: Machine, id: int)
    requires m2.tokens == m1.tokens == m.tokens && id in m1.tracks
    requires forall j :: j in m.tracks ==> j in m1.tracks && m1.tracks[j] == m.tracks[j]
    requires forall j :: j in m1.tracks && j !in m.tracks ==> m1.tracks[j].token.None?
    requires m2.tracks.Keys == m1.tracks.Keys && forall j :: j in m1.tracks ==> m2.tracks[j].token == m1.tracks[j].token
    ensures forall j :: Spendable(m2, j) <==> Spendable(m, j)
    ensures forall m', e, j :: Spends(m2, m', e, j) && Spendable(m, j) ==> Spends(m, m', e, j)
  {
  }
}
