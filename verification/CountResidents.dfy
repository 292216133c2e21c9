// Residents are the counted parts, where they were counted.
module CountResidents {
  import opened Prelude
  import opened Geometry
  import opened CountModel
  import opened CountEffects
  import opened CountQuiet
  import opened CountChains

  // The resident lies where the event counted.
  predicate IsCount(r: Resident, e: Event, now: int) {
    r.trackId == e.trackId && r.bbox == e.bbox && r.center == Center(e.bbox) && r.createdFrame <= now
  }

  // As many residents as counts, in the same order.
  ghost predicate Matched(m: Machine) {
    && |m.residents| == |Events(m.log)|
    && forall k :: 0 <= k < |m.residents| ==> IsCount(m.residents[k], Events(m.log)[k], m.frame)
  }

  lemma SilentMatched(m: Machine, m': Machine)
    requires Matched(m) && Silent(m, m')
    ensures Matched(m')
  {
    hide Events;
  }

  lemma OneMatched(m: Machine, m': Machine, id: int)
    requires Matched(m) && CountsOne(m, m', id)
    ensures Matched(m')
  {
    hide Events, Center;
    forall k | 0 <= k < |m.residents|
      ensures IsCount(m'.residents[k], Events(m'.log)[k], m'.frame)
    {
      assert m'.residents[..|m.residents|][k] == m.residents[k];
      assert Events(m'.log)[..|Events(m.log)|][k] == Events(m.log)[k];
      assert IsCount(m.residents[k], Events(m.log)[k], m.frame);
    }
  }

  lemma {:induction false} DetectAllMatched(cfg: Config, m: Machine, ds: seq<Detection>, approved: Option<set<int>>)
    requires Matched(m)
    ensures Matched(DetectAll(cfg, m, ds, approved))
  {
    hide Detect, Matched, Silent, CountsOne;
    if ds != [] {
      var d := ds[|ds| - 1];
      var a := approved.None? || d.trackId in approved.value;
      var m1 := DetectAll(cfg, m, ds[..|ds| - 1], approved);
      DetectAllMatched(cfg, m, ds[..|ds| - 1], approved);
      DetectCounts(cfg, m1, d, a);
      if Silent(m1, Detect(cfg, m1, d, a)) {
        SilentMatched(m1, Detect(cfg, m1, d, a));
      } else {
        OneMatched(m1, Detect(cfg, m1, d, a), d.trackId);
      }
    }
  }

  lemma MarkMissingCounts(cfg: Config, m: Machine, id: int)
    requires id in m.tracks
    ensures Silent(m, MarkMissing(cfg, m, id)) || CountsOne(m, MarkMissing(cfg, m, id), id)
  {
    hide Events, Commit;
    var t := m.tracks[id].(missing := m.tracks[id].missing + 1);
    if ReadyToDisappear(cfg, m, t) && t.missing >= cfg.disappearFrames {
      CommitCountsOne(Put(m, id, t), id, DisappearedInOutput, None, None, None);
    }
  }

  lemma MissMatched(cfg: Config, m: Machine, id: int)
    requires id in m.tracks && Matched(m)
    ensures Matched(Miss(cfg, m, id))
  {
    hide Events, MarkMissing, Silent, CountsOne, IsCount;
    var m1 := MarkMissing(cfg, m, id);
    MarkMissingActs(cfg, m, id);
    MarkMissingCounts(cfg, m, id);
    if Silent(m, m1) {
      SilentMatched(m, m1);
    } else {
      OneMatched(m, m1, id);
    }
    EventsMore(m1.log, Forgotten(id));
  }

  lemma {:induction false} MissAllMatched(cfg: Config, m: Machine, ids: seq<int>, present: set<int>)
    requires Matched(m)
    ensures Matched(MissAll(cfg, m, ids, present))
  {
    hide Miss, Matched;
    if ids != [] {
      var m1 := MissAll(cfg, m, ids[..|ids| - 1], present);
      var id := ids[|ids| - 1];
      MissAllMatched(cfg, m, ids[..|ids| - 1], present);
      if id !in present && id in m1.tracks {
        MissMatched(cfg, m1, id);
      }
    }
  }

  lemma UpdateMatched(cfg: Config, m: Machine, ds: seq<Detection>, approved: Option<set<int>>)
    requires Matched(m)
    ensures Matched(Update(cfg, m, ds, approved))
  {
    hide Matched, Silent, DetectAll, MissAll, ExpireAll;
    var m0 := BeginFrame(m);
    var m1 := DetectAll(cfg, m0, ds, approved);
    var m2 := MissAll(cfg, m1, m1.order, Ids(ds));
    BeginFrameSilent(m);
    NextFrameMatched(m);
    SilentMatched(m.(frame := m.frame + 1), m0);
    DetectAllMatched(cfg, m0, ds, approved);
    MissAllMatched(cfg, m1, m1.order, Ids(ds));
    ExpireAllSilent(cfg, m2, m2.order);
    SilentMatched(m2, ExpireAll(cfg, m2, m2.order));
  }

  lemma NextFrameMatched(m: Machine)
    requires Matched(m)
    ensures Matched(m.(frame := m.frame + 1))
  {
    hide Events, Center;
    forall k | 0 <= k < |m.residents|
      ensures IsCount(m.residents[k], Events(m.log)[k], m.frame + 1)
    {
      assert IsCount(m.residents[k], Events(m.log)[k], m.frame);
    }
  }

  lemma ChainMatched(cfg: Config, m: Machine, chainId: string, id: int, box: Box, source: Option<int>)
    requires Matched(m)
    ensures Matched(CommitChain(cfg, m, chainId, id, box, source))
  {
    hide Events, CommitChain, Center, BesideRecent, Spends, Spendable;
    var m' := CommitChain(cfg, m, chainId, id, box, source);
    ChainExactly(cfg, m, chainId, id, box, source);
    EventsMore(m.log, Placed(id, Center(box)));
    if |m'.log| == |m.log| + 2 {
      assert m'.log == m.log + [Placed(id, Center(box))] + [m'.log[|m.log| + 1]];
      EventsMore(m.log + [Placed(id, Center(box))], m'.log[|m.log| + 1]);
    }
  }

  lemma {:induction false} RunMatched(cfg: Config, ops: seq<Operation>)
    ensures Matched(Run(cfg, ops))
  {
    hide Update, CommitChain, Matched;
    if ops == [] {
      assert Matched(INITIAL) by { NothingMatched(); }
    } else {
      var m := Run(cfg, ops[..|ops| - 1]);
      RunMatched(cfg, ops[..|ops| - 1]);
      match ops[|ops| - 1]
      case UpdateOp(ds, approved) => UpdateMatched(cfg, m, ds, approved);
      case ChainOp(chainId, id, box, source) => ChainMatched(cfg, m, chainId, id, box, source);
    }
  }

  lemma NothingMatched()
    ensures Matched(INITIAL)
  {
  }

  // In every run the residents are the counts, in order, where they were counted.
  lemma ResidentsAreCounts(cfg: Config, ops: seq<Operation>)
    ensures var m := Run(cfg, ops);
      && |m.residents| == |Events(m.log)|
      && forall k :: 0 <= k < |m.residents| ==> IsCount(m.residents[k], Events(m.log)[k], m.frame)
  {
    hide Run, Events, IsCount;
    RunMatched(cfg, ops);
  }
}
