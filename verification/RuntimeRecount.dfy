// Exactly when the runtime counts a tracker id at most once: the run of
// RuntimeScript counts the third part's id twice whenever the tracker remembers
// longer than the counter.
module RuntimeRecount {
  import opened Prelude
  import opened Geometry
  import opened CountModel
  import opened CountInvariant
  import opened CountEffects
  import opened CountTheorems
  import opened CountQuiet
  import opened RuntimeModel
  import opened RuntimeEvidence
  import opened RuntimeScene
  import opened RuntimeScript
  import T = BoxTracker

  // ----- what the counter sees -----

  lemma SeenIds(cfg: RuntimeConfig, i: nat)
    ensures forall id :: id in Ids(Seen(cfg, i)) <==> id in Visible(cfg, i)
  {
    forall id
      ensures id in Ids(Seen(cfg, i)) <==> id in Visible(cfg, i)
    {
      FoundAreIds(Sighted(cfg, Visible(cfg, i)));
      SightedFinds(cfg, Visible(cfg, i), id);
    }
  }

  function Third(cfg: RuntimeConfig): Detection {
    Detection(3, Spot(cfg, 3), false, false, true)
  }

  lemma SeenThird(cfg: RuntimeConfig, i: nat)
    requires Visible(cfg, i) == [3]
    ensures Seen(cfg, i) == [Third(cfg)]
  {
    hide Spot;
    SightedFew(cfg, i);
    var x := T.Sighting(3, 0, Part(cfg, 3));
    assert Sighted(cfg, Visible(cfg, i)) == [x];
    assert [x][..0] == [];
    assert ToDetections([]) == [];
  }

  // ----- before the third part is seen -----

  // Nothing has been counted, and no track is approved.
  ghost predicate Untouched(cfg: RuntimeConfig, m: Machine, n: nat) {
    && Good(cfg.count, m) && IdleBut(m, {}) && m.frame == n
    && m.chains == {} && m.residents == [] && Events(m.log) == [] && 3 !in m.tracks
  }

  lemma NothingTouched(cfg: RuntimeConfig)
    ensures Untouched(cfg, INITIAL, 0)
  {
    InitialGood(cfg.count);
  }

  lemma LeadUntouched(cfg: RuntimeConfig, m: Machine, i: nat)
    requires Untouched(cfg, m, i) && i < Lead(cfg)
    ensures Untouched(cfg, Update(cfg.count, m, Seen(cfg, i), Some({})), i + 1)
  {
    hide Good, Update, Events, Seen, Idle;
    SeenIds(cfg, i);
    UpdateSilent(cfg.count, m, Seen(cfg, i), {});
    UpdateKeeps(cfg.count, m, Seen(cfg, i), Some({}));
    UpdateAges(cfg.count, m, Seen(cfg, i), Some({}));
  }

  // ----- the third part is counted once -----

  // The third part was counted; its age and what else the second count needs.
  ghost predicate Counted(cfg: RuntimeConfig, m: Machine, n: nat) {
    && Good(cfg.count, m) && IdleBut(m, {}) && m.frame == n
    && m.chains <= {ChainName(2)} && CountsOf(m.log, 3) >= 1
    && (forall r :: r in m.residents ==> r.createdFrame <= Lead(cfg) + 1)
    && (3 in m.tracks ==> m.tracks[3].missing == n - Lead(cfg) - 1)
  }

  // The update that first sees the third part, and the chain it commits.
  lemma ThirdIsCounted(cfg: RuntimeConfig, m: Machine)
    requires Untouched(cfg, m, Lead(cfg))
    ensures var m1 := Update(cfg.count, m, [Third(cfg)], Some({3}));
      Counted(cfg, CommitChain(cfg.count, m1, ChainName(2), 3, Spot(cfg, 3), Some(2)), Lead(cfg) + 1)
  {
    hide Good, Update, CommitChain, Events, ChainName, CountsOf, Idle, Spot, Acts;
    var d := Third(cfg);
    var m1 := Update(cfg.count, m, [d], Some({3}));
    var m2 := CommitChain(cfg.count, m1, ChainName(2), 3, Spot(cfg, 3), Some(2));
    UpdateOfNewTrack(cfg.count, m, d, {3});
    UpdateKeeps(cfg.count, m, [d], Some({3}));
    UpdateAges(cfg.count, m, [d], Some({3}));
    assert d in [d];
    StepKeeps(cfg.count, m1, ChainOp(ChainName(2), 3, Spot(cfg, 3), Some(2)));
    CommitChainActs(cfg.count, m1, ChainName(2), 3, Spot(cfg, 3), Some(2));
    ChainChanges(cfg.count, m1, ChainName(2), 3, Spot(cfg, 3), Some(2));
    if m1.tracks[3].counted {
      ResidentsOfOne(m.(frame := m.frame + 1), m1, 3);
      CountedStays(m.(frame := m.frame + 1), m1, m2);
    } else {
      ChainCounts(cfg.count, m1, ChainName(2), 3, Spot(cfg, 3), Some(2));
      CountsChange(m1.(chains := m1.chains + {ChainName(2)}), m2, 3);
    }
    QuietAfterChain(m1, m2);
  }

  lemma CountedStays(m: Machine, m1: Machine, m2: Machine)
    requires CountsOne(m, m1, 3) && Acts(m1, m2, 3) && IsCounted(m1, 3)
    ensures CountsOf(m2.log, 3) >= 1 && IsCounted(m2, 3)
  {
    CountsChange(m, m1, 3);
    hide CountsOf, Events;
    assert Unremembered(m2, 3) == Unremembered(m1, 3);
  }

  lemma QuietAfterChain(m: Machine, m': Machine)
    requires IdleBut(m, {3}) && Acts(m, m', 3) && IsCounted(m', 3)
    ensures IdleBut(m', {})
  {
    hide CountsOf;
  }

  // ----- while it is out of sight -----

  lemma CountedWaits(cfg: RuntimeConfig, m: Machine, i: nat)
    requires Counted(cfg, m, i) && Lead(cfg) < i < Length(cfg) - 1 && cfg.count.maxMissing >= 0
    ensures var m' := Update(cfg.count, m, Seen(cfg, i), Some({3}));
      Counted(cfg, m', i + 1) && (i + 2 == Length(cfg) ==> 3 !in m'.tracks)
  {
    hide Good, Update, Events, Seen, Idle, CountsOf, ChainName;
    SeenIds(cfg, i);
    forall d | d in Seen(cfg, i)
      ensures d.trackId != 3
    {
      assert d.trackId in Ids(Seen(cfg, i));
    }
    UpdateSilent(cfg.count, m, Seen(cfg, i), {3});
    UpdateKeeps(cfg.count, m, Seen(cfg, i), Some({3}));
    UpdateAges(cfg.count, m, Seen(cfg, i), Some({3}));
    var m' := Update(cfg.count, m, Seen(cfg, i), Some({3}));
    CountsChange(m.(frame := m.frame + 1), m', 3);
  }

  // ----- seen again it is counted again -----

  lemma ThirdIsCountedAgain(cfg: RuntimeConfig, m: Machine)
    requires Standard(cfg) && Counted(cfg, m, Length(cfg) - 1) && 3 !in m.tracks
    ensures var m1 := Update(cfg.count, m, [Third(cfg)], Some({3}));
      CountsOf(CommitChain(cfg.count, m1, ChainName(1), 3, Spot(cfg, 3), Some(1)).log, 3) >= 2
  {
    hide Good, Update, CommitChain, Events, CountsOf, Idle, Spot, Acts;
    NamesDiffer();
    hide ChainName;
    var d := Third(cfg);
    var m1 := Update(cfg.count, m, [d], Some({3}));
    var m2 := CommitChain(cfg.count, m1, ChainName(1), 3, Spot(cfg, 3), Some(1));
    UpdateOfNewTrack(cfg.count, m, d, {3});
    CountsChange(m.(frame := m.frame + 1), m1, 3);
    if m1.tracks[3].counted {
      CommitChainActs(cfg.count, m1, ChainName(1), 3, Spot(cfg, 3), Some(1));
      CountsGrow(m1, m2, 3);
    } else {
      ChainCounts(cfg.count, m1, ChainName(1), 3, Spot(cfg, 3), Some(1));
      CountsChange(m1.(chains := m1.chains + {ChainName(1)}), m2, 3);
    }
  }

  lemma CountsGrow(m: Machine, m': Machine, id: int)
    requires Acts(m, m', id)
    ensures CountsOf(m'.log, id) >= CountsOf(m.log, id)
  {
    hide CountsOf;
    assert Unremembered(m', id) == Unremembered(m, id);
  }

  lemma NamesDiffer()
    ensures ChainName(1) != ChainName(2)
  {
    assert ChainName(1)[|ChainName(1)| - 1] == '1';
    assert ChainName(2)[|ChainName(2)| - 1] == '2';
  }

  // ----- the whole run -----

  // The counter after the first n frames, but for the last.
  ghost predicate CounterAt(cfg: RuntimeConfig, m: Machine, n: nat) {
    if n <= Lead(cfg) then Untouched(cfg, m, n)
    else Counted(cfg, m, n) && (n + 1 == Length(cfg) ==> 3 !in m.tracks)
  }

  lemma CommitNone(cfg: RuntimeConfig, m: Machine)
    ensures CommitAll(cfg, m, []) == m
  {
  }

  lemma CommitOne(cfg: RuntimeConfig, m: Machine, c: Chain)
    ensures CommitAll(cfg, m, [c]) == CommitChain(cfg.count, m, ChainName(c.source), c.output, c.box, Some(c.source))
  {
    hide CommitChain, ChainName;
    assert [c][..0] == [];
    CommitNone(cfg, m);
  }

  lemma CounterFollows(cfg: RuntimeConfig, m: Machine, i: nat)
    requires Standard(cfg) && CounterAt(cfg, m, i) && i + 1 < Length(cfg)
    ensures CounterAt(cfg, CommitAll(cfg, Update(cfg.count, m, Seen(cfg, i), Some(AllowedAt(cfg, i))), ChainsAt(cfg, i)),
                      i + 1)
  {
    hide Untouched, Counted, Update, CommitAll, CommitChain, Seen, Spot, ChainName;
    var m1 := Update(cfg.count, m, Seen(cfg, i), Some(AllowedAt(cfg, i)));
    CommitNone(cfg, m1);
    if i < Lead(cfg) {
      LeadUntouched(cfg, m, i);
    } else if i == Lead(cfg) {
      SeenThird(cfg, i);
      CommitOne(cfg, m1, Chain(2, 3, Spot(cfg, 3)));
      ThirdIsCounted(cfg, m);
      LongEnough(cfg);
    } else {
      CountedWaits(cfg, m, i);
    }
  }

  lemma LongEnough(cfg: RuntimeConfig)
    ensures Lead(cfg) + 3 <= Length(cfg)
  {
  }

  lemma {:induction false} ScriptCounts(cfg: RuntimeConfig, n: nat)
    requires Standard(cfg) && n < Length(cfg)
    ensures CounterAt(cfg, Frames(cfg, Script(cfg)[..n]).machine, n)
  {
    hide ProcessFrame, Visible, AllowedAt, SceneAt, CounterAt, Update, CommitAll, ChainsAt, Length;
    if n == 0 {
      CounterStarts(cfg);
    } else {
      ScriptCounts(cfg, n - 1);
      SceneFollows(cfg, n - 1);
      FramesOfScript(cfg, n);
      FrameFollows(cfg, Frames(cfg, Script(cfg)[..n - 1]), n - 1);
      CounterFollows(cfg, Frames(cfg, Script(cfg)[..n - 1]).machine, n - 1);
    }
  }

  lemma CounterStarts(cfg: RuntimeConfig)
    ensures CounterAt(cfg, Frames(cfg, []).machine, 0)
  {
    hide Untouched;
    NothingTouched(cfg);
  }

  lemma LastFrame(cfg: RuntimeConfig, m: Machine)
    requires Standard(cfg) && CounterAt(cfg, m, Length(cfg) - 1)
    ensures var i := Length(cfg) - 1;
      CountsOf(CommitAll(cfg, Update(cfg.count, m, Seen(cfg, i), Some(AllowedAt(cfg, i))), ChainsAt(cfg, i)).log, 3) >= 2
  {
    hide Untouched, Counted, Update, CommitAll, CommitChain, Seen, Spot, ChainName, CountsOf;
    var i := Length(cfg) - 1;
    SeenThird(cfg, i);
    CommitOne(cfg, Update(cfg.count, m, Seen(cfg, i), Some(AllowedAt(cfg, i))), Chain(1, 3, Spot(cfg, 3)));
    ThirdIsCountedAgain(cfg, m);
  }

  // Whatever gate line is configured: when the tracker remembers longer than the
  // counter, a run that can happen counts one tracker id twice.
  lemma {:induction false} ForgottenIdIsCountedAgain(cfg: RuntimeConfig)
    requires Standard(cfg)
    ensures exists inputs :: Realizable(cfg, inputs) && CountsOf(Frames(cfg, inputs).machine.log, 3) >= 2
  {
    hide Realizable, Frames, CountsOf, SceneAt, CounterAt, ProcessFrame, Update, CommitAll, ChainsAt, Visible,
      AllowedAt;
    ScriptIsRealizable(cfg);
    var n := Length(cfg);
    ScriptCounts(cfg, n - 1);
    SceneFollows(cfg, n - 1);
    FramesOfScript(cfg, n);
    FrameFollows(cfg, Frames(cfg, Script(cfg)[..n - 1]), n - 1);
    LastFrame(cfg, Frames(cfg, Script(cfg)[..n - 1]).machine);
    assert Script(cfg)[..n] == Script(cfg);
    assert CountsOf(Frames(cfg, Script(cfg)).machine.log, 3) >= 2;
  }

  // With the thresholds the runtime fixes, and any gate line or none: no run that
  // can happen counts a tracker id twice if and only if lost tracks are kept for
  // at most 30 frames, as long as the counter keeps them, or the match distance is
  // negative, which lets no track be found again.
  lemma {:induction false} OncePerIdExactly(gate: Option<Gate>, sourceMinFrames: int, outputStableFrames: int,
                                            matchDistance: real, trackerMaxMissing: int)
    ensures var cfg := Configure(gate, sourceMinFrames, outputStableFrames, matchDistance, trackerMaxMissing);
      trackerMaxMissing <= 30 || matchDistance < 0.0
      <==> forall inputs, flushes, id :: Realizable(cfg, inputs) ==>
             CountsOf(Flush(cfg, Frames(cfg, inputs), flushes).machine.log, id) <= 1
  {
    hide Frames, CountsOf, Realizable;
    var cfg := Configure(gate, sourceMinFrames, outputStableFrames, matchDistance, trackerMaxMissing);
    if trackerMaxMissing <= 30 {
      forall inputs, flushes: nat, id | Realizable(cfg, inputs)
        ensures CountsOf(Flush(cfg, Frames(cfg, inputs), flushes).machine.log, id) <= 1
      {
        EachIdCountedAtMostOnce(cfg, inputs, flushes);
      }
    } else if matchDistance < 0.0 {
      forall inputs, flushes: nat, id | Realizable(cfg, inputs)
        ensures CountsOf(Flush(cfg, Frames(cfg, inputs), flushes).machine.log, id) <= 1
      {
        NewIdsSettle(cfg, inputs);
        FlushKeeps(cfg, Frames(cfg, inputs), flushes);
      }
    } else {
      ForgottenIdIsCountedAgain(cfg);
      var inputs :| Realizable(cfg, inputs) && CountsOf(Frames(cfg, inputs).machine.log, 3) >= 2;
      assert CountsOf(Flush(cfg, Frames(cfg, inputs), 0).machine.log, 3) >= 2;
    }
  }
}
