// What becomes of a track on its way once it is no longer seen: its token waits as
// long as it may, and a track last seen in the output and approved is counted when
// it has been missing long enough, exactly then.
module CountAbsence {
  import opened Prelude
  import opened Geometry
  import opened CountModel
  import opened CountHistory
  import opened CountInvariant
  import opened CountEffects
  import opened CountTheorems
  import opened CountBystanders
  import opened CountWrites
  import opened CountDelivery

  // What the last sighting left of the track: approved, in the output, had ever
  // entered the output, and counted since.
  datatype Left = Left(approved: bool, inOutput: bool, entered: bool, counted: bool)

  // Missing for n updates; late is 1 while the next one has not come to it.
  ghost predicate Away(cfg: Config, m: Machine, id: int, n: int, late: nat, l: Left) {
    && Sole(m, id)
    && var t := m.tracks[id];
    && t.missing == n && t.lastBbox.Some? && t.approved == l.approved && t.lastValidInOutput == l.inOutput
    && t.enteredOutput == l.entered && t.counted == l.counted && (l.entered ==> GateSatisfied(cfg, t))
    && (l.counted || (Live(m, t) && Age(m, t) == n + late))
  }

  // After the update that makes it n has come to the track.
  ghost predicate CameTo(cfg: Config, m: Machine, id: int, n: int, l: Left, counts: int) {
    && CountsOf(m.log, id) == counts
    && (id in m.tracks <==> n <= cfg.maxMissing)
    && (id in m.tracks ==> Away(cfg, m, id, n, 0, l))
  }

  // Missing for the n-th time counts a track that left in the output, approved.
  function Then(cfg: Config, n: int, l: Left): Left {
    l.(counted := l.counted || (l.approved && l.inOutput && l.entered && n >= cfg.disappearFrames))
  }

  function Counting(l: Left, l': Left): int {
    if l'.counted && !l.counted then 1 else 0
  }

  lemma AwaySpared(cfg: Config, m: Machine, m': Machine, id: int, n: int, late: nat, l: Left)
    requires Away(cfg, m, id, n, late, l) && Spares(m, m', id)
    ensures Away(cfg, m', id, n, late, l) && CountsOf(m'.log, id) == CountsOf(m.log, id)
  {
    hide CountsOf;
  }

  lemma MissIt(cfg: Config, m: Machine, id: int, n: int, l: Left)
    requires Away(cfg, m, id, n, 1, l)
    ensures var l' := Then(cfg, n + 1, l);
      CameTo(cfg, Miss(cfg, m, id), id, n + 1, l', CountsOf(m.log, id) + Counting(l, l'))
  {
    hide CountsOf, MarkMissing, Away;
    AwayIsSole(cfg, m, id, n, 1, l);
    MarkIt(cfg, m, id, n, l);
    var m1 := MarkMissing(cfg, m, id);
    AwayIsSole(cfg, m1, id, n + 1, 0, Then(cfg, n + 1, l));
    CountsOfMore(m1.log, Forgotten(id), id);
  }

  lemma MarkIt(cfg: Config, m: Machine, id: int, n: int, l: Left)
    requires Away(cfg, m, id, n, 1, l)
    ensures var l' := Then(cfg, n + 1, l);
      var m' := MarkMissing(cfg, m, id);
      && Away(cfg, m', id, n + 1, 0, l')
      && CountsOf(m'.log, id) == CountsOf(m.log, id) + Counting(l, l')
  {
    hide CountsOf;
    var t := m.tracks[id].(missing := n + 1);
    if ReadyToDisappear(cfg, m, t) && t.missing >= cfg.disappearFrames {
      var e := CountEvent(Put(m, id, t), id, DisappearedInOutput, None, None, None);
      CountsOfMore(m.log, Emitted(e, Age(m, t)), id);
    }
  }

  // Other missing tracks change nothing about it.
  lemma MissOther(cfg: Config, m: Machine, j: int, id: int, n: int, l: Left, counts: int)
    requires CameTo(cfg, m, id, n, l, counts) && j in m.tracks && j != id
    ensures CameTo(cfg, Miss(cfg, m, j), id, n, l, counts)
  {
    hide CountsOf, Sole, Miss, Spares;
    if id in m.tracks {
      AwayIsSole(cfg, m, id, n, 0, l);
      MissSpares(cfg, m, j, id);
      SparedIsSole(m, Miss(cfg, m, j), id);
      SoleHolds(Miss(cfg, m, j), id);
      AwaySpared(cfg, m, Miss(cfg, m, j), id, n, 0, l);
    } else {
      MissAbsent(cfg, m, j, id);
    }
  }

  lemma AwayIsSole(cfg: Config, m: Machine, id: int, n: int, late: nat, l: Left)
    requires Away(cfg, m, id, n, late, l)
    ensures Sole(m, id) && id in m.tracks && m.tracks[id].missing == n
  {
  }

  // The second loop comes to the track once.
  lemma {:induction false} MissAllAway(cfg: Config, m: Machine, ids: seq<int>, present: set<int>, id: int, n: int,
                                       l: Left)
    requires Away(cfg, m, id, n, 1, l) && id !in present && NoDuplicates(ids)
    ensures var m' := MissAll(cfg, m, ids, present);
      if id in ids then
        var l' := Then(cfg, n + 1, l);
        CameTo(cfg, m', id, n + 1, l', CountsOf(m.log, id) + Counting(l, l'))
      else Away(cfg, m', id, n, 1, l) && CountsOf(m'.log, id) == CountsOf(m.log, id)
  {
    hide CountsOf, Away, CameTo, Miss;
    if ids != [] {
      var last := ids[|ids| - 1];
      var front := ids[..|ids| - 1];
      assert ids == front + [last] && last !in front;
      MissAllAway(cfg, m, front, present, id, n, l);
      var m1 := MissAll(cfg, m, front, present);
      var l' := Then(cfg, n + 1, l);
      if last == id {
        AwayIsSole(cfg, m1, id, n, 1, l);
        MissIt(cfg, m1, id, n, l);
      } else if last !in present && last in m1.tracks {
        if id in front {
          MissOther(cfg, m1, last, id, n + 1, l', CountsOf(m.log, id) + Counting(l, l'));
        } else {
          AwayIsSole(cfg, m1, id, n, 1, l);
          MissSpares(cfg, m1, last, id);
          AwaySpared(cfg, m1, Miss(cfg, m1, last), id, n, 1, l);
        }
      }
    }
  }

  // The update before it comes to the track.
  lemma AwayBefore(cfg: Config, m: Machine, ds: seq<Detection>, approved: Option<set<int>>, id: int, n: int, l: Left)
    requires Away(cfg, m, id, n, 0, l) && id !in Ids(ds) && Bystanders(m, ds, id)
    ensures var m1 := DetectAll(cfg, BeginFrame(m), ds, approved);
      Away(cfg, m1, id, n, 1, l) && CountsOf(m1.log, id) == CountsOf(m.log, id)
  {
    hide CountsOf, DetectAll, Newcomer, Spares;
    var m0 := BeginFrame(m);
    BeginFrameLeaves(m, id);
    assert Away(cfg, m0, id, n, 1, l);
    forall d | d in ds
      ensures d.trackId != id && !Newcomer(m0, d)
    {
      assert d.trackId in Ids(ds);
    }
    DetectAllLeaves(cfg, m0, ds, approved, id);
    AwaySpared(cfg, m0, DetectAll(cfg, m0, ds, approved), id, n, 1, l);
  }

  lemma OrderHasIt(cfg: Config, m: Machine, ds: seq<Detection>, approved: Option<set<int>>, id: int)
    requires Good(cfg, m) && id in m.tracks
    ensures var m1 := DetectAll(cfg, BeginFrame(m), ds, approved);
      NoDuplicates(m1.order) && id in m1.order
  {
    hide Inv, DetectAll, BeginFrame;
    BeginFrameKeeps(cfg, m);
    BeginFrameTracks(m);
    DetectAllKeeps(cfg, BeginFrame(m), ds, approved, m.tracks.Keys);
    OrderIsKeys(cfg, DetectAll(cfg, BeginFrame(m), ds, approved), m.tracks.Keys - Ids(ds));
  }

  // One update that does not show the track.
  lemma UpdateWithout(cfg: Config, m: Machine, ds: seq<Detection>, approved: Option<set<int>>, id: int, n: int, l: Left)
    requires Good(cfg, m) && Away(cfg, m, id, n, 0, l) && id !in Ids(ds) && Bystanders(m, ds, id)
    ensures var l' := Then(cfg, n + 1, l);
      var m' := Update(cfg, m, ds, approved);
      && Good(cfg, m')
      && CountsOf(m'.log, id) == CountsOf(m.log, id) + Counting(l, l')
      && (id in m'.tracks <==> n + 1 <= cfg.maxMissing)
      && (n + 1 <= cfg.maxMissing && (n + 1 <= cfg.tokenTtl || l.entered || l'.counted) ==>
            Away(cfg, m', id, n + 1, 0, l'))
      && (n + 1 <= cfg.maxMissing && n + 1 > cfg.tokenTtl && !l.entered && !l'.counted ==>
            !Live(m', m'.tracks[id]))
  {
    hide Good, CountsOf, DetectAll, MissAll, ExpireAll, Away, Bystanders;
    AwayIsSole(cfg, m, id, n, 0, l);
    UpdateKeeps(cfg, m, ds, approved);
    AwayBefore(cfg, m, ds, approved, id, n, l);
    OrderHasIt(cfg, m, ds, approved, id);
    var m1 := DetectAll(cfg, BeginFrame(m), ds, approved);
    MissAllAway(cfg, m1, m1.order, Ids(ds), id, n, l);
    var m2 := MissAll(cfg, m1, m1.order, Ids(ds));
    var l' := Then(cfg, n + 1, l);
    var m' := ExpireAll(cfg, m2, m2.order);
    ExpireAllWrites(cfg, m2, m2.order);
    if n + 1 <= cfg.maxMissing {
      AwayIsSole(cfg, m2, id, n + 1, 0, l');
      ExpireAllKeepsAges(cfg, m2, m2.order, id);
      if n + 1 <= cfg.tokenTtl || l.entered || l'.counted {
        ExpireAway(cfg, m2, id, n + 1, l');
      } else {
        TooOldIsSpent(cfg, m2, m', id, n + 1, l');
      }
    } else {
      ExpireAllQuiet(cfg, m2, m2.order);
    }
  }

  // The third loop leaves it alone unless its token is too old.
  lemma ExpireAway(cfg: Config, m: Machine, id: int, n: int, l: Left)
    requires Away(cfg, m, id, n, 0, l) && (n <= cfg.tokenTtl || l.entered || l.counted)
    ensures Away(cfg, ExpireAll(cfg, m, m.order), id, n, 0, l)
  {
    hide CountsOf, ExpireAll;
    ExpireAllSpares(cfg, m, m.order, id);
    AwaySpared(cfg, m, ExpireAll(cfg, m, m.order), id, n, 0, l);
  }

  // Expiring tokens makes none younger.
  lemma {:induction false} ExpireAllKeepsAges(cfg: Config, m: Machine, ids: seq<int>, id: int)
    requires id in m.tracks
    ensures var m' := ExpireAll(cfg, m, ids);
      && id in m'.tracks && Age(m', m'.tracks[id]) == Age(m, m.tracks[id])
      && m'.tracks[id].enteredOutput == m.tracks[id].enteredOutput && m'.tracks[id].counted == m.tracks[id].counted
  {
    if ids != [] {
      ExpireAllKeepsAges(cfg, m, ids[..|ids| - 1], id);
    }
  }

  lemma TooOldIsSpent(cfg: Config, m: Machine, m': Machine, id: int, n: int, l: Left)
    requires Away(cfg, m, id, n, 0, l) && n > cfg.tokenTtl && !l.entered && !l.counted
    requires Good(cfg, m') && id in m'.tracks && Age(m', m'.tracks[id]) == Age(m, m.tracks[id])
    requires m'.tracks[id].enteredOutput == m.tracks[id].enteredOutput
    requires m'.tracks[id].counted == m.tracks[id].counted
    ensures !Live(m', m'.tracks[id])
  {
    hide Inv, Sole;
    assert Fresh(cfg, m', id);
  }

  // ----- a whole absence -----

  // None of the frames shows the track.
  ghost predicate Gone(frames: seq<Frame>, id: int) {
    forall n :: 0 <= n < |frames| ==> id !in Ids(frames[n].detections)
  }

  // How the track is left after n missing updates.
  function After(cfg: Config, n: nat, l: Left): Left
    decreases n
  {
    if n == 0 then l else Then(cfg, n, After(cfg, n - 1, l))
  }

  lemma {:induction false} AfterCounts(cfg: Config, n: nat, l: Left)
    requires !l.counted
    ensures After(cfg, n, l)
            == l.(counted := l.approved && l.inOutput && l.entered && n >= Patience(cfg))
  {
    if n > 0 {
      AfterCounts(cfg, n - 1, l);
    }
  }

  // While it is remembered and its token is not too old it waits; once missing long
  // enough it is counted, or not at all.
  lemma {:induction false} StaysAway(cfg: Config, m: Machine, frames: seq<Frame>, id: int, l: Left)
    requires Good(cfg, m) && Away(cfg, m, id, 0, 0, l) && !l.counted
    requires Gone(frames, id) && Undisturbed(cfg, m, frames, id)
    requires |frames| <= cfg.maxMissing && (l.entered || |frames| <= cfg.tokenTtl)
    ensures var m' := Updates(cfg, m, frames);
      var l' := After(cfg, |frames|, l);
      && Good(cfg, m') && Away(cfg, m', id, |frames|, 0, l')
      && CountsOf(m'.log, id) == CountsOf(m.log, id) + Counting(l, l')
  {
    hide Good, CountsOf, Away, Update, Bystanders;
    if frames != [] {
      var n := |frames| - 1;
      UndisturbedBefore(cfg, m, frames, id, n);
      StaysAway(cfg, m, frames[..n], id, l);
      AfterCounts(cfg, n, l);
      AfterCounts(cfg, n + 1, l);
      UpdateWithout(cfg, Updates(cfg, m, frames[..n]), frames[n].detections, frames[n].approved, id, n,
                    After(cfg, n, l));
    }
  }

  // The update in which it has been missing for the n-th time, remembered or not.
  lemma LastMissing(cfg: Config, m: Machine, frames: seq<Frame>, id: int, l: Left)
    requires Good(cfg, m) && Away(cfg, m, id, 0, 0, l) && !l.counted && frames != []
    requires Gone(frames, id) && Undisturbed(cfg, m, frames, id)
    requires |frames| <= cfg.maxMissing + 1 && (l.entered || |frames| <= cfg.tokenTtl + 1)
    ensures var n := |frames|;
      var m' := Updates(cfg, m, frames);
      && Good(cfg, m')
      && CountsOf(m'.log, id) == CountsOf(m.log, id) + Counting(l, After(cfg, n, l))
      && (id in m'.tracks <==> n <= cfg.maxMissing)
      && (n <= cfg.maxMissing && n <= cfg.tokenTtl && !l.entered ==> Live(m', m'.tracks[id]))
      && (n <= cfg.maxMissing && n > cfg.tokenTtl && !l.entered ==> !Live(m', m'.tracks[id]))
  {
    hide Good, CountsOf, Update, Bystanders, Sole;
    var n := |frames| - 1;
    UndisturbedBefore(cfg, m, frames, id, n);
    StaysAway(cfg, m, frames[..n], id, l);
    AfterCounts(cfg, n, l);
    AfterCounts(cfg, n + 1, l);
    UpdateWithout(cfg, Updates(cfg, m, frames[..n]), frames[n].detections, frames[n].approved, id, n, After(cfg, n, l));
  }

  // ----- a delivery that is broken off -----

  lemma {:induction false} UpdatesGood(cfg: Config, m: Machine, frames: seq<Frame>)
    requires Good(cfg, m)
    ensures Good(cfg, Updates(cfg, m, frames))
  {
    hide Good, Update;
    if frames != [] {
      var n := |frames| - 1;
      UpdatesGood(cfg, m, frames[..n]);
      UpdateKeeps(cfg, Updates(cfg, m, frames[..n]), frames[n].detections, frames[n].approved);
    }
  }

  // A track that has just been seen has a token renewed just now.
  lemma RenewedNow(cfg: Config, m: Machine, id: int)
    requires Good(cfg, m) && id in m.tracks && Live(m, m.tracks[id]) && m.tracks[id].missing == 0
    ensures Age(m, m.tracks[id]) == 0
  {
    hide LastSeen, UpdatesSinceDetected, Evidenced, OrderOk, CountsOk, Unknown;
    assert TrackOk(cfg, m, id, 0);
  }

  lemma SettlingIsAway(cfg: Config, m: Machine, id: int, n: int, c: Point, approved: bool, origin: Box)
    requires Good(cfg, m) && Settling(cfg, m, id, n, c, approved, origin)
    ensures Away(cfg, m, id, 0, 0, Left(approved, true, true, false))
  {
    hide Good, Sole;
    SettlingIsSole(cfg, m, id, n, c, approved, origin);
    RenewedNow(cfg, m, id);
  }

  lemma SettlingIsSole(cfg: Config, m: Machine, id: int, n: int, c: Point, approved: bool, origin: Box)
    requires Settling(cfg, m, id, n, c, approved, origin)
    ensures Sole(m, id) && id in m.tracks
  {
  }

  lemma SourcedIsAway(cfg: Config, m: Machine, id: int, n: int, c: Point, crossed: bool, origin: Box)
    requires Good(cfg, m) && Sourced(cfg, m, id, n, c, crossed, origin) && n >= cfg.sourceMinFrames
    ensures id in m.tracks
    ensures Away(cfg, m, id, 0, 0, Left(m.tracks[id].approved, m.tracks[id].lastValidInOutput, false, false))
  {
    hide Good;
    RenewedNow(cfg, m, id);
  }

  // What a run is after the first n frames of a delivery.
  lemma BrokenOff(cfg: Config, ops: seq<Operation>, id: int, source: nat, boxes: seq<Box>, frames: seq<Frame>, n: nat)
    requires cfg.tokenTtl >= 0 && Delivery(cfg, id, source, boxes, frames) && id !in Run(cfg, ops).tracks
    requires n < |frames| && Undisturbed(cfg, Run(cfg, ops), frames[..n], id)
    ensures var m := Updates(cfg, Run(cfg, ops), frames[..n]);
      && Good(cfg, m) && CountsOf(m.log, id) == CountsOf(Run(cfg, ops).log, id)
      && |boxes| == |frames| && Underway(cfg, m, id, source, boxes, frames, n)
  {
    hide Run, CountsOf, Update, Delivery, Underway, Good, Bystanders;
    RunGood(cfg, ops);
    GoodHolds(cfg, Run(cfg, ops));
    DeliveryLength(cfg, id, source, boxes, frames);
    DeliveryUnderway(cfg, Run(cfg, ops), id, source, boxes, frames, n);
    UpdatesGood(cfg, Run(cfg, ops), frames[..n]);
  }

  // A delivery that breaks off after some frames in the output is counted exactly
  // if the track was approved the last time, in the update in which it has been
  // missing for disappear_in_output_frames (at least 1).
  lemma {:induction false} DisappearanceIsCounted(cfg: Config, ops: seq<Operation>, id: int, source: nat,
                                                  boxes: seq<Box>, frames: seq<Frame>, n: nat, gone: seq<Frame>)
    requires cfg.tokenTtl >= 0 && Delivery(cfg, id, source, boxes, frames) && id !in Run(cfg, ops).tracks
    requires source < n < |frames| && Undisturbed(cfg, Run(cfg, ops), frames[..n], id)
    requires Gone(gone, id) && Undisturbed(cfg, Updates(cfg, Run(cfg, ops), frames[..n]), gone, id)
    requires |gone| <= cfg.maxMissing + 1
    ensures CountsOf(Updates(cfg, Updates(cfg, Run(cfg, ops), frames[..n]), gone).log, id)
            == CountsOf(Run(cfg, ops).log, id)
               + if Approves(frames[n - 1].approved, id) && |gone| >= Patience(cfg) then 1 else 0
  {
    hide Run, CountsOf, Update, Delivery, Good, Bystanders, Settling, Sourced, Away;
    BrokenOff(cfg, ops, id, source, boxes, frames, n);
    var m := Updates(cfg, Run(cfg, ops), frames[..n]);
    var yes := Approves(frames[n - 1].approved, id);
    SettlingIsAway(cfg, m, id, n - source, Center(boxes[n - 1]), yes, SourceBox(cfg, boxes));
    var l := Left(yes, true, true, false);
    AfterCounts(cfg, |gone|, l);
    if gone != [] {
      LastMissing(cfg, m, gone, id, l);
    }
  }

  // A delivery that breaks off in the source keeps its token for exactly as many
  // missing updates as the token may live.
  lemma {:induction false} TokenOutlivesAbsence(cfg: Config, ops: seq<Operation>, id: int, source: nat,
                                                boxes: seq<Box>, frames: seq<Frame>, n: nat, gone: seq<Frame>)
    requires cfg.tokenTtl >= 0 && Delivery(cfg, id, source, boxes, frames) && id !in Run(cfg, ops).tracks
    requires 0 < n <= source && n >= cfg.sourceMinFrames && Undisturbed(cfg, Run(cfg, ops), frames[..n], id)
    requires Gone(gone, id) && Undisturbed(cfg, Updates(cfg, Run(cfg, ops), frames[..n]), gone, id)
    requires 0 < |gone| <= cfg.maxMissing && |gone| <= cfg.tokenTtl + 1
    ensures var m := Updates(cfg, Updates(cfg, Run(cfg, ops), frames[..n]), gone);
      && id in m.tracks && (Live(m, m.tracks[id]) <==> |gone| <= cfg.tokenTtl)
      && CountsOf(m.log, id) == CountsOf(Run(cfg, ops).log, id)
  {
    hide Run, CountsOf, Update, Good, Bystanders, Settling, Sourced, Away, Shows;
    BrokenOff(cfg, ops, id, source, boxes, frames, n);
    var m := Updates(cfg, Run(cfg, ops), frames[..n]);
    SourcedIsAway(cfg, m, id, n, Center(boxes[n - 1]), CrossedBy(cfg, boxes, n), SourceBox(cfg, boxes));
    var l := Left(m.tracks[id].approved, m.tracks[id].lastValidInOutput, false, false);
    AfterCounts(cfg, |gone|, l);
    LastMissing(cfg, m, gone, id, l);
  }

  // ----- last seen elsewhere -----

  // A sighting of a settling track in an ignore zone or outside the output.
  lemma SeenElsewhere(cfg: Config, m: Machine, id: int, n: int, c: Point, approved: bool, origin: Box, e: Detection,
                      yes: bool)
    requires Settling(cfg, m, id, n, c, approved, origin) && e.trackId == id && (e.ignoreHit || !e.outputHit)
    ensures var m' := Detect(cfg, m, e, yes);
      && Sole(m', id) && Live(m', m'.tracks[id]) && Age(m', m'.tracks[id]) == 0
      && m'.tracks[id].missing == 0 && m'.tracks[id].lastBbox.Some? && m'.tracks[id].approved == yes
      && !m'.tracks[id].lastValidInOutput && m'.tracks[id].enteredOutput && !m'.tracks[id].counted
      && GateSatisfied(cfg, m'.tracks[id]) && CountsOf(m'.log, id) == CountsOf(m.log, id)
  {
    hide CountsOf, Center, MatchingResident, Lender, Advance;
    CountsOfMore(m.log, Detected(id, Center(e.bbox)), id);
    if !e.ignoreHit {
      var m0 := Observe(m, e, yes);
      var m1 := Put(m0, id, m0.tracks[id].(lastValidInOutput := false));
      PassElsewhere(cfg, m1, e, PreviousCenter(m, id));
    }
  }

  // Outside the output a track with a live token keeps what it has.
  lemma PassElsewhere(cfg: Config, m: Machine, e: Detection, previous: Option<Point>)
    requires Placeable(m, e.trackId) && !e.outputHit && Live(m, m.tracks[e.trackId])
    ensures var m' := Advance(cfg, m, e, previous);
      var (t, t') := (m.tracks[e.trackId], m'.tracks[e.trackId]);
      && m' == m.(tracks := m'.tracks) && m'.tracks == m.tracks[e.trackId := t']
      && t' == t.(sourceFrames := t'.sourceFrames, crossedGate := t'.crossedGate, state := t'.state,
                  outputFrames := t'.outputFrames, stableOutputFrames := t'.stableOutputFrames)
      && (t.crossedGate ==> t'.crossedGate)
  {
    hide Center, GateCrossed, Settle;
  }

  lemma ElsewhereIsAway(cfg: Config, m: Machine, id: int, n: int, c: Point, approved: bool, origin: Box,
                        e: Detection, ds: seq<Detection>, now: Option<set<int>>, k: nat)
    requires cfg.tokenTtl >= 0 && Settling(cfg, m, id, n, c, approved, origin)
    requires OnlyAt(ds, e, k) && e.trackId == id && (e.ignoreHit || !e.outputHit) && Bystanders(m, ds, id)
    ensures var m' := Update(cfg, m, ds, now);
      && Away(cfg, m', id, 0, 0, Left(Approves(now, id), false, true, false))
      && CountsOf(m'.log, id) == CountsOf(m.log, id)
  {
    hide CountsOf, Detect, Update, BeforeTurn, Bystanders, Newcomer, Settling, Sole, Spares;
    SettlingIsSole(cfg, m, id, n, c, approved, origin);
    BeginFrameLeaves(m, id);
    SettlingBegins(cfg, m, id, n, c, approved, origin);
    BeforeTurnLeaves(cfg, m, ds, now, e, k);
    var m0 := BeginFrame(m);
    var m1 := BeforeTurn(cfg, m, ds, now, k);
    SettlingSpared(cfg, m0, m1, id, n, c, approved, origin);
    SparedCounts(m0, m1, id);
    SeenElsewhere(cfg, m1, id, n, c, approved, origin, e, Approves(now, id));
    var m2 := Turn(cfg, m, ds, now, k);
    UpdateSpares(cfg, m, ds, now, e, k);
    assert Away(cfg, m2, id, 0, 0, Left(Approves(now, id), false, true, false));
    AwaySpared(cfg, m2, Update(cfg, m, ds, now), id, 0, 0, Left(Approves(now, id), false, true, false));
  }

  lemma SettlingBegins(cfg: Config, m: Machine, id: int, n: int, c: Point, approved: bool, origin: Box)
    requires Settling(cfg, m, id, n, c, approved, origin)
    ensures Settling(cfg, BeginFrame(m), id, n, c, approved, origin)
  {
  }

  lemma SparedCounts(m: Machine, m': Machine, id: int)
    requires Spares(m, m', id)
    ensures CountsOf(m'.log, id) == CountsOf(m.log, id)
  {
    hide CountsOf;
  }

  // A track that leaves the output again, or is last seen in an ignore zone, is not
  // counted however long it is missing, approved or not.
  lemma {:induction false} LeavingIsNotCounted(cfg: Config, ops: seq<Operation>, id: int, source: nat, boxes: seq<Box>,
                                               frames: seq<Frame>, n: nat, e: Detection, last: Frame,
                                               gone: seq<Frame>)
    requires cfg.tokenTtl >= 0 && Delivery(cfg, id, source, boxes, frames) && id !in Run(cfg, ops).tracks
    requires source < n < |frames| && Undisturbed(cfg, Run(cfg, ops), frames[..n], id)
    requires var m := Updates(cfg, Run(cfg, ops), frames[..n]);
      && Shows(last.detections, e) && e.trackId == id && (e.ignoreHit || !e.outputHit)
      && Bystanders(m, last.detections, id)
      && Gone(gone, id) && Undisturbed(cfg, Update(cfg, m, last.detections, last.approved), gone, id)
    requires |gone| <= cfg.maxMissing + 1
    ensures var m := Updates(cfg, Run(cfg, ops), frames[..n]);
      CountsOf(Updates(cfg, Update(cfg, m, last.detections, last.approved), gone).log, id)
      == CountsOf(Run(cfg, ops).log, id)
  {
    hide Run, CountsOf, Update, Delivery, Good, Bystanders, Settling, Sourced, Away, OnlyAt;
    BrokenOff(cfg, ops, id, source, boxes, frames, n);
    var m := Updates(cfg, Run(cfg, ops), frames[..n]);
    var k: nat :| OnlyAt(last.detections, e, k);
    ElsewhereIsAway(cfg, m, id, n - source, Center(boxes[n - 1]), Approves(frames[n - 1].approved, id),
                    SourceBox(cfg, boxes), e, last.detections, last.approved, k);
    UpdateKeeps(cfg, m, last.detections, last.approved);
    var l := Left(Approves(last.approved, id), false, true, false);
    AfterCounts(cfg, |gone|, l);
    if gone != [] {
      LastMissing(cfg, Update(cfg, m, last.detections, last.approved), gone, id, l);
    }
  }
}
