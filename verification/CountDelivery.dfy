// The counter does count: a part that is seen long enough in the source and then
// steadily in the output is counted once, whatever happened before and whatever
// else is seen, unless a new track first judged in the output takes its token.
module CountDelivery {
  import opened Prelude
  import opened Geometry
  import opened CountModel
  import opened CountHistory
  import opened CountInvariant
  import opened CountEffects
  import opened CountTheorems
  import opened CountBystanders
  import opened CountWrites

  // ----- the stages of a delivery -----

  // Seen n times in the source; crossed when the gate was crossed on the way, and
  // its token was made where it was seen often enough.
  ghost predicate Sourced(cfg: Config, m: Machine, id: int, n: int, c: Point, crossed: bool, origin: Box) {
    && Sole(m, id)
    && var t := m.tracks[id];
    && t.sourceFrames == n && !t.counted && t.stableOutputFrames == 0 && t.lastCenter == Some(c)
    && t.lastBbox.Some? && (crossed ==> t.crossedGate) && !t.enteredOutput && t.missing == 0
    && if n < cfg.sourceMinFrames then t.token == None && t.state == Observing
       else Live(m, t) && t.state in {SourceConfirmed, MovingToOutput}
            && m.tokens[t.token.value].sourceBbox == origin
  }

  // Seen n times steadily in the output, approved the last time or not.
  ghost predicate Settling(cfg: Config, m: Machine, id: int, n: int, c: Point, approved: bool, origin: Box) {
    && Sole(m, id)
    && var t := m.tracks[id];
    && Live(m, t) && GateSatisfied(cfg, t) && !t.counted && t.state == InOutputUnsettled
    && t.stableOutputFrames == n && t.lastCenter == Some(c) && t.lastBbox.Some?
    && t.enteredOutput && t.lastValidInOutput && t.missing == 0 && t.approved == approved
    && m.tokens[t.token.value].sourceBbox == origin
  }

  // The count of a delivery seen at the box, with a token made at origin.
  ghost predicate Credited(e: Entry, id: int, box: Box, origin: Box) {
    && e.Emitted? && e.event.trackId == id && e.event.count == 1 && e.event.reason == StableInOutput
    && e.event.bbox == box && e.event.sourceTrackId.None? && e.event.chainId.None?
    && e.event.tokenId.Some? && e.event.sourceBbox == Some(origin)
    && e.event.provenance == Some(SourceZoneToken) && e.event.authority == SourceTokenAuthorized
  }

  ghost predicate CreditedIn(log: seq<Entry>, more: seq<Entry>, id: int, box: Box, origin: Box) {
    log <= more && exists k :: |log| <= k < |more| && Credited(more[k], id, box, origin)
  }

  // Before its n-th frame in the output.
  ghost predicate Arriving(cfg: Config, m: Machine, id: int, b: Box, n: int, c: Point, crossed: bool, origin: Box) {
    if n == 0 then
      && (exists k: int :: k >= cfg.sourceMinFrames && Sourced(cfg, m, id, k, c, crossed, origin))
      && (cfg.gate.None? || crossed || CrossedAllowed(c, Center(b), cfg.gate.value))
    else (exists yes :: Settling(cfg, m, id, n, c, yes, origin)) && Within(c, Center(b), cfg.stableEpsilon)
  }

  lemma SourcedSpared(cfg: Config, m: Machine, m': Machine, id: int, n: int, c: Point, crossed: bool, origin: Box)
    requires Sourced(cfg, m, id, n, c, crossed, origin) && Spares(m, m', id)
    ensures Sourced(cfg, m', id, n, c, crossed, origin)
  {
  }

  lemma SettlingSpared(cfg: Config, m: Machine, m': Machine, id: int, n: int, c: Point, approved: bool,
                       origin: Box)
    requires Settling(cfg, m, id, n, c, approved, origin) && Spares(m, m', id)
    ensures Settling(cfg, m', id, n, c, approved, origin)
  {
  }

  function InSource(id: int, b: Box): Detection {
    Detection(id, b, false, true, false)
  }

  function InOutput(id: int, b: Box): Detection {
    Detection(id, b, false, false, true)
  }

  // Where the token is made that the track has once it is seen once more.
  function Origin(cfg: Config, n: int, b: Box, origin: Box): Box {
    if n == 0 || n < cfg.sourceMinFrames then b else origin
  }

  lemma StepInSource(cfg: Config, m: Machine, id: int, b: Box, n: int, crossed: bool, origin: Box)
    requires Sole(m, id) && Placeable(m, id) && m.tracks[id].sourceFrames == n && !m.tracks[id].counted
    requires m.tracks[id].lastCenter == Some(Center(b)) && !m.tracks[id].enteredOutput && m.tracks[id].missing == 0
    requires if n == 0 || n < cfg.sourceMinFrames then m.tracks[id].token == None && m.tracks[id].state == Observing
             else Live(m, m.tracks[id]) && m.tracks[id].state in {SourceConfirmed, MovingToOutput}
                  && m.tokens[m.tracks[id].token.value].sourceBbox == origin
    requires m.tracks[id].stableOutputFrames == 0 && n >= 0 && Age(m, m.tracks[id]) == 0
    requires crossed ==> m.tracks[id].crossedGate
    ensures var m' := SourceStep(cfg, m, InSource(id, b));
      && Sourced(cfg, m', id, n + 1, Center(b), crossed, Origin(cfg, n, b, origin))
      && Age(m', m'.tracks[id]) == 0 && m'.log == m.log
  {
    hide Center;
  }

  lemma PassGate(cfg: Config, m: Machine, id: int, b: Box, previous: Option<Point>, n: int, crossed: bool, origin: Box)
    requires Sourced(cfg, m, id, n, Center(b), crossed, origin) && Age(m, m.tracks[id]) == 0
    ensures var m' := OutputStep(cfg, GateStep(cfg, m, InSource(id, b), previous), InSource(id, b), previous);
      && Sourced(cfg, m', id, n, Center(b), crossed || GateCrossed(cfg, previous, Center(b)), origin)
      && Age(m', m'.tracks[id]) == 0 && m'.log == m.log
  {
    hide GateCrossed, Center, Settle;
  }

  // A track that steps through the source and the gate test.
  lemma AdvanceInSource(cfg: Config, m: Machine, id: int, b: Box, previous: Option<Point>, n: int, crossed: bool,
                        origin: Box)
    requires Sole(m, id) && Placeable(m, id) && m.tracks[id].sourceFrames == n && !m.tracks[id].counted
    requires m.tracks[id].lastCenter == Some(Center(b)) && !m.tracks[id].enteredOutput && m.tracks[id].missing == 0
    requires if n == 0 || n < cfg.sourceMinFrames then m.tracks[id].token == None && m.tracks[id].state == Observing
             else Live(m, m.tracks[id]) && m.tracks[id].state in {SourceConfirmed, MovingToOutput}
                  && m.tokens[m.tracks[id].token.value].sourceBbox == origin
    requires m.tracks[id].stableOutputFrames == 0 && n >= 0 && Age(m, m.tracks[id]) == 0
    requires crossed ==> m.tracks[id].crossedGate
    ensures var m' := Advance(cfg, m, InSource(id, b), previous);
      && Sourced(cfg, m', id, n + 1, Center(b), crossed || GateCrossed(cfg, previous, Center(b)),
                 Origin(cfg, n, b, origin))
      && Age(m', m'.tracks[id]) == 0 && m'.log == m.log
  {
    hide SourceStep, GateStep, OutputStep, GateCrossed, Sourced, Center;
    StepInSource(cfg, m, id, b, n, crossed, origin);
    PassGate(cfg, SourceStep(cfg, m, InSource(id, b)), id, b, previous, n + 1, crossed, Origin(cfg, n, b, origin));
  }

  lemma FirstInSource(cfg: Config, m: Machine, id: int, b: Box, approved: bool)
    requires id !in m.tracks && Holding(m)
    ensures var m' := Detect(cfg, m, InSource(id, b), approved);
      && Sourced(cfg, m', id, 1, Center(b), false, b) && Age(m', m'.tracks[id]) == 0
      && CountsOf(m'.log, id) == CountsOf(m.log, id)
  {
    hide CountsOf, MatchingResident, Lender, Advance, Sourced;
    var d := InSource(id, b);
    var m0 := Observe(m, d, approved);
    var m1 := Put(m0, id, m0.tracks[id].(lastValidInOutput := false, state := Observing));
    CountsOfMore(m.log, Detected(id, Center(b)), id);
    AdvanceInSource(cfg, m1, id, b, None, 0, false, b);
    assert Judge(cfg, m0, d, None) == Advance(cfg, m1, d, None) by {
      assert m1 == Put(Put(m0, id, m0.tracks[id].(lastValidInOutput := false)), id, m1.tracks[id]);
    }
  }

  lemma NextInSource(cfg: Config, m: Machine, id: int, b: Box, n: int, c: Point, crossed: bool, origin: Box,
                     approved: bool)
    requires Sourced(cfg, m, id, n, c, crossed, origin) && n >= 1
    ensures var m' := Detect(cfg, m, InSource(id, b), approved);
      && Sourced(cfg, m', id, n + 1, Center(b), crossed || GateCrossed(cfg, Some(c), Center(b)),
                 Origin(cfg, n, b, origin))
      && Age(m', m'.tracks[id]) == 0
      && CountsOf(m'.log, id) == CountsOf(m.log, id)
  {
    hide CountsOf, MatchingResident, Lender, Advance;
    var d := InSource(id, b);
    var m0 := Observe(m, d, approved);
    var m1 := Put(m0, id, m0.tracks[id].(lastValidInOutput := false));
    CountsOfMore(m.log, Detected(id, Center(b)), id);
    AdvanceInSource(cfg, m1, id, b, Some(c), n, crossed, origin);
  }

  // A track with a live token and a satisfied gate that is now in the output.
  lemma AdvanceInOutput(cfg: Config, m: Machine, id: int, b: Box, previous: Option<Point>, n: int, origin: Box)
    requires Sole(m, id) && Placeable(m, id) && !m.tracks[id].counted && Live(m, m.tracks[id])
    requires m.tracks[id].state in {SourceConfirmed, MovingToOutput, InOutputUnsettled}
    requires m.tracks[id].stableOutputFrames == n && (n + 1 < cfg.outputStableFrames || m.tracks[id].approved)
    requires m.tracks[id].lastCenter == Some(Center(b)) && Age(m, m.tracks[id]) == 0
    requires m.tracks[id].lastBbox == Some(b) && m.tracks[id].missing == 0 && m.tracks[id].lastValidInOutput
    requires m.tokens[m.tracks[id].token.value].sourceBbox == origin
    requires GateSatisfied(cfg, m.tracks[id]) || GateCrossed(cfg, previous, Center(b))
    requires n == 0 || Stable(cfg, previous, Center(b))
    ensures var m' := Advance(cfg, m, InOutput(id, b), previous);
      if n + 1 < cfg.outputStableFrames then
        Settling(cfg, m', id, n + 1, Center(b), m.tracks[id].approved, origin)
        && Age(m', m'.tracks[id]) == 0 && m'.log == m.log
      else
        && Sole(m', id) && Age(m', m'.tracks[id]) == 0
        && |m'.log| == |m.log| + 1 && m'.log[..|m.log|] == m.log
        && Credited(m'.log[|m.log|], id, b, origin)
  {
    hide GateStep, OutputStep;
    var m2 := GateStep(cfg, m, InOutput(id, b), previous);
    CrossOnTheWay(cfg, m, id, b, previous);
    assert SourceStep(cfg, m, InOutput(id, b)) == m;
    SettleInOutput(cfg, m2, id, b, previous, n, origin);
  }

  lemma CrossOnTheWay(cfg: Config, m: Machine, id: int, b: Box, previous: Option<Point>)
    requires Sole(m, id) && Placeable(m, id) && Live(m, m.tracks[id])
    requires m.tracks[id].state in {SourceConfirmed, MovingToOutput, InOutputUnsettled}
    requires GateSatisfied(cfg, m.tracks[id]) || GateCrossed(cfg, previous, Center(b))
    ensures var m' := GateStep(cfg, m, InOutput(id, b), previous);
      && Sole(m', id) && Placeable(m', id) && GateSatisfied(cfg, m'.tracks[id])
      && m'.tracks[id].state in {SourceConfirmed, MovingToOutput, InOutputUnsettled}
      && m'.tracks[id] == m.tracks[id].(crossedGate := m'.tracks[id].crossedGate, state := m'.tracks[id].state)
      && m' == m.(tracks := m'.tracks)
  {
    hide GateCrossed;
  }

  lemma SettleInOutput(cfg: Config, m: Machine, id: int, b: Box, previous: Option<Point>, n: int, origin: Box)
    requires Sole(m, id) && Placeable(m, id) && !m.tracks[id].counted && Live(m, m.tracks[id])
    requires m.tracks[id].state in {SourceConfirmed, MovingToOutput, InOutputUnsettled}
    requires m.tracks[id].stableOutputFrames == n && (n + 1 < cfg.outputStableFrames || m.tracks[id].approved)
    requires m.tracks[id].lastCenter == Some(Center(b)) && Age(m, m.tracks[id]) == 0
    requires m.tracks[id].lastBbox == Some(b) && m.tracks[id].missing == 0 && m.tracks[id].lastValidInOutput
    requires m.tokens[m.tracks[id].token.value].sourceBbox == origin
    requires GateSatisfied(cfg, m.tracks[id])
    requires n == 0 || Stable(cfg, previous, Center(b))
    ensures var m' := OutputStep(cfg, m, InOutput(id, b), previous);
      if n + 1 < cfg.outputStableFrames then
        Settling(cfg, m', id, n + 1, Center(b), m.tracks[id].approved, origin)
        && Age(m', m'.tracks[id]) == 0 && m'.log == m.log
      else
        && Sole(m', id) && Age(m', m'.tracks[id]) == 0
        && |m'.log| == |m.log| + 1 && m'.log[..|m.log|] == m.log
        && Credited(m'.log[|m.log|], id, b, origin)
  {
    hide Stable, Center;
  }

  lemma NextInOutput(cfg: Config, m: Machine, id: int, b: Box, n: int, c: Point, crossed: bool, origin: Box,
                     approved: bool)
    requires Arriving(cfg, m, id, b, n, c, crossed, origin) && n >= 0 && (n + 1 < cfg.outputStableFrames || approved)
    ensures var m' := Detect(cfg, m, InOutput(id, b), approved);
      && Sole(m', id) && Age(m', m'.tracks[id]) == 0
      && if n + 1 < cfg.outputStableFrames then
           Settling(cfg, m', id, n + 1, Center(b), approved, origin) && CountsOf(m'.log, id) == CountsOf(m.log, id)
         else CountsOf(m'.log, id) == CountsOf(m.log, id) + 1 && CreditedIn(m.log, m'.log, id, b, origin)
  {
    hide CountsOf, MatchingResident, Lender, Advance, Center, Within, CrossedAllowed;
    var d := InOutput(id, b);
    var m0 := Observe(m, d, approved);
    var m1 := Put(m0, id, m0.tracks[id].(lastValidInOutput := true));
    CountsOfMore(m.log, Detected(id, Center(b)), id);
    AdvanceInOutput(cfg, m1, id, b, Some(c), n, origin);
    var m2 := Advance(cfg, m1, d, Some(c));
    if n + 1 >= cfg.outputStableFrames {
      assert m2.log == m1.log + [m2.log[|m1.log|]];
      CountsOfMore(m1.log, m2.log[|m1.log|], id);
      assert Credited(m2.log[|m1.log|], id, b, origin);
    }
  }

  // ----- whole updates -----

  lemma SourceUpdate(cfg: Config, m: Machine, id: int, b: Box, n: int, c: Point, crossed: bool, origin: Box,
                     ds: seq<Detection>, approved: Option<set<int>>, k: nat)
    requires cfg.tokenTtl >= 0 && n >= 0 && OnlyAt(ds, InSource(id, b), k) && Bystanders(m, ds, id)
    requires if n == 0 then id !in m.tracks && Holding(m) else Sourced(cfg, m, id, n, c, crossed, origin)
    ensures var m' := Update(cfg, m, ds, approved);
      && Sourced(cfg, m', id, n + 1, Center(b), n > 0 && (crossed || GateCrossed(cfg, Some(c), Center(b))),
                 Origin(cfg, n, b, origin))
      && CountsOf(m'.log, id) == CountsOf(m.log, id)
  {
    hide CountsOf, Detect, Update, BeforeTurn, Bystanders, Newcomer, GateCrossed, Live;
    var m0 := BeginFrame(m);
    BeginFrameLeaves(m, id);
    BeforeTurnLeaves(cfg, m, ds, approved, InSource(id, b), k);
    var m1 := BeforeTurn(cfg, m, ds, approved, k);
    if n == 0 {
      FirstInSource(cfg, m1, id, b, Approves(approved, id));
    } else {
      SourcedBegins(cfg, m, id, n, c, crossed, origin);
      SourcedSpared(cfg, m0, m1, id, n, c, crossed, origin);
      NextInSource(cfg, m1, id, b, n, c, crossed, origin, Approves(approved, id));
    }
    UpdateSpares(cfg, m, ds, approved, InSource(id, b), k);
    SourcedSpared(cfg, Turn(cfg, m, ds, approved, k), Update(cfg, m, ds, approved), id, n + 1, Center(b),
                  n > 0 && (crossed || GateCrossed(cfg, Some(c), Center(b))), Origin(cfg, n, b, origin));
  }

  lemma SourcedBegins(cfg: Config, m: Machine, id: int, n: int, c: Point, crossed: bool, origin: Box)
    requires Sourced(cfg, m, id, n, c, crossed, origin)
    ensures Sourced(cfg, BeginFrame(m), id, n, c, crossed, origin)
  {
  }

  lemma ArrivingIsSole(cfg: Config, m: Machine, id: int, b: Box, n: int, c: Point, crossed: bool, origin: Box)
    requires Arriving(cfg, m, id, b, n, c, crossed, origin)
    ensures Sole(m, id) && id in m.tracks && Arriving(cfg, BeginFrame(m), id, b, n, c, crossed, origin)
  {
    hide Within, CrossedAllowed;
    if n == 0 {
      var k: int :| k >= cfg.sourceMinFrames && Sourced(cfg, m, id, k, c, crossed, origin);
      SourcedBegins(cfg, m, id, k, c, crossed, origin);
    } else {
      var yes :| Settling(cfg, m, id, n, c, yes, origin);
      assert Settling(cfg, BeginFrame(m), id, n, c, yes, origin);
    }
  }

  lemma ArrivingSpared(cfg: Config, m: Machine, m': Machine, id: int, b: Box, n: int, c: Point, crossed: bool,
                       origin: Box)
    requires Arriving(cfg, m, id, b, n, c, crossed, origin) && Spares(m, m', id)
    ensures Arriving(cfg, m', id, b, n, c, crossed, origin)
  {
    hide Spares, Sourced, Settling, CrossedAllowed, Within;
    if n == 0 {
      var k: int :| k >= cfg.sourceMinFrames && Sourced(cfg, m, id, k, c, crossed, origin);
      SourcedSpared(cfg, m, m', id, k, c, crossed, origin);
    } else {
      var yes :| Settling(cfg, m, id, n, c, yes, origin);
      SettlingSpared(cfg, m, m', id, n, c, yes, origin);
    }
  }

  lemma OutputUpdate(cfg: Config, m: Machine, id: int, b: Box, n: int, c: Point, crossed: bool, origin: Box,
                     ds: seq<Detection>, approved: Option<set<int>>, k: nat)
    requires cfg.tokenTtl >= 0 && n >= 0 && (n + 1 < cfg.outputStableFrames || Approves(approved, id))
    requires OnlyAt(ds, InOutput(id, b), k) && Bystanders(m, ds, id) && Arriving(cfg, m, id, b, n, c, crossed, origin)
    ensures var m' := Update(cfg, m, ds, approved);
      if n + 1 < cfg.outputStableFrames then
        Settling(cfg, m', id, n + 1, Center(b), Approves(approved, id), origin)
        && CountsOf(m'.log, id) == CountsOf(m.log, id)
      else CountsOf(m'.log, id) == CountsOf(m.log, id) + 1 && CreditedIn(m.log, m'.log, id, b, origin)
  {
    hide CountsOf, Detect, Update, BeforeTurn, Bystanders, Newcomer, Arriving, Settling, Sole, Credited;
    var m0 := BeginFrame(m);
    ArrivingIsSole(cfg, m, id, b, n, c, crossed, origin);
    BeginFrameLeaves(m, id);
    BeforeTurnLeaves(cfg, m, ds, approved, InOutput(id, b), k);
    var m1 := BeforeTurn(cfg, m, ds, approved, k);
    ArrivingSpared(cfg, m0, m1, id, b, n, c, crossed, origin);
    NextInOutput(cfg, m1, id, b, n, c, crossed, origin, Approves(approved, id));
    UpdateSpares(cfg, m, ds, approved, InOutput(id, b), k);
    if n + 1 < cfg.outputStableFrames {
      SettlingSpared(cfg, Turn(cfg, m, ds, approved, k), Update(cfg, m, ds, approved), id, n + 1, Center(b),
                     Approves(approved, id), origin);
    } else {
      BeforeTurnWrites(cfg, m, ds, approved, k);
      UpdateGoesOnFrom(cfg, m, ds, approved, InOutput(id, b), k);
      CreditedMore(m.log, m1.log, Turn(cfg, m, ds, approved, k).log, Update(cfg, m, ds, approved).log, id, b, origin);
    }
  }

  lemma BeforeTurnWrites(cfg: Config, m: Machine, ds: seq<Detection>, approved: Option<set<int>>, k: nat)
    requires k < |ds|
    ensures m.log <= BeforeTurn(cfg, m, ds, approved, k).log
  {
    hide DetectAll;
    DetectAllWrites(cfg, BeginFrame(m), ds[..k], approved, ds[..k]);
  }

  lemma CreditedMore(log: seq<Entry>, before: seq<Entry>, more: seq<Entry>, most: seq<Entry>, id: int, b: Box,
                     origin: Box)
    requires CreditedIn(before, more, id, b, origin) && log <= before && more <= most
    ensures CreditedIn(log, most, id, b, origin)
  {
    hide Credited;
    var k :| |before| <= k < |more| && Credited(more[k], id, b, origin);
    assert most[k] == more[k];
  }

  // ----- a whole delivery -----

  // Between two of the first n boxes the gate is crossed in the allowed direction.
  ghost predicate CrossedBy(cfg: Config, boxes: seq<Box>, n: int)
    requires n <= |boxes|
  {
    cfg.gate.Some? && exists i :: 0 < i < n && CrossedAllowed(Center(boxes[i - 1]), Center(boxes[i]), cfg.gate.value)
  }

  // The frames show one track first in the source, at least as long as a token
  // takes, then in the output for as many frames as a count takes; there it stays
  // put, by then it has crossed the gate, and in the end it is approved.
  ghost predicate Delivery(cfg: Config, id: int, source: nat, boxes: seq<Box>, frames: seq<Frame>) {
    && source >= Max(1, cfg.sourceMinFrames)
    && |boxes| == |frames| == source + Max(1, cfg.outputStableFrames)
    && (forall i :: 0 <= i < |frames| ==>
          Shows(frames[i].detections, if i < source then InSource(id, boxes[i]) else InOutput(id, boxes[i])))
    && Approves(frames[|frames| - 1].approved, id)
    && (cfg.gate.Some? ==> CrossedBy(cfg, boxes, source + 1))
    && (forall i :: source < i < |boxes| ==>
          Within(Center(boxes[i - 1]), Center(boxes[i]), cfg.stableEpsilon))
  }

  // No other track that the frames show is first judged in the output outside
  // the source.
  ghost predicate Undisturbed(cfg: Config, m: Machine, frames: seq<Frame>, id: int) {
    forall n :: 0 <= n < |frames| ==> Bystanders(Updates(cfg, m, frames[..n]), frames[n].detections, id)
  }

  lemma UndisturbedBefore(cfg: Config, m: Machine, frames: seq<Frame>, id: int, n: nat)
    requires Undisturbed(cfg, m, frames, id) && n < |frames|
    ensures Undisturbed(cfg, m, frames[..n], id)
    ensures Bystanders(Updates(cfg, m, frames[..n]), frames[n].detections, id)
  {
    hide Bystanders, Update;
    forall k | 0 <= k < n
      ensures Bystanders(Updates(cfg, m, frames[..n][..k]), frames[..n][k].detections, id)
    {
      assert frames[..n][..k] == frames[..k];
    }
  }

  // Where the track was when it had been in the source long enough.
  function SourceBox(cfg: Config, boxes: seq<Box>): Box
    requires boxes != []
  {
    var n := Max(1, cfg.sourceMinFrames);
    if n <= |boxes| then boxes[n - 1] else boxes[0]
  }

  // Where the track is in its delivery after n of the frames.
  ghost predicate Underway(cfg: Config, m: Machine, id: int, source: nat, boxes: seq<Box>, frames: seq<Frame>, n: nat)
    requires boxes != [] && n <= |boxes| == |frames|
  {
    var origin := SourceBox(cfg, boxes);
    if n == 0 then id !in m.tracks && Holding(m)
    else if n <= source then Sourced(cfg, m, id, n, Center(boxes[n - 1]), CrossedBy(cfg, boxes, n), origin)
    else Settling(cfg, m, id, n - source, Center(boxes[n - 1]), Approves(frames[n - 1].approved, id), origin)
  }

  lemma CrossedMore(cfg: Config, boxes: seq<Box>, n: nat)
    requires 0 < n < |boxes|
    ensures CrossedBy(cfg, boxes, n + 1)
            <==> CrossedBy(cfg, boxes, n) || GateCrossed(cfg, Some(Center(boxes[n - 1])), Center(boxes[n]))
    ensures !CrossedBy(cfg, boxes, 1)
  {
    hide CrossedAllowed;
  }

  lemma OneFrame(cfg: Config, m: Machine, id: int, source: nat, boxes: seq<Box>, frames: seq<Frame>, n: nat)
    requires cfg.tokenTtl >= 0 && Delivery(cfg, id, source, boxes, frames)
    requires n < |boxes| && Underway(cfg, m, id, source, boxes, frames, n) && Bystanders(m, frames[n].detections, id)
    ensures var m' := Update(cfg, m, frames[n].detections, frames[n].approved);
      if n + 1 < |boxes| then
        Underway(cfg, m', id, source, boxes, frames, n + 1) && CountsOf(m'.log, id) == CountsOf(m.log, id)
      else
        && CountsOf(m'.log, id) == CountsOf(m.log, id) + 1
        && CreditedIn(m.log, m'.log, id, boxes[n], SourceBox(cfg, boxes))
  {
    hide CountsOf, Update, Sourced, Settling, CrossedBy, OnlyAt, Bystanders, CreditedIn;
    var c := if n == 0 then Center(boxes[0]) else Center(boxes[n - 1]);
    var crossed := n > 0 && CrossedBy(cfg, boxes, n);
    CrossedMore(cfg, boxes, if n == 0 then 1 else n);
    var d := if n < source then InSource(id, boxes[n]) else InOutput(id, boxes[n]);
    assert Shows(frames[n].detections, d);
    var k: nat :| OnlyAt(frames[n].detections, d, k);
    if n < source {
      SourceUpdate(cfg, m, id, boxes[n], n, c, crossed, SourceBox(cfg, boxes), frames[n].detections,
                   frames[n].approved, k);
      OriginIsSourceBox(cfg, boxes, n, Update(cfg, m, frames[n].detections, frames[n].approved), id,
                        Center(boxes[n]), n > 0 && (crossed || GateCrossed(cfg, Some(c), Center(boxes[n]))));
    } else {
      assert n == source ==> Sourced(cfg, m, id, n, c, crossed, SourceBox(cfg, boxes));
      OutputUpdate(cfg, m, id, boxes[n], n - source, c, crossed, SourceBox(cfg, boxes), frames[n].detections,
                   frames[n].approved, k);
    }
  }

  // The token is made where the track was when it had been seen often enough.
  lemma OriginIsSourceBox(cfg: Config, boxes: seq<Box>, n: nat, m: Machine, id: int, c: Point, crossed: bool)
    requires n < |boxes|
    requires Sourced(cfg, m, id, n + 1, c, crossed, Origin(cfg, n, boxes[n], SourceBox(cfg, boxes)))
    ensures Sourced(cfg, m, id, n + 1, c, crossed, SourceBox(cfg, boxes))
  {
    hide Live, Sole;
  }

  lemma {:induction false} DeliveryUnderway(cfg: Config, m: Machine, id: int, source: nat, boxes: seq<Box>,
                                            frames: seq<Frame>,
                                            n: nat)
    requires cfg.tokenTtl >= 0 && Delivery(cfg, id, source, boxes, frames)
    requires id !in m.tracks && Holding(m) && n < |boxes| == |frames| && Undisturbed(cfg, m, frames[..n], id)
    ensures var m' := Updates(cfg, m, frames[..n]);
      Underway(cfg, m', id, source, boxes, frames, n) && CountsOf(m'.log, id) == CountsOf(m.log, id)
  {
    hide CountsOf, Delivery, Update, Underway, Holding, Bystanders, Undisturbed, CreditedIn;
    DeliveryLength(cfg, id, source, boxes, frames);
    if n == 0 {
      NotYetUnderway(cfg, m, id, source, boxes, frames);
    } else {
      UndisturbedBefore(cfg, m, frames[..n], id, n - 1);
      assert frames[..n][..n - 1] == frames[..n - 1];
      DeliveryUnderway(cfg, m, id, source, boxes, frames, n - 1);
      OneFrame(cfg, Updates(cfg, m, frames[..n - 1]), id, source, boxes, frames, n - 1);
    }
  }

  lemma NotYetUnderway(cfg: Config, m: Machine, id: int, source: nat, boxes: seq<Box>, frames: seq<Frame>)
    requires id !in m.tracks && Holding(m) && |boxes| == |frames| > 0
    ensures Underway(cfg, m, id, source, boxes, frames, 0)
  {
  }

  lemma DeliveryLength(cfg: Config, id: int, source: nat, boxes: seq<Box>, frames: seq<Frame>)
    requires Delivery(cfg, id, source, boxes, frames)
    ensures |boxes| == |frames| >= 2
  {
  }

  // Any run may come before, and other tracks may be seen meanwhile: a delivery
  // by a track the counter does not know is counted in its last frame and not
  // earlier.
  lemma {:induction false} DeliveryIsCounted(cfg: Config, ops: seq<Operation>, id: int, source: nat, boxes: seq<Box>,
                                             frames: seq<Frame>)
    requires cfg.tokenTtl >= 0 && Delivery(cfg, id, source, boxes, frames) && id !in Run(cfg, ops).tracks
    requires Undisturbed(cfg, Run(cfg, ops), frames, id)
    ensures var m := Run(cfg, ops);
      && CountsOf(Updates(cfg, m, frames).log, id) == CountsOf(m.log, id) + 1
      && CreditedIn(Updates(cfg, m, frames[..|frames| - 1]).log, Updates(cfg, m, frames).log, id,
                    boxes[|boxes| - 1], SourceBox(cfg, boxes))
      && forall n: nat :: n < |frames| ==> CountsOf(Updates(cfg, m, frames[..n]).log, id) == CountsOf(m.log, id)
  {
    hide Run, CountsOf, Update, Delivery, Underway, Good, Bystanders;
    var m := Run(cfg, ops);
    RunGood(cfg, ops);
    GoodHolds(cfg, m);
    DeliveryLength(cfg, id, source, boxes, frames);
    forall n: nat | n < |frames|
      ensures CountsOf(Updates(cfg, m, frames[..n]).log, id) == CountsOf(m.log, id)
    {
      UndisturbedBefore(cfg, m, frames, id, n);
      DeliveryUnderway(cfg, m, id, source, boxes, frames, n);
    }
    var last := |frames| - 1;
    UndisturbedBefore(cfg, m, frames, id, last);
    DeliveryUnderway(cfg, m, id, source, boxes, frames, last);
    OneFrame(cfg, Updates(cfg, m, frames[..last]), id, source, boxes, frames, last);
  }

  lemma GoodHolds(cfg: Config, m: Machine)
    requires Good(cfg, m)
    ensures Holding(m)
  {
    hide LastSeen, UpdatesSinceDetected, Evidenced, GlobalOk;
    forall j | j in m.tracks && m.tracks[j].token.Some?
      ensures m.tracks[j].token.value < |m.tokens|
    {
      assert TrackOk(cfg, m, j, 0);
    }
  }
}
