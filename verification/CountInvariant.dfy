// The invariant of the source-token counter, and that every step keeps it.
module CountInvariant {
  import opened Prelude
  import opened Geometry
  import opened CountModel
  import opened CountHistory

  // What holds of one track at any moment.  late is 1 between the start of an
  // update and the moment the update reaches this track, else 0.
  ghost predicate TrackCore(m: Machine, id: int, late: nat)
    requires id in m.tracks
  {
    var t := m.tracks[id];
    && (t.token.Some? ==> t.token.value < |m.tokens|)
    && t.missing >= 0
    && Placeable(m, id)
    && LastSeen(m.log, id) == t.lastCenter
    && (UpdatesSinceDetected(m.log, id).Some? ==> UpdatesSinceDetected(m.log, id).value == t.missing + late)
  }

  // What holds of a track no step is working on.
  ghost predicate TrackOk(cfg: Config, m: Machine, id: int, late: nat)
    requires id in m.tracks
  {
    var t := m.tracks[id];
    && TrackCore(m, id, late)
    && (t.counted ==> !Live(m, t))
    && (t.counted || Live(m, t) ==> t.state != NewTrack)
    && (Live(m, t) ==> UpdatesSinceDetected(m.log, id).Some? && Age(m, t) <= t.missing + late)
    && (cfg.gate.Some? && t.crossedGate && !t.counted ==> Evidenced(cfg.gate.value, m.log, id))
    && (t.missing >= Patience(cfg) ==> !ReadyToDisappear(cfg, m, t))
  }

  ghost predicate TracksOk(cfg: Config, m: Machine, late: set<int>) {
    forall id :: id in m.tracks ==> TrackOk(cfg, m, id, if id in late then 1 else 0)
  }

  ghost predicate OrderOk(m: Machine) {
    NoDuplicates(m.order) && forall id :: id in m.order <==> id in m.tracks
  }

  ghost predicate TokensOk(m: Machine) {
    && m.frame == Ticks(m.log)
    && (forall k :: 0 <= k < |m.tokens| ==> m.tokens[k].lastFrame <= m.frame)
  }

  ghost predicate CountsOk(cfg: Config, m: Machine) {
    && AllJustified(cfg, m.log)
    && (forall k :: k in SpentTokens(m.log) ==> k < |m.tokens| && m.tokens[k].consumed)
    && CountedChains(m.log) <= m.chains
    && m.total == |Events(m.log)| == |m.residents| == m.authorized + m.inferred
    && m.authorized == |SpentTokens(m.log)| == |WithAuthority(Events(m.log), SourceTokenAuthorized)|
    && m.inferred == |WithAuthority(Events(m.log), RuntimeInferredOnly)| <= |CountedChains(m.log)|
  }

  ghost predicate Unknown(m: Machine) {
    forall id :: id !in m.tracks ==> LastSeen(m.log, id).None? && UpdatesSinceDetected(m.log, id).None?
  }

  ghost predicate GlobalOk(cfg: Config, m: Machine) {
    && OrderOk(m)
    && TokensOk(m)
    && CountsOk(cfg, m)
    && Unknown(m)
  }

  ghost predicate Inv(cfg: Config, m: Machine, late: set<int>) {
    TracksOk(cfg, m, late) && GlobalOk(cfg, m)
  }

  // The invariant while a step is working on track id.
  ghost predicate InvExcept(cfg: Config, m: Machine, id: int, late: set<int>) {
    && (forall j :: j != id && j in m.tracks ==> TrackOk(cfg, m, j, if j in late then 1 else 0))
    && GlobalOk(cfg, m)
    && id in m.tracks
    && TrackCore(m, id, if id in late then 1 else 0)
  }

  // ----- what a step on one track leaves alone -----

  // m' may differ from m in track id; tokens are only refreshed, consumed or
  // added; the log has grown by entries about id.
  ghost predicate Touches(cfg: Config, m: Machine, m': Machine, id: int) {
    && m'.frame == m.frame
    && |m.tokens| <= |m'.tokens|
    && (forall k :: 0 <= k < |m.tokens| ==>
          (m.tokens[k].consumed ==> m'.tokens[k].consumed) && m.tokens[k].lastFrame <= m'.tokens[k].lastFrame)
    && (forall j :: j != id && j in m.tracks ==> j in m'.tracks && m'.tracks[j] == m.tracks[j])
    && (forall j :: j != id && j in m'.tracks ==> j in m.tracks)
    && (forall j :: j != id ==>
          LastSeen(m'.log, j) == LastSeen(m.log, j)
          && UpdatesSinceDetected(m'.log, j) == UpdatesSinceDetected(m.log, j)
          && (cfg.gate.Some? && Evidenced(cfg.gate.value, m.log, j) ==> Evidenced(cfg.gate.value, m'.log, j)))
  }

  lemma OthersOk(cfg: Config, m: Machine, m': Machine, id: int, late: set<int>)
    requires Touches(cfg, m, m', id)
    requires forall j :: j != id && j in m.tracks ==> TrackOk(cfg, m, j, if j in late then 1 else 0)
    ensures forall j :: j != id && j in m'.tracks ==> TrackOk(cfg, m', j, if j in late then 1 else 0)
  {
    hide LastSeen, UpdatesSinceDetected, Evidenced;
    forall j | j != id && j in m'.tracks
      ensures TrackOk(cfg, m', j, if j in late then 1 else 0)
    {
      assert TrackOk(cfg, m, j, if j in late then 1 else 0);
    }
  }

  // ----- one log entry more -----

  lemma Quiet(cfg: Config, log: seq<Entry>, e: Entry)
    requires !e.Emitted?
    ensures SpentTokens(log + [e]) == SpentTokens(log)
    ensures CountedChains(log + [e]) == CountedChains(log)
    ensures Events(log + [e]) == Events(log)
    ensures AllJustified(cfg, log + [e]) == AllJustified(cfg, log)
    ensures Ticks(log + [e]) == Ticks(log) + if e.Tick? then 1 else 0
  {
    OneMore(log, e);
  }

  lemma Recorded(cfg: Config, log: seq<Entry>, e: Entry, j: int)
    ensures e.Detected? || e.Placed? ==>
      LastSeen(log + [e], j) == if e.id == j then Some(e.center) else LastSeen(log, j)
    ensures e.Forgotten? ==> LastSeen(log + [e], j) == if e.id == j then None else LastSeen(log, j)
    ensures e.Tick? || e.Inherited? || e.Emitted? ==> LastSeen(log + [e], j) == LastSeen(log, j)
    ensures e.Detected? ==>
      UpdatesSinceDetected(log + [e], j) == if e.id == j then Some(0) else UpdatesSinceDetected(log, j)
    ensures e.Forgotten? ==>
      UpdatesSinceDetected(log + [e], j) == if e.id == j then None else UpdatesSinceDetected(log, j)
    ensures e.Tick? ==>
      UpdatesSinceDetected(log + [e], j)
      == if UpdatesSinceDetected(log, j).Some? then Some(UpdatesSinceDetected(log, j).value + 1) else None
    ensures e.Placed? || e.Inherited? || e.Emitted? ==> UpdatesSinceDetected(log + [e], j) == UpdatesSinceDetected(log, j)
    ensures cfg.gate.Some? && Evidenced(cfg.gate.value, log, j) && !(e.Forgotten? && e.id == j) ==>
      Evidenced(cfg.gate.value, log + [e], j)
  {
    OneMore(log, e);
  }

  // Two entries that do not concern j.
  lemma RecordedForAll(cfg: Config, log: seq<Entry>, e: Entry, id: int)
    requires !e.Tick?
    requires (e.Detected? || e.Placed? || e.Forgotten?) ==> e.id == id
    ensures forall j :: j != id ==>
      LastSeen(log + [e], j) == LastSeen(log, j)
      && UpdatesSinceDetected(log + [e], j) == UpdatesSinceDetected(log, j)
      && (cfg.gate.Some? && Evidenced(cfg.gate.value, log, j) ==> Evidenced(cfg.gate.value, log + [e], j))
  {
    forall j | j != id
      ensures LastSeen(log + [e], j) == LastSeen(log, j)
      ensures UpdatesSinceDetected(log + [e], j) == UpdatesSinceDetected(log, j)
      ensures cfg.gate.Some? && Evidenced(cfg.gate.value, log, j) ==> Evidenced(cfg.gate.value, log + [e], j)
    {
      Recorded(cfg, log, e, j);
    }
  }

  lemma At(cfg: Config, m: Machine, id: int, late: set<int>)
    requires Inv(cfg, m, late) && id in m.tracks
    ensures TrackOk(cfg, m, id, if id in late then 1 else 0)
  {
  }

  lemma LaterKeeps(cfg: Config, m: Machine, id: int, late: set<int>)
    requires forall j :: j != id && j in m.tracks ==> TrackOk(cfg, m, j, if j in late then 1 else 0)
    ensures forall j :: j != id && j in m.tracks ==> TrackOk(cfg, m, j, if j in late - {id} then 1 else 0)
  {
  }

  // ----- the stages of one detection -----

  // What holds of the detected track itself between the stages.
  ghost predicate JustDetected(cfg: Config, m: Machine, d: Detection, crossed: bool) {
    && Placeable(m, d.trackId)
    && m.tracks[d.trackId].missing == 0
    && UpdatesSinceDetected(m.log, d.trackId) == Some(0)
    && (Live(m, m.tracks[d.trackId]) ==> Age(m, m.tracks[d.trackId]) == 0)
    && (crossed ==> cfg.gate.Some? && Evidenced(cfg.gate.value, m.log, d.trackId))
  }

  lemma ObserveTouches(cfg: Config, m: Machine, d: Detection, approved: bool)
    requires TokensOk(m)
    ensures Touches(cfg, m, Observe(m, d, approved), d.trackId)
    ensures TokensOk(Observe(m, d, approved))
  {
    var e := Detected(d.trackId, Center(d.bbox));
    RecordedForAll(cfg, m.log, e, d.trackId);
    Quiet(cfg, m.log, e);
    hide LastSeen, UpdatesSinceDetected, Evidenced, SpentTokens, CountedChains, Ticks, AllJustified, Events,
      WithAuthority;
    assert Observe(m, d, approved).log == m.log + [e];
  }

  lemma ObserveTrack(cfg: Config, m: Machine, d: Detection, approved: bool, late: set<int>)
    requires Inv(cfg, m, late)
    ensures TrackOk(cfg, Observe(m, d, approved), d.trackId, 0)
    ensures JustDetected(cfg, Observe(m, d, approved), d,
                         GateCrossed(cfg, PreviousCenter(m, d.trackId), Center(d.bbox)))
  {
    var id := d.trackId;
    var m' := Observe(m, d, approved);
    var e := Detected(id, Center(d.bbox));
    Recorded(cfg, m.log, e, id);
    EvidenceOfCrossing(cfg, m, d);
    if id in m.tracks {
      At(cfg, m, id, late);
    }
    hide LastSeen, UpdatesSinceDetected, Evidenced, Inv, CrossedAllowed;
    assert m'.log == m.log + [e];
  }

  lemma ObserveGlobal(cfg: Config, m: Machine, d: Detection, approved: bool)
    requires GlobalOk(cfg, m)
    ensures GlobalOk(cfg, Observe(m, d, approved))
  {
    hide LastSeen, UpdatesSinceDetected, Evidenced, SpentTokens, CountedChains, Ticks, AllJustified, Events,
      WithAuthority;
    var m' := Observe(m, d, approved);
    ObserveTouches(cfg, m, d, approved);
    UnknownKeeps(cfg, m, m', d.trackId);
    Quiet(cfg, m.log, Detected(d.trackId, Center(d.bbox)));
    hide Touches, Unknown, TokensOk;
    assert m'.log == m.log + [Detected(d.trackId, Center(d.bbox))];
  }

  lemma ObserveKeeps(cfg: Config, m: Machine, d: Detection, approved: bool, late: set<int>)
    requires Inv(cfg, m, late)
    ensures Inv(cfg, Observe(m, d, approved), late - {d.trackId})
    ensures JustDetected(cfg, Observe(m, d, approved), d,
                         GateCrossed(cfg, PreviousCenter(m, d.trackId), Center(d.bbox)))
  {
    hide JustDetected, TrackOk, GlobalOk, Touches, Observe;
    var m' := Observe(m, d, approved);
    ObserveTouches'(cfg, m, d, approved);
    ObserveTrack(cfg, m, d, approved, late);
    ObserveGlobal(cfg, m, d, approved);
    OthersOk(cfg, m, m', d.trackId, late);
    LaterKeeps(cfg, m', d.trackId, late);
  }

  lemma ObserveTouches'(cfg: Config, m: Machine, d: Detection, approved: bool)
    requires GlobalOk(cfg, m)
    ensures Touches(cfg, m, Observe(m, d, approved), d.trackId)
  {
    hide Touches, Observe, CountsOk, Unknown;
    ObserveTouches(cfg, m, d, approved);
  }

  lemma UnknownKeeps(cfg: Config, m: Machine, m': Machine, id: int)
    requires Unknown(m) && Touches(cfg, m, m', id) && id in m'.tracks
    ensures Unknown(m')
  {
    assert forall j :: j !in m'.tracks ==> j != id;
  }

  lemma EvidenceOfCrossing(cfg: Config, m: Machine, d: Detection)
    requires d.trackId in m.tracks ==> LastSeen(m.log, d.trackId) == m.tracks[d.trackId].lastCenter
    ensures GateCrossed(cfg, PreviousCenter(m, d.trackId), Center(d.bbox)) ==>
      Evidenced(cfg.gate.value, m.log + [Detected(d.trackId, Center(d.bbox))], d.trackId)
  {
    OneMore(m.log, Detected(d.trackId, Center(d.bbox)));
  }

  lemma PutKeeps(cfg: Config, m: Machine, id: int, t: Track, late: set<int>)
    requires Inv(cfg, m, late) && id in m.tracks
    requires TrackOk(cfg, Put(m, id, t), id, if id in late then 1 else 0)
    ensures Inv(cfg, Put(m, id, t), late)
  {
    hide LastSeen, UpdatesSinceDetected, Evidenced, SpentTokens, CountedChains, Ticks, AllJustified, Events,
      WithAuthority;
    var m' := Put(m, id, t);
    assert Touches(cfg, m, m', id);
    OthersOk(cfg, m, m', id, late);
  }


  lemma MintTouches(cfg: Config, m: Machine, id: int, bbox: Box)
    requires GlobalOk(cfg, m) && id in m.tracks
    ensures Touches(cfg, m, Mint(m, id, bbox), id) && GlobalOk(cfg, Mint(m, id, bbox))
  {
    hide LastSeen, UpdatesSinceDetected, Evidenced, SpentTokens, CountedChains, Ticks, AllJustified, Events,
      WithAuthority;
  }

  lemma MintKeeps(cfg: Config, m: Machine, id: int, bbox: Box, late: set<int>)
    requires Inv(cfg, m, late) && id in m.tracks && id !in late && !m.tracks[id].counted
    requires m.tracks[id].missing == 0 && UpdatesSinceDetected(m.log, id) == Some(0)
    ensures Inv(cfg, Mint(m, id, bbox), late)
    ensures Age(Mint(m, id, bbox), Mint(m, id, bbox).tracks[id]) == 0
  {
    hide LastSeen, UpdatesSinceDetected, Evidenced, GlobalOk, Touches;
    var m' := Mint(m, id, bbox);
    At(cfg, m, id, late);
    MintTouches(cfg, m, id, bbox);
    OthersOk(cfg, m, m', id, late);
  }

  lemma BorrowTouches(cfg: Config, m: Machine, id: int, lender: int)
    requires GlobalOk(cfg, m) && id in m.tracks && CanLend(cfg, m, lender, id)
    ensures Touches(cfg, m, Borrow(cfg, m, id, lender), id)
    ensures GlobalOk(cfg, Borrow(cfg, m, id, lender))
  {
    hide LastSeen, UpdatesSinceDetected, Evidenced, SpentTokens, CountedChains, Ticks, AllJustified, Events,
      WithAuthority;
    var m' := Borrow(cfg, m, id, lender);
    Quiet(cfg, m.log, Inherited(id, lender));
    RecordedForAll(cfg, m.log, Inherited(id, lender), id);
    assert m'.log == m.log + [Inherited(id, lender)];
    assert Touches(cfg, m, m', id);
    UnknownKeeps(cfg, m, m', id);
  }

  lemma EvidenceInherited(cfg: Config, log: seq<Entry>, id: int, lender: int)
    requires cfg.gate.Some?
    requires Evidenced(cfg.gate.value, log, id) || Evidenced(cfg.gate.value, log, lender)
    ensures Evidenced(cfg.gate.value, log + [Inherited(id, lender)], id)
  {
    OneMore(log, Inherited(id, lender));
  }

  lemma BorrowTrack(cfg: Config, m: Machine, id: int, lender: int, late: set<int>)
    requires id in m.tracks && id !in late && CanLend(cfg, m, lender, id) && !m.tracks[id].counted
    requires TrackOk(cfg, m, id, 0) && TrackOk(cfg, m, lender, if lender in late then 1 else 0)
    requires m.tracks[id].missing == 0 && UpdatesSinceDetected(m.log, id) == Some(0)
    ensures var m' := Borrow(cfg, m, id, lender);
      && TrackOk(cfg, m', id, 0)
      && Age(m', m'.tracks[id]) == 0
      && UpdatesSinceDetected(m'.log, id) == Some(0)
      && (cfg.gate.Some? && Evidenced(cfg.gate.value, m.log, id) ==> Evidenced(cfg.gate.value, m'.log, id))
  {
    hide LastSeen, UpdatesSinceDetected, Evidenced;
    Recorded(cfg, m.log, Inherited(id, lender), id);
    if cfg.gate.Some? && (Evidenced(cfg.gate.value, m.log, id) || Evidenced(cfg.gate.value, m.log, lender)) {
      EvidenceInherited(cfg, m.log, id, lender);
    }
    assert Borrow(cfg, m, id, lender).log == m.log + [Inherited(id, lender)];
  }

  lemma BorrowKeeps(cfg: Config, m: Machine, id: int, lender: int, late: set<int>)
    requires Inv(cfg, m, late) && id in m.tracks && id !in late
    requires CanLend(cfg, m, lender, id) && !m.tracks[id].counted
    requires m.tracks[id].missing == 0 && UpdatesSinceDetected(m.log, id) == Some(0)
    ensures Inv(cfg, Borrow(cfg, m, id, lender), late)
    ensures Age(Borrow(cfg, m, id, lender), Borrow(cfg, m, id, lender).tracks[id]) == 0
    ensures UpdatesSinceDetected(Borrow(cfg, m, id, lender).log, id) == Some(0)
    ensures cfg.gate.Some? && Evidenced(cfg.gate.value, m.log, id) ==>
      Evidenced(cfg.gate.value, Borrow(cfg, m, id, lender).log, id)
  {
    hide LastSeen, UpdatesSinceDetected, Evidenced, TrackOk, GlobalOk, Touches;
    At(cfg, m, id, late);
    At(cfg, m, lender, late);
    BorrowTrack(cfg, m, id, lender, late);
    BorrowTouches(cfg, m, id, lender);
    OthersOk(cfg, m, Borrow(cfg, m, id, lender), id, late);
  }

  lemma ClassifyKeeps(cfg: Config, m: Machine, d: Detection, crossed: bool, late: set<int>)
    requires Inv(cfg, m, late) && JustDetected(cfg, m, d, crossed) && d.trackId !in late
    ensures var r := Classify(cfg, m, d);
      r.Some? ==> Inv(cfg, r.value, late) && JustDetected(cfg, r.value, d, crossed)
                  && r.value.tracks[d.trackId].state != NewTrack
    ensures Classify(cfg, m, d).None? ==> !m.tracks[d.trackId].counted && !Live(m, m.tracks[d.trackId])
  {
    hide LastSeen, UpdatesSinceDetected, Evidenced, Inv, MatchingResident;
    var id := d.trackId;
    var t := m.tracks[id];
    At(cfg, m, id, late);
    if t.state == NewTrack && Classify(cfg, m, d).Some? {
      if d.outputHit && !d.sourceHit {
        var lender := Lender(cfg, m, m.order, id).value;
        BorrowKeeps(cfg, m, id, lender, late);
        var m1 := Borrow(cfg, m, id, lender);
        At(cfg, m1, id, late);
        PutKeeps(cfg, m1, id, m1.tracks[id].(state := Observing), late);
      } else {
        PutKeeps(cfg, m, id, t.(state := Observing), late);
      }
    }
  }

  lemma SourceStepKeeps(cfg: Config, m: Machine, d: Detection, crossed: bool, late: set<int>)
    requires Inv(cfg, m, late) && JustDetected(cfg, m, d, crossed) && d.trackId !in late
    requires m.tracks[d.trackId].state != NewTrack
    ensures var m' := SourceStep(cfg, m, d);
      Inv(cfg, m', late) && JustDetected(cfg, m', d, crossed) && m'.tracks[d.trackId].state != NewTrack
  {
    hide LastSeen, UpdatesSinceDetected, Evidenced, Inv;
    var t := m.tracks[d.trackId];
    At(cfg, m, d.trackId, late);
    if d.sourceHit && !t.counted && t.state != ResidentOutputObject {
      var t1 := t.(sourceFrames := t.sourceFrames + 1);
      PutKeeps(cfg, m, d.trackId, t1, late);
      if t1.sourceFrames >= cfg.sourceMinFrames && !Live(m, t) {
        MintKeeps(cfg, Put(m, d.trackId, t1), d.trackId, d.bbox, late);
      }
    }
  }

  lemma GateStepKeeps(cfg: Config, m: Machine, d: Detection, previous: Option<Point>, late: set<int>)
    requires Inv(cfg, m, late) && d.trackId !in late
    requires JustDetected(cfg, m, d, GateCrossed(cfg, previous, Center(d.bbox)))
    requires m.tracks[d.trackId].state != NewTrack
    ensures var m' := GateStep(cfg, m, d, previous);
      Inv(cfg, m', late) && JustDetected(cfg, m', d, false) && m'.tracks[d.trackId].state != NewTrack
  {
    hide LastSeen, UpdatesSinceDetected, Evidenced, Inv, CrossedAllowed;
    At(cfg, m, d.trackId, late);
    var m' := GateStep(cfg, m, d, previous);
    assert m' == Put(m, d.trackId, m'.tracks[d.trackId]);
    PutKeeps(cfg, m, d.trackId, m'.tracks[d.trackId], late);
  }

  // ----- the one step that counts -----

  // The histories after one count more.
  lemma CountedOnceMore(cfg: Config, log: seq<Entry>, e: Event, age: int)
    requires AllJustified(cfg, log) && Justified(cfg, log, e, age)
    ensures AllJustified(cfg, log + [Emitted(e, age)])
    ensures SpentTokens(log + [Emitted(e, age)])
            == if e.authority.SourceTokenAuthorized? then SpentTokens(log) + {e.tokenId.value} else SpentTokens(log)
    ensures CountedChains(log + [Emitted(e, age)])
            == if e.chainId.Some? then CountedChains(log) + {e.chainId.value} else CountedChains(log)
    ensures Events(log + [Emitted(e, age)]) == Events(log) + [e]
  {
    hide Justified;
    OneMore(log, Emitted(e, age));
    assert e.authority.SourceTokenAuthorized? ==> e.tokenId.Some? by { JustifiedNamesToken(cfg, log, e, age); }
  }

  lemma JustifiedNamesToken(cfg: Config, log: seq<Entry>, e: Event, age: int)
    requires Justified(cfg, log, e, age)
    ensures e.authority.SourceTokenAuthorized? ==> e.tokenId.Some? && e.tokenId.value !in SpentTokens(log)
    ensures e.authority.RuntimeInferredOnly? ==> e.chainId.Some?
    ensures e.chainId.Some? ==> e.chainId.value !in CountedChains(log)
  {
  }

  lemma CommitCounts(cfg: Config, m: Machine, id: int, reason: Reason, chainId: Option<string>,
                     sourceTrackId: Option<int>, provenance: Option<Provenance>)
    requires CountsOk(cfg, m) && Placeable(m, id)
    requires Live(m, m.tracks[id]) <==> provenance != Some(SyntheticApprovedChainToken)
    requires chainId.Some? ==> chainId.value in m.chains
    requires Justified(cfg, m.log, CountEvent(m, id, reason, chainId, sourceTrackId, provenance), Age(m, m.tracks[id]))
    ensures CountsOk(cfg, Commit(m, id, reason, chainId, sourceTrackId, provenance))
  {
    hide Justified, AllJustified, SpentTokens, CountedChains, Events, WithAuthority, Age;
    var ev := CountEvent(m, id, reason, chainId, sourceTrackId, provenance);
    JustifiedNamesToken(cfg, m.log, ev, Age(m, m.tracks[id]));
    CountedOnceMore(cfg, m.log, ev, Age(m, m.tracks[id]));
    OneMoreEvent(Events(m.log), ev);
  }

  lemma OneMoreEvent(events: seq<Event>, e: Event)
    ensures WithAuthority(events + [e], e.authority) == WithAuthority(events, e.authority) + [e]
    ensures forall a :: a != e.authority ==> WithAuthority(events + [e], a) == WithAuthority(events, a)
  {
    assert (events + [e])[..|events + [e]| - 1] == events;
  }

  lemma CommitTouches(cfg: Config, m: Machine, id: int, reason: Reason, chainId: Option<string>,
                      sourceTrackId: Option<int>, provenance: Option<Provenance>)
    requires Placeable(m, id) && TokensOk(m)
    ensures var m' := Commit(m, id, reason, chainId, sourceTrackId, provenance);
      && Touches(cfg, m, m', id)
      && TokensOk(m')
      && LastSeen(m'.log, id) == LastSeen(m.log, id)
      && UpdatesSinceDetected(m'.log, id) == UpdatesSinceDetected(m.log, id)
  {
    hide LastSeen, UpdatesSinceDetected, Evidenced, Ticks, CountEvent, Age;
    var e := Emitted(CountEvent(m, id, reason, chainId, sourceTrackId, provenance), Age(m, m.tracks[id]));
    Recorded(cfg, m.log, e, id);
    RecordedForAll(cfg, m.log, e, id);
    NoTick(m.log, e);
    assert Commit(m, id, reason, chainId, sourceTrackId, provenance).log == m.log + [e];
  }

  lemma CommitKeeps(cfg: Config, m: Machine, id: int, reason: Reason, chainId: Option<string>,
                    sourceTrackId: Option<int>, provenance: Option<Provenance>, late: set<int>)
    requires InvExcept(cfg, m, id, late) && !m.tracks[id].counted
    requires Live(m, m.tracks[id]) <==> provenance != Some(SyntheticApprovedChainToken)
    requires chainId.Some? ==> chainId.value in m.chains
    requires Justified(cfg, m.log, CountEvent(m, id, reason, chainId, sourceTrackId, provenance), Age(m, m.tracks[id]))
    ensures Inv(cfg, Commit(m, id, reason, chainId, sourceTrackId, provenance), late)
  {
    hide CountsOk, Justified, Evidenced, LastSeen, UpdatesSinceDetected, Ticks, TokensOk;
    CommitCounts(cfg, m, id, reason, chainId, sourceTrackId, provenance);
    CommitTouches(cfg, m, id, reason, chainId, sourceTrackId, provenance);
    var m' := Commit(m, id, reason, chainId, sourceTrackId, provenance);
    OthersOk(cfg, m, m', id, late);
    assert TrackOk(cfg, m', id, if id in late then 1 else 0);
    UnknownKeeps(cfg, m, m', id);
  }

  lemma NoTick(log: seq<Entry>, e: Entry)
    requires !e.Tick?
    ensures Ticks(log + [e]) == Ticks(log)
  {
    OneMore(log, e);
  }

  lemma LiveTokenUnspent(cfg: Config, m: Machine, id: int)
    requires CountsOk(cfg, m) && id in m.tracks && Live(m, m.tracks[id])
    ensures m.tracks[id].token.value !in SpentTokens(m.log)
  {
  }

  lemma InvIsInvExcept(cfg: Config, m: Machine, id: int, late: set<int>)
    requires Inv(cfg, m, late) && id in m.tracks
    ensures InvExcept(cfg, m, id, late)
    ensures Live(m, m.tracks[id]) ==> m.tracks[id].token.value !in SpentTokens(m.log)
    ensures Live(m, m.tracks[id]) ==> Age(m, m.tracks[id]) >= 0
  {
  }

  lemma SettleKeeps(cfg: Config, m: Machine, d: Detection, previous: Option<Point>, late: set<int>)
    requires Inv(cfg, m, late) && JustDetected(cfg, m, d, false) && d.trackId !in late
    requires m.tracks[d.trackId].state != NewTrack
    requires Live(m, m.tracks[d.trackId]) && GateSatisfied(cfg, m.tracks[d.trackId])
    ensures Inv(cfg, Settle(cfg, m, d, previous), late)
  {
    hide LastSeen, UpdatesSinceDetected, Evidenced, Inv, InvExcept, Stable, SpentTokens, CountedChains, Commit;
    var id := d.trackId;
    var t := m.tracks[id];
    var t' := t.(
      outputFrames := t.outputFrames + 1,
      enteredOutput := true,
      state := SettledState(t.state),
      stableOutputFrames := if Stable(cfg, previous, Center(d.bbox)) then t.stableOutputFrames + 1 else 1);
    At(cfg, m, id, late);
    PutKeeps(cfg, m, id, t', late);
    var m' := Put(m, id, t');
    if t'.approved && !t'.counted && t'.stableOutputFrames >= cfg.outputStableFrames {
      InvIsInvExcept(cfg, m', id, late);
      CommitKeeps(cfg, m', id, StableInOutput, None, None, None, late);
    }
  }

  lemma OutputStepKeeps(cfg: Config, m: Machine, d: Detection, previous: Option<Point>, late: set<int>)
    requires Inv(cfg, m, late) && JustDetected(cfg, m, d, false) && d.trackId !in late
    requires m.tracks[d.trackId].state != NewTrack && Placeable(m, d.trackId)
    ensures Inv(cfg, OutputStep(cfg, m, d, previous), late)
  {
    hide LastSeen, UpdatesSinceDetected, Evidenced, Inv, Settle;
    var id := d.trackId;
    var t := m.tracks[id];
    At(cfg, m, id, late);
    if d.outputHit && Live(m, t) && GateSatisfied(cfg, t) {
      SettleKeeps(cfg, m, d, previous, late);
    } else {
      PutKeeps(cfg, m, id, OutputStep(cfg, m, d, previous).tracks[id], late);
    }
  }

  lemma AdvanceKeeps(cfg: Config, m: Machine, d: Detection, previous: Option<Point>, late: set<int>)
    requires Inv(cfg, m, late) && d.trackId !in late
    requires JustDetected(cfg, m, d, GateCrossed(cfg, previous, Center(d.bbox)))
    requires m.tracks[d.trackId].state != NewTrack
    ensures Inv(cfg, Advance(cfg, m, d, previous), late)
  {
    SourceStepKeeps(cfg, m, d, GateCrossed(cfg, previous, Center(d.bbox)), late);
    hide LastSeen, UpdatesSinceDetected, Evidenced, Inv, GateCrossed, SourceStep, GateStep, OutputStep, Live, Age;
    GateStepKeeps(cfg, SourceStep(cfg, m, d), d, previous, late);
    OutputStepKeeps(cfg, GateStep(cfg, SourceStep(cfg, m, d), d, previous), d, previous, late);
  }

  lemma JudgeKeeps(cfg: Config, m: Machine, d: Detection, previous: Option<Point>, late: set<int>)
    requires Inv(cfg, m, late) && d.trackId !in late
    requires JustDetected(cfg, m, d, GateCrossed(cfg, previous, Center(d.bbox)))
    ensures Inv(cfg, Judge(cfg, m, d, previous), late)
  {
    hide LastSeen, UpdatesSinceDetected, Evidenced, Inv, GateCrossed, Classify, Advance;
    var id := d.trackId;
    var t := m.tracks[id].(lastValidInOutput := !d.ignoreHit && d.outputHit);
    At(cfg, m, id, late);
    PutKeeps(cfg, m, id, t, late);
    if !d.ignoreHit {
      var m1 := Put(m, id, t);
      At(cfg, m1, id, late);
      ClassifyKeeps(cfg, m1, d, GateCrossed(cfg, previous, Center(d.bbox)), late);
      var judged := Classify(cfg, m1, d);
      if judged.None? {
        PutKeeps(cfg, m1, id, t.(state := ResidentOutputObject), late);
      } else {
        AdvanceKeeps(cfg, judged.value, d, previous, late);
      }
    }
  }

  lemma DetectKeeps(cfg: Config, m: Machine, d: Detection, approved: bool, late: set<int>)
    requires Inv(cfg, m, late)
    ensures Inv(cfg, Detect(cfg, m, d, approved), late - {d.trackId})
  {
    hide Inv, Judge, Observe, JustDetected;
    ObserveKeeps(cfg, m, d, approved, late);
    JudgeKeeps(cfg, Observe(m, d, approved), d, PreviousCenter(m, d.trackId), late - {d.trackId});
  }

  // ----- the other parts of an update -----

  lemma BeginFrameKeeps(cfg: Config, m: Machine)
    requires Inv(cfg, m, {})
    ensures Inv(cfg, BeginFrame(m), m.tracks.Keys)
  {
    var m' := BeginFrame(m);
    Quiet(cfg, m.log, Tick);
    hide LastSeen, UpdatesSinceDetected, Evidenced, SpentTokens, CountedChains, Events, AllJustified, WithAuthority;
    forall id
      ensures LastSeen(m'.log, id) == LastSeen(m.log, id)
      ensures UpdatesSinceDetected(m.log, id).None? ==> UpdatesSinceDetected(m'.log, id).None?
      ensures id in m.tracks ==> TrackOk(cfg, m', id, 1)
    {
      Recorded(cfg, m.log, Tick, id);
      if id in m.tracks {
        At(cfg, m, id, {});
      }
    }
  }

  lemma MissedKeeps(cfg: Config, m: Machine, id: int, late: set<int>)
    requires Inv(cfg, m, late) && id in m.tracks && id in late
    ensures InvExcept(cfg, Put(m, id, m.tracks[id].(missing := m.tracks[id].missing + 1)), id, late - {id})
  {
    hide LastSeen, UpdatesSinceDetected, Evidenced, SpentTokens, CountedChains, Events, AllJustified, WithAuthority,
      Ticks;
    var m1 := Put(m, id, m.tracks[id].(missing := m.tracks[id].missing + 1));
    At(cfg, m, id, late);
    OthersOk(cfg, m, m1, id, late);
    LaterKeeps(cfg, m1, id, late);
  }

  lemma MarkMissingKeeps(cfg: Config, m: Machine, id: int, late: set<int>)
    requires Inv(cfg, m, late) && id in m.tracks && id in late
    ensures Inv(cfg, MarkMissing(cfg, m, id), late - {id})
    ensures MarkMissing(cfg, m, id).order == m.order && MarkMissing(cfg, m, id).tracks.Keys == m.tracks.Keys
  {
    hide LastSeen, UpdatesSinceDetected, Evidenced, SpentTokens, CountedChains, Inv, InvExcept;
    var late' := late - {id};
    var t := m.tracks[id].(missing := m.tracks[id].missing + 1);
    var m1 := Put(m, id, t);
    At(cfg, m, id, late);
    InvIsInvExcept(cfg, m, id, late);
    MissedKeeps(cfg, m, id, late);
    if ReadyToDisappear(cfg, m, t) && t.missing >= cfg.disappearFrames {
      CommitKeeps(cfg, m1, id, DisappearedInOutput, None, None, None, late');
    } else {
      InvFromExcept(cfg, m1, id, late');
    }
  }

  lemma InvFromExcept(cfg: Config, m: Machine, id: int, late: set<int>)
    requires InvExcept(cfg, m, id, late) && TrackOk(cfg, m, id, if id in late then 1 else 0)
    ensures Inv(cfg, m, late)
  {
  }

  lemma ForgetKeeps(cfg: Config, m: Machine, id: int, late: set<int>)
    requires Inv(cfg, m, late) && id in m.tracks
    ensures Inv(cfg, Forget(m, id), late)
  {
    hide LastSeen, UpdatesSinceDetected, Evidenced, SpentTokens, CountedChains, Events, AllJustified, WithAuthority,
      Ticks, Without;
    var m' := Forget(m, id);
    var e := Forgotten(id);
    Quiet(cfg, m.log, e);
    Recorded(cfg, m.log, e, id);
    RecordedForAll(cfg, m.log, e, id);
    WithoutMembers(m.order, id);
    assert m'.log == m.log + [e];
    OthersOk(cfg, m, m', id, late);
  }

  lemma MissKeeps(cfg: Config, m: Machine, id: int, late: set<int>)
    requires Inv(cfg, m, late) && id in m.tracks && id in late
    ensures Inv(cfg, Miss(cfg, m, id), late - {id})
    ensures forall j :: j != id ==> (j in Miss(cfg, m, id).tracks <==> j in m.tracks)
  {
    MarkMissingKeeps(cfg, m, id, late);
    hide Inv, MarkMissing;
    var m1 := MarkMissing(cfg, m, id);
    if m1.tracks[id].missing > cfg.maxMissing {
      ForgetKeeps(cfg, m1, id, late - {id});
    }
  }

  lemma ExpireKeeps(cfg: Config, m: Machine, id: int, late: set<int>)
    requires Inv(cfg, m, late) && id in m.tracks
    ensures Inv(cfg, Expire(cfg, m, id), late)
    ensures Expire(cfg, m, id).order == m.order && Expire(cfg, m, id).tracks.Keys == m.tracks.Keys
  {
    hide LastSeen, UpdatesSinceDetected, Evidenced, SpentTokens, CountedChains, Events, AllJustified, WithAuthority,
      Ticks;
    var m' := Expire(cfg, m, id);
    At(cfg, m, id, late);
    OthersOk(cfg, m, m', id, late);
  }

  ghost predicate Fresh(cfg: Config, m: Machine, id: int) {
    id in m.tracks && Live(m, m.tracks[id]) && !m.tracks[id].enteredOutput && !m.tracks[id].counted
    ==> Age(m, m.tracks[id]) <= cfg.tokenTtl
  }

  lemma ExpireFreshens(cfg: Config, m: Machine, id: int, j: int)
    requires id in m.tracks
    ensures Fresh(cfg, Expire(cfg, m, id), id)
    ensures Fresh(cfg, m, j) ==> Fresh(cfg, Expire(cfg, m, id), j)
  {
  }

  // ----- the loops of an update -----

  lemma {:induction false} DetectAllKeeps(cfg: Config, m: Machine, ds: seq<Detection>, approved: Option<set<int>>,
                                          late: set<int>)
    requires Inv(cfg, m, late)
    ensures Inv(cfg, DetectAll(cfg, m, ds, approved), late - Ids(ds))
    ensures DetectAll(cfg, m, ds, approved).tracks.Keys == m.tracks.Keys + Ids(ds)
  {
    hide Inv, Detect;
    if ds == [] {
      assert late - Ids(ds) == late;
    } else {
      var n := |ds| - 1;
      var d := ds[n];
      DetectAllKeeps(cfg, m, ds[..n], approved, late);
      assert ds == ds[..n] + [d];
      assert Ids(ds) == Ids(ds[..n]) + {d.trackId};
      var m1 := DetectAll(cfg, m, ds[..n], approved);
      var ok := approved.None? || d.trackId in approved.value;
      DetectKeeps(cfg, m1, d, ok, late - Ids(ds[..n]));
      assert late - Ids(ds[..n]) - {d.trackId} == late - Ids(ds);
    }
  }

  lemma {:induction false} MissAllKeeps(cfg: Config, m: Machine, ids: seq<int>, present: set<int>, late: set<int>)
    requires Inv(cfg, m, late) && NoDuplicates(ids)
    requires forall id :: id in ids ==> id in m.tracks && (id in late || id in present)
    requires late !! present
    ensures Inv(cfg, MissAll(cfg, m, ids, present), late - Elements(ids))
    ensures forall j :: j !in ids ==> (j in MissAll(cfg, m, ids, present).tracks <==> j in m.tracks)
  {
    hide Inv, Miss;
    if ids == [] {
      assert late - Elements(ids) == late;
    } else {
      var n := |ids| - 1;
      var id := ids[n];
      assert ids == ids[..n] + [id];
      assert Elements(ids) == Elements(ids[..n]) + {id};
      MissAllKeeps(cfg, m, ids[..n], present, late);
      var m1 := MissAll(cfg, m, ids[..n], present);
      var late1 := late - Elements(ids[..n]);
      assert id in m1.tracks;
      if id in present {
        assert late1 == late - Elements(ids);
      } else {
        MissKeeps(cfg, m1, id, late1);
        assert late1 - {id} == late - Elements(ids);
      }
    }
  }

  lemma {:induction false} ExpireAllKeeps(cfg: Config, m: Machine, ids: seq<int>)
    requires Inv(cfg, m, {}) && forall id :: id in ids ==> id in m.tracks
    ensures Inv(cfg, ExpireAll(cfg, m, ids), {})
    ensures ExpireAll(cfg, m, ids).tracks.Keys == m.tracks.Keys
    ensures forall id :: id in ids ==> Fresh(cfg, ExpireAll(cfg, m, ids), id)
  {
    hide Inv, Fresh, Expire;
    if ids != [] {
      var n := |ids| - 1;
      assert ids == ids[..n] + [ids[n]];
      ExpireAllKeeps(cfg, m, ids[..n]);
      var m1 := ExpireAll(cfg, m, ids[..n]);
      ExpireKeeps(cfg, m1, ids[n], {});
      forall id | id in ids
        ensures Fresh(cfg, ExpireAll(cfg, m, ids), id)
      {
        ExpireFreshens(cfg, m1, ids[n], id);
      }
    }
  }

  // The invariant between public operations.
  ghost predicate Good(cfg: Config, m: Machine) {
    Inv(cfg, m, {}) && forall id :: id in m.tracks ==> Fresh(cfg, m, id)
  }

  lemma UpdateKeeps(cfg: Config, m: Machine, ds: seq<Detection>, approved: Option<set<int>>)
    requires Good(cfg, m)
    ensures Good(cfg, Update(cfg, m, ds, approved))
  {
    hide Inv, Fresh, DetectAll, MissAll, ExpireAll, BeginFrame;
    var m0 := BeginFrame(m);
    BeginFrameKeeps(cfg, m);
    var late := m.tracks.Keys;
    DetectAllKeeps(cfg, m0, ds, approved, late);
    var m1 := DetectAll(cfg, m0, ds, approved);
    OrderIsKeys(cfg, m1, late - Ids(ds));
    assert m0.tracks == m.tracks by { BeginFrameTracks(m); }
    MissAllKeeps(cfg, m1, m1.order, Ids(ds), late - Ids(ds));
    var m2 := MissAll(cfg, m1, m1.order, Ids(ds));
    assert late - Ids(ds) - Elements(m1.order) == {} by {
      assert forall id :: id in late ==> id in m1.order;
    }
    OrderIsKeys(cfg, m2, {});
    ExpireAllKeeps(cfg, m2, m2.order);
  }

  lemma BeginFrameTracks(m: Machine)
    ensures BeginFrame(m).tracks == m.tracks
  {
  }

  lemma OrderIsKeys(cfg: Config, m: Machine, late: set<int>)
    requires Inv(cfg, m, late)
    ensures NoDuplicates(m.order) && forall id :: id in m.order <==> id in m.tracks
  {
  }

  // ----- a delivery chain -----

  lemma PlacedTouches(cfg: Config, m: Machine, m': Machine, id: int, center: Point)
    requires m'.log == m.log + [Placed(id, center)] && m'.frame == m.frame && m'.tokens == m.tokens
    requires forall j :: j != id ==> (j in m'.tracks <==> j in m.tracks)
    requires forall j :: j != id && j in m.tracks ==> m'.tracks[j] == m.tracks[j]
    ensures Touches(cfg, m, m', id)
    ensures LastSeen(m'.log, id) == Some(center)
    ensures UpdatesSinceDetected(m'.log, id) == UpdatesSinceDetected(m.log, id)
    ensures cfg.gate.Some? && Evidenced(cfg.gate.value, m.log, id) ==> Evidenced(cfg.gate.value, m'.log, id)
  {
    hide LastSeen, UpdatesSinceDetected, Evidenced;
    Recorded(cfg, m.log, Placed(id, center), id);
    RecordedForAll(cfg, m.log, Placed(id, center), id);
  }

  // The counters and histories after a chain has been noted and placed.
  lemma PlacedCounts(cfg: Config, m: Machine, m': Machine, id: int, center: Point)
    requires CountsOk(cfg, m) && TokensOk(m)
    requires m'.log == m.log + [Placed(id, center)] && m'.frame == m.frame && m'.tokens == m.tokens
    requires m'.total == m.total && m'.authorized == m.authorized && m'.inferred == m.inferred
    requires m'.residents == m.residents && m.chains <= m'.chains
    ensures CountsOk(cfg, m') && TokensOk(m')
    ensures CountedChains(m'.log) == CountedChains(m.log)
  {
    hide LastSeen, UpdatesSinceDetected, Evidenced, SpentTokens, CountedChains, Events, AllJustified, WithAuthority,
      Ticks;
    Quiet(cfg, m.log, Placed(id, center));
  }

  // The track comes to rest beside a recent resident and is not counted.
  function Rest(m: Machine, id: int, bbox: Box, chainId: string): Machine {
    var m1 := Remember(m, id).(chains := m.chains + {chainId});
    Note(Put(m1, id, m1.tracks[id].(lastBbox := Some(bbox), lastCenter := Some(Center(bbox)),
                                    state := ResidentOutputObject)),
         Placed(id, Center(bbox)))
  }

  lemma RestKeeps(cfg: Config, m: Machine, id: int, bbox: Box, chainId: string)
    requires Inv(cfg, m, {})
    ensures Inv(cfg, Rest(m, id, bbox, chainId), {})
  {
    hide LastSeen, UpdatesSinceDetected, Evidenced, CountsOk, TokensOk;
    var m' := Rest(m, id, bbox, chainId);
    PlacedTouches(cfg, m, m', id, Center(bbox));
    PlacedCounts(cfg, m, m', id, Center(bbox));
    OthersOk(cfg, m, m', id, {});
    if id in m.tracks {
      At(cfg, m, id, {});
    }
    assert TrackOk(cfg, m', id, 0);
    UnknownKeeps(cfg, m, m', id);
  }

  lemma ApproachKeeps(cfg: Config, m: Machine, id: int, bbox: Box, chainId: string)
    requires Inv(cfg, m, {})
    requires id in m.tracks ==> !m.tracks[id].counted
    requires chainId !in m.chains
    ensures var m' := Approach(cfg, Remember(m, id).(chains := m.chains + {chainId}), id, bbox);
      InvExcept(cfg, m', id, {}) && !m'.tracks[id].counted
      && chainId in m'.chains && chainId !in CountedChains(m'.log)
  {
    hide LastSeen, UpdatesSinceDetected, Evidenced, TokensOk, AllJustified, SpentTokens, CountedChains, Events,
      WithAuthority;
    var m' := Approach(cfg, Remember(m, id).(chains := m.chains + {chainId}), id, bbox);
    PlacedTouches(cfg, m, m', id, Center(bbox));
    PlacedCounts(cfg, m, m', id, Center(bbox));
    OthersOk(cfg, m, m', id, {});
    if id in m.tracks {
      At(cfg, m, id, {});
    }
    UnknownKeeps(cfg, m, m', id);
  }

  lemma ProvideTouches(cfg: Config, m: Machine, id: int, sourceTrackId: Option<int>)
    requires id in m.tracks && TokensOk(m)
    ensures Touches(cfg, m, Provide(m, id, sourceTrackId).0, id)
  {
    hide LastSeen, UpdatesSinceDetected, Evidenced, Ticks;
  }

  lemma ProvideGlobal(cfg: Config, m: Machine, id: int, sourceTrackId: Option<int>)
    requires id in m.tracks && GlobalOk(cfg, m)
    ensures GlobalOk(cfg, Provide(m, id, sourceTrackId).0)
  {
    hide LastSeen, UpdatesSinceDetected, Evidenced, AllJustified, SpentTokens, CountedChains, Events, WithAuthority,
      Ticks;
  }

  lemma ProvideKeeps(cfg: Config, m: Machine, id: int, sourceTrackId: Option<int>)
    requires InvExcept(cfg, m, id, {})
    ensures var (m', provenance) := Provide(m, id, sourceTrackId);
      && InvExcept(cfg, m', id, {})
      && m'.tracks[id].counted == m.tracks[id].counted && m'.log == m.log && m'.chains == m.chains
      && (Live(m', m'.tracks[id]) <==> provenance != SyntheticApprovedChainToken)
      && (Live(m', m'.tracks[id]) ==> m'.tracks[id].token.value !in SpentTokens(m'.log))
  {
    hide LastSeen, UpdatesSinceDetected, Evidenced, SpentTokens, TrackOk, Touches, OrderOk, Unknown, TokensOk, CountsOk;
    var m' := Provide(m, id, sourceTrackId).0;
    ProvideTouches(cfg, m, id, sourceTrackId);
    ProvideGlobal(cfg, m, id, sourceTrackId);
    OthersOk(cfg, m, m', id, {});
    if Live(m', m'.tracks[id]) {
      LiveTokenUnspent(cfg, m', id);
    }
  }

  lemma CommitChainKeeps(cfg: Config, m: Machine, chainId: string, id: int, bbox: Box, sourceTrackId: Option<int>)
    requires Inv(cfg, m, {})
    ensures Inv(cfg, CommitChain(cfg, m, chainId, id, bbox, sourceTrackId), {})
  {
    hide LastSeen, UpdatesSinceDetected, Evidenced, MatchingResident, InvExcept, Inv, Approach, Provide, SpentTokens,
      CountedChains;
    if chainId !in m.chains {
      var m1 := Remember(m, id).(chains := m.chains + {chainId});
      var near := MatchingResident(cfg, m.residents, bbox);
      if near.Some? && m.frame - near.value.createdFrame <= cfg.dedupeWindow {
        RestKeeps(cfg, m, id, bbox, chainId);
      } else if m1.tracks[id].counted {
        ChainNoted(cfg, m, chainId);
      } else {
        ApproachKeeps(cfg, m, id, bbox, chainId);
        var m2 := Approach(cfg, m1, id, bbox);
        ExceptIsPlaceable(cfg, m2, id);
        ProvideKeeps(cfg, m2, id, sourceTrackId);
        var (m3, provenance) := Provide(m2, id, sourceTrackId);
        ExceptIsPlaceable(cfg, m3, id);
        CommitKeeps(cfg, m3, id, ApprovedDeliveryChain, Some(chainId), sourceTrackId, Some(provenance), {});
      }
    }
  }

  lemma ExceptIsPlaceable(cfg: Config, m: Machine, id: int)
    requires InvExcept(cfg, m, id, {})
    ensures Placeable(m, id)
  {
  }

  lemma ChainNoted(cfg: Config, m: Machine, chainId: string)
    requires Inv(cfg, m, {})
    ensures Inv(cfg, m.(chains := m.chains + {chainId}), {})
  {
    hide LastSeen, UpdatesSinceDetected, Evidenced, AllJustified, SpentTokens, CountedChains, Events, WithAuthority,
      Ticks;
    var m' := m.(chains := m.chains + {chainId});
    assert forall j :: j in m'.tracks ==> TrackOk(cfg, m, j, 0) && TrackOk(cfg, m', j, 0);
  }
}
