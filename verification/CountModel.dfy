// The source-token counter of app/services/count_state_machine.py as a function
// from states to states.  Tokens live in a store and tracks hold indices into
// it, so two tracks that hold the same index share one token.  The imperative
// classes in CountStateMachine.dfy are proved to compute exactly these steps.
//
// The state carries a log of what happened.  The code has no such log; nothing
// in a step reads it.
module CountModel {
  import opened Prelude
  import opened Geometry

  datatype Lifecycle =
    | NewTrack
    | Observing
    | SourceConfirmed
    | MovingToOutput
    | InOutputUnsettled
    | CountedOutputResident
    | ResidentOutputObject
    | UncertainReview

  datatype Authority = SourceTokenAuthorized | RuntimeInferredOnly

  datatype Reason = StableInOutput | DisappearedInOutput | ApprovedDeliveryChain

  datatype Provenance = SyntheticApprovedChainToken | InheritedLiveSourceToken | SourceZoneToken

  datatype Config = Config(
    gate: Option<Gate>,
    sourceMinFrames: int,
    outputStableFrames: int,
    residentOverlap: real,
    stableEpsilon: real,
    disappearFrames: int,
    maxMissing: int,
    tokenTtl: int,
    residentDistance: real,
    dedupeWindow: int)

  // A tracked box with its zone verdicts (overlap fractions against thresholds).
  datatype Detection = Detection(trackId: int, bbox: Box, ignoreHit: bool, sourceHit: bool, outputHit: bool)

  datatype Event = Event(
    trackId: int,
    count: int,
    reason: Reason,
    bbox: Box,
    sourceTrackId: Option<int>,
    tokenId: Option<nat>,
    chainId: Option<string>,
    sourceBbox: Option<Box>,
    provenance: Option<Provenance>,
    authority: Authority)

  datatype Token = Token(trackId: int, createdFrame: int, lastFrame: int, sourceBbox: Box, consumed: bool)

  datatype Resident = Resident(trackId: int, bbox: Box, center: Point, createdFrame: int)

  datatype Track = Track(
    state: Lifecycle,
    sourceFrames: int,
    outputFrames: int,
    stableOutputFrames: int,
    missing: int,
    token: Option<nat>,
    enteredOutput: bool,
    lastValidInOutput: bool,
    crossedGate: bool,
    counted: bool,
    lastBbox: Option<Box>,
    lastCenter: Option<Point>,
    approved: bool)

  const FRESH_TRACK := Track(NewTrack, 0, 0, 0, 0, None, false, false, false, false, None, None, true)

  datatype Entry =
    | Tick                                        // one call of update begins
    | Detected(id: int, center: Point)            // update saw the track here
    | Placed(id: int, center: Point)              // a delivery chain put the track here
    | Inherited(child: int, parent: int)          // child took over parent's token
    | Forgotten(id: int)                          // the track memory was deleted
    | Emitted(event: Event, age: int)             // a count, and its token's age then

  // order holds the keys of tracks in insertion order, as a dictionary does.
  datatype Machine = Machine(
    total: int,
    authorized: int,
    inferred: int,
    frame: int,
    order: seq<int>,
    tracks: map<int, Track>,
    tokens: seq<Token>,
    residents: seq<Resident>,
    chains: set<string>,
    log: seq<Entry>)

  const INITIAL := Machine(0, 0, 0, 0, [], map[], [], [], {}, [])

  // ----- queries -----

  // The track is known and a box of it is recorded.
  predicate Placeable(m: Machine, id: int) {
    id in m.tracks && m.tracks[id].lastBbox.Some?
  }

  predicate Live(m: Machine, t: Track) {
    t.token.Some? && t.token.value < |m.tokens| && !m.tokens[t.token.value].consumed
  }

  function Age(m: Machine, t: Track): int {
    if t.token.Some? && t.token.value < |m.tokens| then m.frame - m.tokens[t.token.value].lastFrame else 0
  }

  predicate GateSatisfied(cfg: Config, t: Track) {
    cfg.gate.None? || t.crossedGate
  }

  predicate MatchesResident(cfg: Config, r: Resident, bbox: Box) {
    Within(Center(bbox), r.center, cfg.residentDistance) || Overlap(bbox, r.bbox) >= cfg.residentOverlap
  }

  // The nearest matching resident, the first of them on a tie.
  function MatchingResident(cfg: Config, residents: seq<Resident>, bbox: Box): Option<Resident> {
    if residents == [] then None
    else
      var last := residents[|residents| - 1];
      var best := MatchingResident(cfg, residents[..|residents| - 1], bbox);
      if MatchesResident(cfg, last, bbox)
         && (best.None? || DistanceSq(Center(bbox), last.center) < DistanceSq(Center(bbox), best.value.center))
      then Some(last)
      else best
  }

  predicate CanLend(cfg: Config, m: Machine, id: int, borrower: int) {
    id in m.tracks && id != borrower && Live(m, m.tracks[id]) && !m.tracks[id].counted
    && Age(m, m.tracks[id]) <= cfg.tokenTtl
  }

  // The lender missing for the fewest frames, the first of them on a tie.
  function Lender(cfg: Config, m: Machine, ids: seq<int>, borrower: int): (r: Option<int>)
    ensures r.Some? ==> CanLend(cfg, m, r.value, borrower)
  {
    if ids == [] then None
    else
      var last := ids[|ids| - 1];
      var best := Lender(cfg, m, ids[..|ids| - 1], borrower);
      if CanLend(cfg, m, last, borrower)
         && (best.None? || m.tracks[last].missing < m.tracks[best.value].missing)
      then Some(last)
      else best
  }

  // ----- elementary changes -----

  function Put(m: Machine, id: int, t: Track): Machine {
    m.(tracks := m.tracks[id := t])
  }

  function Note(m: Machine, e: Entry): Machine {
    m.(log := m.log + [e])
  }

  function Remember(m: Machine, id: int): Machine {
    if id in m.tracks then m else Put(m, id, FRESH_TRACK).(order := m.order + [id])
  }

  function Forget(m: Machine, id: int): Machine {
    Note(m.(tracks := m.tracks - {id}, order := Without(m.order, id)), Forgotten(id))
  }

  function SetToken(m: Machine, k: nat, token: Token): Machine
    requires k < |m.tokens|
  {
    m.(tokens := m.tokens[k := token])
  }

  function Mint(m: Machine, id: int, bbox: Box): Machine
    requires id in m.tracks
  {
    Put(m, id, m.tracks[id].(token := Some(|m.tokens|), state := SourceConfirmed))
      .(tokens := m.tokens + [Token(id, m.frame, m.frame, bbox, false)])
  }

  function Borrow(cfg: Config, m: Machine, id: int, lender: int): Machine
    requires id in m.tracks && lender in m.tracks && Live(m, m.tracks[lender])
  {
    var k := m.tracks[lender].token.value;
    var t := m.tracks[id];
    var lent := SetToken(m, k, m.tokens[k].(trackId := id, lastFrame := m.frame));
    Note(Put(lent, id, t.(
               token := Some(k),
               sourceFrames := Max(t.sourceFrames, cfg.sourceMinFrames),
               crossedGate := t.crossedGate || m.tracks[lender].crossedGate,
               state := SourceConfirmed)),
         Inherited(id, lender))
  }

  function CountEvent(m: Machine, id: int, reason: Reason, chainId: Option<string>,
                      sourceTrackId: Option<int>, provenance: Option<Provenance>): Event
    requires Placeable(m, id)
  {
    var t := m.tracks[id];
    var held := t.token.Some? && t.token.value < |m.tokens|;
    Event(id, 1, reason, t.lastBbox.value, sourceTrackId,
          if held then t.token else None,
          chainId,
          if held then Some(m.tokens[t.token.value].sourceBbox) else None,
          if provenance.Some? then provenance else if held then Some(SourceZoneToken) else None,
          if provenance == Some(SyntheticApprovedChainToken) then RuntimeInferredOnly else SourceTokenAuthorized)
  }

  function Spend(m: Machine, t: Track): Machine {
    if t.token.Some? && t.token.value < |m.tokens|
    then SetToken(m, t.token.value, m.tokens[t.token.value].(consumed := true))
    else m
  }

  function Tally(m: Machine, e: Event, age: int): Machine {
    Note(m.(
           total := m.total + 1,
           authorized := if e.authority.RuntimeInferredOnly? then m.authorized else m.authorized + 1,
           inferred := if e.authority.RuntimeInferredOnly? then m.inferred + 1 else m.inferred,
           residents := m.residents + [Resident(e.trackId, e.bbox, Center(e.bbox), m.frame)]),
         Emitted(e, age))
  }

  function Commit(m: Machine, id: int, reason: Reason, chainId: Option<string>,
                  sourceTrackId: Option<int>, provenance: Option<Provenance>): Machine
    requires Placeable(m, id)
  {
    var t := m.tracks[id];
    Tally(Put(Spend(m, t), id, t.(counted := true, state := CountedOutputResident)),
          CountEvent(m, id, reason, chainId, sourceTrackId, provenance),
          Age(m, t))
  }

  // ----- one detection -----

  function Refresh(m: Machine, t: Track): Machine {
    if Live(m, t) then SetToken(m, t.token.value, m.tokens[t.token.value].(lastFrame := m.frame)) else m
  }

  function Observe(m: Machine, d: Detection, approved: bool): (r: Machine)
    ensures Placeable(r, d.trackId) && r.tracks.Keys == m.tracks.Keys + {d.trackId}
  {
    var m0 := Remember(m, d.trackId);
    var t := m0.tracks[d.trackId];
    Note(Refresh(Put(m0, d.trackId, t.(
                       approved := approved,
                       missing := 0,
                       lastBbox := Some(d.bbox),
                       lastCenter := Some(Center(d.bbox)))), t),
         Detected(d.trackId, Center(d.bbox)))
  }

  // What a track does the first time it is judged; None when it stops there as
  // an object that was in the output all along.
  function Classify(cfg: Config, m: Machine, d: Detection): (r: Option<Machine>)
    requires Placeable(m, d.trackId)
    ensures r.Some? ==> Placeable(r.value, d.trackId) && r.value.tracks.Keys == m.tracks.Keys
  {
    var t := m.tracks[d.trackId];
    if t.state != NewTrack then Some(m)
    else if d.outputHit && MatchingResident(cfg, m.residents, d.bbox).Some? then None
    else if d.outputHit && !d.sourceHit then
      var lender := Lender(cfg, m, m.order, d.trackId);
      if lender.None? then None
      else
        var m1 := Borrow(cfg, m, d.trackId, lender.value);
        Some(Put(m1, d.trackId, m1.tracks[d.trackId].(state := Observing)))
    else Some(Put(m, d.trackId, t.(state := Observing)))
  }

  function SourceStep(cfg: Config, m: Machine, d: Detection): (r: Machine)
    requires Placeable(m, d.trackId)
    ensures Placeable(r, d.trackId) && r.tracks.Keys == m.tracks.Keys
  {
    var t := m.tracks[d.trackId];
    if d.sourceHit && !t.counted && t.state != ResidentOutputObject then
      var m1 := Put(m, d.trackId, t.(sourceFrames := t.sourceFrames + 1));
      if t.sourceFrames + 1 >= cfg.sourceMinFrames && !Live(m, t) then Mint(m1, d.trackId, d.bbox) else m1
    else m
  }

  predicate GateCrossed(cfg: Config, previous: Option<Point>, current: Point) {
    cfg.gate.Some? && previous.Some? && CrossedAllowed(previous.value, current, cfg.gate.value)
  }

  function GateStep(cfg: Config, m: Machine, d: Detection, previous: Option<Point>): (r: Machine)
    requires Placeable(m, d.trackId)
    ensures Placeable(r, d.trackId) && r.tracks.Keys == m.tracks.Keys
  {
    var t := m.tracks[d.trackId];
    if GateCrossed(cfg, previous, Center(d.bbox)) then
      Put(m, d.trackId, t.(crossedGate := true,
                           state := if Live(m, t) && t.state == SourceConfirmed then MovingToOutput else t.state))
    else m
  }

  predicate Stable(cfg: Config, previous: Option<Point>, current: Point) {
    previous.Some? && Within(previous.value, current, cfg.stableEpsilon)
  }

  function SettledState(state: Lifecycle): Lifecycle {
    if state in {SourceConfirmed, MovingToOutput, Observing, UncertainReview} then InOutputUnsettled else state
  }

  // A track with a live token and a satisfied gate is seen in the output.
  function Settle(cfg: Config, m: Machine, d: Detection, previous: Option<Point>): (r: Machine)
    requires Placeable(m, d.trackId)
    ensures r.tracks.Keys == m.tracks.Keys
  {
    var t := m.tracks[d.trackId];
    var t' := t.(
      outputFrames := t.outputFrames + 1,
      enteredOutput := true,
      state := SettledState(t.state),
      stableOutputFrames := if Stable(cfg, previous, Center(d.bbox)) then t.stableOutputFrames + 1 else 1);
    var m' := Put(m, d.trackId, t');
    if t'.approved && !t'.counted && t'.stableOutputFrames >= cfg.outputStableFrames
    then Commit(m', d.trackId, StableInOutput, None, None, None)
    else m'
  }

  function OutputStep(cfg: Config, m: Machine, d: Detection, previous: Option<Point>): (r: Machine)
    requires Placeable(m, d.trackId)
    ensures r.tracks.Keys == m.tracks.Keys
  {
    var id := d.trackId;
    var t := m.tracks[id];
    if d.outputHit && Live(m, t) && GateSatisfied(cfg, t) then Settle(cfg, m, d, previous)
    else
      Put(m, id,
          if !d.outputHit then t.(outputFrames := 0, stableOutputFrames := 0)
          else if Live(m, t) then t.(outputFrames := t.outputFrames + 1, state := UncertainReview)
          else if !t.counted then t.(outputFrames := t.outputFrames + 1, state := ResidentOutputObject)
          else t.(outputFrames := t.outputFrames + 1))
  }

  function Advance(cfg: Config, m: Machine, d: Detection, previous: Option<Point>): (r: Machine)
    requires Placeable(m, d.trackId)
    ensures r.tracks.Keys == m.tracks.Keys
  {
    OutputStep(cfg, GateStep(cfg, SourceStep(cfg, m, d), d, previous), d, previous)
  }

  function Judge(cfg: Config, m: Machine, d: Detection, previous: Option<Point>): (r: Machine)
    requires Placeable(m, d.trackId)
    ensures r.tracks.Keys == m.tracks.Keys
  {
    var t := m.tracks[d.trackId].(lastValidInOutput := !d.ignoreHit && d.outputHit);
    var m1 := Put(m, d.trackId, t);
    if d.ignoreHit then m1
    else
      var judged := Classify(cfg, m1, d);
      if judged.None? then Put(m1, d.trackId, t.(state := ResidentOutputObject))
      else Advance(cfg, judged.value, d, previous)
  }

  function PreviousCenter(m: Machine, id: int): Option<Point> {
    if id in m.tracks then m.tracks[id].lastCenter else None
  }

  function Detect(cfg: Config, m: Machine, d: Detection, approved: bool): (r: Machine)
    ensures r.tracks.Keys == m.tracks.Keys + {d.trackId}
  {
    Judge(cfg, Observe(m, d, approved), d, PreviousCenter(m, d.trackId))
  }

  // ----- one track that was not detected -----

  predicate ReadyToDisappear(cfg: Config, m: Machine, t: Track) {
    Live(m, t) && t.enteredOutput && t.lastValidInOutput && GateSatisfied(cfg, t) && t.approved
    && !t.counted && t.lastBbox.Some?
  }

  function MarkMissing(cfg: Config, m: Machine, id: int): Machine
    requires id in m.tracks
  {
    var t := m.tracks[id].(missing := m.tracks[id].missing + 1);
    var m1 := Put(m, id, t);
    if ReadyToDisappear(cfg, m, t) && t.missing >= cfg.disappearFrames
    then Commit(m1, id, DisappearedInOutput, None, None, None)
    else m1
  }

  function Miss(cfg: Config, m: Machine, id: int): Machine
    requires id in m.tracks
  {
    var m1 := MarkMissing(cfg, m, id);
    if m1.tracks[id].missing > cfg.maxMissing then Forget(m1, id) else m1
  }

  function Expire(cfg: Config, m: Machine, id: int): Machine
    requires id in m.tracks
  {
    var t := m.tracks[id];
    if !Live(m, t) || t.enteredOutput || t.counted || Age(m, t) <= cfg.tokenTtl then m
    else Put(SetToken(m, t.token.value, m.tokens[t.token.value].(consumed := true)),
             id, t.(state := UncertainReview))
  }

  // ----- the two public operations -----

  function Ids(ds: seq<Detection>): set<int> {
    set d | d in ds :: d.trackId
  }

  function DetectAll(cfg: Config, m: Machine, ds: seq<Detection>, approved: Option<set<int>>): Machine {
    if ds == [] then m
    else
      var d := ds[|ds| - 1];
      Detect(cfg, DetectAll(cfg, m, ds[..|ds| - 1], approved), d, approved.None? || d.trackId in approved.value)
  }

  function MissAll(cfg: Config, m: Machine, ids: seq<int>, present: set<int>): Machine {
    if ids == [] then m
    else
      var m1 := MissAll(cfg, m, ids[..|ids| - 1], present);
      var id := ids[|ids| - 1];
      if id in present || id !in m1.tracks then m1 else Miss(cfg, m1, id)
  }

  function ExpireAll(cfg: Config, m: Machine, ids: seq<int>): Machine {
    if ids == [] then m
    else
      var m1 := ExpireAll(cfg, m, ids[..|ids| - 1]);
      var id := ids[|ids| - 1];
      if id in m1.tracks then Expire(cfg, m1, id) else m1
  }

  function BeginFrame(m: Machine): Machine {
    Note(m.(frame := m.frame + 1), Tick)
  }

  function Update(cfg: Config, m: Machine, ds: seq<Detection>, approved: Option<set<int>>): Machine {
    var m1 := DetectAll(cfg, BeginFrame(m), ds, approved);
    var m2 := MissAll(cfg, m1, m1.order, Ids(ds));
    ExpireAll(cfg, m2, m2.order)
  }

  function Approach(cfg: Config, m: Machine, id: int, bbox: Box): Machine
    requires id in m.tracks
  {
    var t := m.tracks[id];
    Note(Put(m, id, t.(
               lastBbox := Some(bbox),
               lastCenter := Some(Center(bbox)),
               enteredOutput := true,
               lastValidInOutput := true,
               approved := true,
               crossedGate := true,
               sourceFrames := Max(t.sourceFrames, cfg.sourceMinFrames),
               outputFrames := Max(t.outputFrames, 1),
               state := InOutputUnsettled)),
         Placed(id, Center(bbox)))
  }

  // Which token a delivery chain spends: the source track's live token, else
  // the output track's own, else none.
  function Provide(m: Machine, id: int, sourceTrackId: Option<int>): (Machine, Provenance)
    requires id in m.tracks
  {
    var t := m.tracks[id];
    if sourceTrackId.Some? && sourceTrackId.value in m.tracks && Live(m, m.tracks[sourceTrackId.value]) then
      var k := m.tracks[sourceTrackId.value].token.value;
      (Put(SetToken(m, k, m.tokens[k].(trackId := id, lastFrame := m.frame)), id, t.(token := Some(k))),
       InheritedLiveSourceToken)
    else if Live(m, t) then (Refresh(m, t), SourceZoneToken)
    else (m, SyntheticApprovedChainToken)
  }

  // What a chain does to its output track once both are noted.
  function PlaceChain(cfg: Config, m: Machine, chainId: string, id: int, bbox: Box,
                      sourceTrackId: Option<int>): Machine
    requires id in m.tracks
  {
    var t := m.tracks[id];
    var near := MatchingResident(cfg, m.residents, bbox);
    if near.Some? && m.frame - near.value.createdFrame <= cfg.dedupeWindow then
      Note(Put(m, id, t.(lastBbox := Some(bbox), lastCenter := Some(Center(bbox)), state := ResidentOutputObject)),
           Placed(id, Center(bbox)))
    else if t.counted then m
    else
      var (m1, provenance) := Provide(Approach(cfg, m, id, bbox), id, sourceTrackId);
      Commit(m1, id, ApprovedDeliveryChain, Some(chainId), sourceTrackId, Some(provenance))
  }

  function CommitChain(cfg: Config, m: Machine, chainId: string, id: int, bbox: Box,
                       sourceTrackId: Option<int>): Machine
  {
    if chainId in m.chains then m
    else PlaceChain(cfg, Remember(m, id).(chains := m.chains + {chainId}), chainId, id, bbox, sourceTrackId)
  }

  // ----- runs -----

  datatype Operation =
    | UpdateOp(detections: seq<Detection>, approved: Option<set<int>>)
    | ChainOp(chainId: string, outputTrackId: int, bbox: Box, sourceTrackId: Option<int>)

  function Step(cfg: Config, m: Machine, op: Operation): Machine {
    match op
    case UpdateOp(ds, approved) => Update(cfg, m, ds, approved)
    case ChainOp(chainId, id, bbox, source) => CommitChain(cfg, m, chainId, id, bbox, source)
  }

  function Run(cfg: Config, ops: seq<Operation>): Machine {
    if ops == [] then INITIAL else Step(cfg, Run(cfg, ops[..|ops| - 1]), ops[|ops| - 1])
  }

  // The events among log entries, in order: what the operations returned.
  function Events(log: seq<Entry>): seq<Event> {
    if log == [] then []
    else
      var before := Events(log[..|log| - 1]);
      var e := log[|log| - 1];
      if e.Emitted? then before + [e.event] else before
  }
}
