// The counter of app/services/count_state_machine.py as the source has it:
// track memories and source tokens are objects, tracks share a token by holding
// the same object, and every step changes them in place.  Each method is proved
// to take the machine M, the value these objects stand for, through the step of
// CountModel of the same name.
module CountStateMachine {
  import opened Prelude
  import opened Geometry
  import opened CountModel
  import opened CountHistory
  import opened CountInvariant
  import opened CountTheorems

  function Listed(event: Option<Event>): seq<Event> {
    match event
    case Some(e) => [e]
    case None => []
  }

  lemma EventsOfCommit(m: Machine, id: int, reason: Reason, chainId: Option<string>,
                       sourceTrackId: Option<int>, provenance: Option<Provenance>)
    requires Placeable(m, id)
    ensures Events(CountModel.Commit(m, id, reason, chainId, sourceTrackId, provenance).log)
            == Events(m.log) + [CountEvent(m, id, reason, chainId, sourceTrackId, provenance)]
  {
    hide CountEvent, Age;
    OneMore(m.log, Emitted(CountEvent(m, id, reason, chainId, sourceTrackId, provenance), Age(m, m.tracks[id])));
  }

  class SourceToken {
    const id: nat
    const createdFrame: int
    const sourceBbox: Box
    var trackId: int
    var lastFrame: int
    var consumed: bool

    constructor (id: nat, trackId: int, frame: int, bbox: Box)
      ensures this.id == id && Value() == Token(trackId, frame, frame, bbox, false)
    {
      this.id, this.trackId, this.sourceBbox := id, trackId, bbox;
      this.createdFrame, this.lastFrame, this.consumed := frame, frame, false;
    }

    ghost function Value(): Token
      reads this
    {
      Token(trackId, createdFrame, lastFrame, sourceBbox, consumed)
    }
  }

  class TrackMemory {
    const trackId: int
    var state: Lifecycle
    var sourceFrames: int
    var outputFrames: int
    var stableOutputFrames: int
    var missing: int
    var sourceToken: SourceToken?
    var enteredOutput: bool
    var lastValidInOutput: bool
    var crossedGate: bool
    var counted: bool
    var lastBbox: Option<Box>
    var lastCenter: Option<Point>
    var approved: bool

    constructor (trackId: int)
      ensures this.trackId == trackId && sourceToken == null && Value() == FRESH_TRACK
    {
      this.trackId := trackId;
      state, sourceFrames, outputFrames, stableOutputFrames, missing := NewTrack, 0, 0, 0, 0;
      sourceToken, enteredOutput, lastValidInOutput := null, false, false;
      crossedGate, counted, lastBbox, lastCenter, approved := false, false, None, None, true;
    }

    ghost function Value(): Track
      reads this
    {
      Track(state, sourceFrames, outputFrames, stableOutputFrames, missing,
            if sourceToken == null then None else Some(sourceToken.id),
            enteredOutput, lastValidInOutput, crossedGate, counted, lastBbox, lastCenter, approved)
    }

    method SetState(state: Lifecycle)
      modifies this`state
      ensures Value() == old(Value()).(state := state)
    {
      this.state := state;
    }

    method MarkCounted()
      modifies this`counted, this`state
      ensures Value() == old(Value()).(counted := true, state := CountedOutputResident)
    {
      counted := true;
      state := CountedOutputResident;
    }

    method Sight(d: Detection, approved: bool)
      modifies this`approved, this`missing, this`lastBbox, this`lastCenter
      ensures Value() == old(Value()).(approved := approved, missing := 0,
                                       lastBbox := Some(d.bbox), lastCenter := Some(Center(d.bbox)))
    {
      this.approved := approved;
      missing := 0;
      lastBbox := Some(d.bbox);
      lastCenter := Some(Center(d.bbox));
    }

    method TakeNewToken(token: SourceToken)
      modifies this`sourceToken, this`state
      ensures sourceToken == token
      ensures Value() == old(Value()).(token := Some(token.id), state := SourceConfirmed)
    {
      sourceToken := token;
      state := SourceConfirmed;
    }

    method Inherit(token: SourceToken, sourceMinFrames: int, lenderCrossed: bool)
      modifies this`sourceToken, this`sourceFrames, this`crossedGate, this`state
      ensures sourceToken == token
      ensures Value() == old(Value()).(token := Some(token.id), sourceFrames := Max(old(sourceFrames), sourceMinFrames),
                                       crossedGate := old(crossedGate) || lenderCrossed, state := SourceConfirmed)
    {
      sourceToken := token;
      sourceFrames := Max(sourceFrames, sourceMinFrames);
      if lenderCrossed {
        crossedGate := true;
      }
      state := SourceConfirmed;
    }

    method CountSourceFrame()
      modifies this`sourceFrames
      ensures Value() == old(Value()).(sourceFrames := old(sourceFrames) + 1)
    {
      sourceFrames := sourceFrames + 1;
    }

    method CrossGate()
      modifies this`crossedGate, this`state
      ensures Value() == old(Value()).(crossedGate := true,
                                       state := if old(HasSourceToken()) && old(state) == SourceConfirmed
                                       then MovingToOutput else old(state))
    {
      crossedGate := true;
      if HasSourceToken() && state == SourceConfirmed {
        state := MovingToOutput;
      }
    }

    method SetLastValidInOutput(inOutput: bool)
      modifies this`lastValidInOutput
      ensures Value() == old(Value()).(lastValidInOutput := inOutput)
    {
      lastValidInOutput := inOutput;
    }

    method LeaveOutput()
      modifies this`outputFrames, this`stableOutputFrames
      ensures Value() == old(Value()).(outputFrames := 0, stableOutputFrames := 0)
    {
      outputFrames := 0;
      stableOutputFrames := 0;
    }

    method CountOutputFrame(state: Lifecycle)
      modifies this`outputFrames, this`state
      ensures Value() == old(Value()).(outputFrames := old(outputFrames) + 1, state := state)
    {
      outputFrames := outputFrames + 1;
      this.state := state;
    }

    method EnterOutput(stable: bool)
      modifies this`outputFrames, this`enteredOutput, this`state, this`stableOutputFrames
      ensures Value() == old(Value()).(
                outputFrames := old(outputFrames) + 1, enteredOutput := true, state := SettledState(old(state)),
                stableOutputFrames := if stable then old(stableOutputFrames) + 1 else 1)
    {
      outputFrames := outputFrames + 1;
      enteredOutput := true;
      if state in {SourceConfirmed, MovingToOutput, Observing, UncertainReview} {
        state := InOutputUnsettled;
      }
      if stable {
        stableOutputFrames := stableOutputFrames + 1;
      } else {
        stableOutputFrames := 1;
      }
    }

    method CountMissing()
      modifies this`missing
      ensures Value() == old(Value()).(missing := old(missing) + 1)
    {
      missing := missing + 1;
    }

    method Deliver(bbox: Box, sourceMinFrames: int)
      modifies this
      ensures sourceToken == old(sourceToken)
      ensures Value() == old(Value()).(
                lastBbox := Some(bbox), lastCenter := Some(Center(bbox)), enteredOutput := true,
                lastValidInOutput := true, approved := true, crossedGate := true,
                sourceFrames := Max(old(sourceFrames), sourceMinFrames),
                outputFrames := Max(old(outputFrames), 1), state := InOutputUnsettled)
    {
      lastBbox := Some(bbox);
      lastCenter := Some(Center(bbox));
      enteredOutput := true;
      lastValidInOutput := true;
      approved := true;
      crossedGate := true;
      sourceFrames := Max(sourceFrames, sourceMinFrames);
      outputFrames := Max(outputFrames, 1);
      if state == NewTrack {
        state := Observing;
      }
      state := InOutputUnsettled;
    }

    method SettleBeside(bbox: Box)
      modifies this`lastBbox, this`lastCenter, this`state
      ensures Value() == old(Value()).(lastBbox := Some(bbox), lastCenter := Some(Center(bbox)),
                                       state := ResidentOutputObject)
    {
      lastBbox := Some(bbox);
      lastCenter := Some(Center(bbox));
      state := ResidentOutputObject;
    }

    method HoldToken(token: SourceToken)
      modifies this`sourceToken
      ensures sourceToken == token && Value() == old(Value()).(token := Some(token.id))
    {
      sourceToken := token;
    }

    predicate HasSourceToken()
      reads this, sourceToken
    {
      sourceToken != null && !sourceToken.consumed
    }
  }

  class CountStateMachine {
    const config: Config
    var totalCount: int
    var authorizedCount: int
    var inferredCount: int
    var frameIndex: int
    var trackOrder: seq<int>
    var tracks: map<int, TrackMemory>
    var residents: seq<Resident>
    var committedChains: set<string>
    var tokenSequence: nat

    ghost var M: Machine
    ghost var minted: seq<SourceToken>
    ghost var Repr: set<object>

    ghost predicate Owned()
      reads this, Repr
    {
      && this in Repr
      && (forall id :: id in tracks ==> tracks[id] in Repr)
      && (forall k :: 0 <= k < |minted| ==> minted[k] in Repr)
    }

    // The objects stand for the machine M.
    ghost predicate Valid()
      reads this, Repr
    {
      && Owned()
      && totalCount == M.total && authorizedCount == M.authorized && inferredCount == M.inferred
      && frameIndex == M.frame && trackOrder == M.order
      && residents == M.residents && committedChains == M.chains
      && tokenSequence == |minted| == |M.tokens|
      && (forall k :: 0 <= k < |minted| ==> minted[k].id == k && minted[k].Value() == M.tokens[k])
      && tracks.Keys == M.tracks.Keys
      && (forall id :: id in trackOrder ==> id in tracks)
      && (forall id :: id in tracks ==> tracks[id].trackId == id && tracks[id].Value() == M.tracks[id])
      && (forall id :: id in tracks && tracks[id].sourceToken != null ==> Minted(tracks[id].sourceToken))
    }

    ghost predicate Minted(token: SourceToken)
      reads this
    {
      token.id < |minted| && minted[token.id] == token
    }

    ghost predicate Known(track: TrackMemory)
      reads this
    {
      track.trackId in tracks && tracks[track.trackId] == track
    }

    constructor (config: Config)
      ensures Valid() && fresh(Repr) && this.config == config
      ensures M == INITIAL && Good(config, M)
    {
      this.config := config;
      totalCount, authorizedCount, inferredCount, frameIndex, tokenSequence := 0, 0, 0, 0, 0;
      trackOrder, tracks, residents, committedChains := [], map[], [], {};
      M, minted, Repr := INITIAL, [], {this};
    }

    lemma Agrees()
      requires Valid()
      ensures this in Repr && tracks.Keys == M.tracks.Keys && trackOrder == M.order
      ensures forall id :: id in trackOrder ==> id in tracks
      ensures residents == M.residents && committedChains == M.chains && frameIndex == M.frame
    {
    }

    // ----- queries -----

    method MatchingResident(bbox: Box) returns (best: Option<Resident>)
      ensures best == CountModel.MatchingResident(config, residents, bbox)
    {
      best := None;
      for i := 0 to |residents|
        invariant best == CountModel.MatchingResident(config, residents[..i], bbox)
      {
        var resident := residents[i];
        assert residents[..i + 1][..i] == residents[..i];
        if MatchesResident(config, resident, bbox) {
          if best.None? || DistanceSq(Center(bbox), resident.center) < DistanceSq(Center(bbox), best.value.center) {
            best := Some(resident);
          }
        }
      }
      assert residents[..|residents|] == residents;
    }

    lemma LiveIsHasSourceToken(track: TrackMemory)
      requires Valid() && Known(track)
      ensures track.HasSourceToken() == Live(M, M.tracks[track.trackId])
      ensures track.sourceToken != null ==>
        track.sourceToken in Repr && track.sourceToken.id < |M.tokens|
        && track.sourceToken.Value() == M.tokens[track.sourceToken.id]
    {
    }

    lemma TrackAgrees(track: TrackMemory)
      requires Valid() && Known(track)
      ensures this in Repr && track in Repr && residents == M.residents && track.trackId in M.tracks
      ensures track.Value() == M.tracks[track.trackId]
      ensures track.sourceToken != null ==>
        track.sourceToken in Repr && Minted(track.sourceToken)
        && M.tracks[track.trackId].token == Some(track.sourceToken.id)
      ensures track.HasSourceToken() == Live(M, M.tracks[track.trackId])
      ensures var t := M.tracks[track.trackId];
        && track.state == t.state && track.counted == t.counted && track.approved == t.approved
        && track.enteredOutput == t.enteredOutput && track.lastValidInOutput == t.lastValidInOutput
        && track.crossedGate == t.crossedGate && track.lastBbox == t.lastBbox
        && track.sourceFrames == t.sourceFrames && track.stableOutputFrames == t.stableOutputFrames
        && track.missing == t.missing && track.outputFrames == t.outputFrames
    {
      LiveIsHasSourceToken(track);
      assert track.Value() == M.tracks[track.trackId];
      hide Valid;
    }

    lemma IsKnown(id: int)
      requires Valid() && id in M.tracks
      ensures id in tracks && Known(tracks[id]) && tracks[id].trackId == id
    {
    }

    // The track a new track takes its token from: the candidate missing for the
    // fewest frames.
    method Lender(borrower: int) returns (best: Option<int>)
      requires Valid()
      ensures best == CountModel.Lender(config, M, M.order, borrower)
    {
      best := None;
      for i := 0 to |trackOrder|
        invariant best == CountModel.Lender(config, M, trackOrder[..i], borrower)
      {
        var id := trackOrder[i];
        assert trackOrder[..i + 1][..i] == trackOrder[..i];
        var candidate := tracks[id];
        LiveIsHasSourceToken(candidate);
        if id != borrower && candidate.HasSourceToken() && !candidate.counted
           && frameIndex - candidate.sourceToken.lastFrame <= config.tokenTtl {
          if best.None? || candidate.missing < tracks[best.value].missing {
            best := Some(id);
          }
        }
      }
      assert trackOrder[..|trackOrder|] == trackOrder;
    }

    // ----- one token -----

    method Consume(token: SourceToken)
      requires Valid() && Minted(token)
      modifies token`consumed, this`M
      ensures Valid()
      ensures M == SetToken(old(M), token.id, old(M).tokens[token.id].(consumed := true))
    {
      hide TrackMemory.Value;
      token.consumed := true;
      M := SetToken(M, token.id, M.tokens[token.id].(consumed := true));
    }

    method Renew(token: SourceToken)
      requires Valid() && Minted(token)
      modifies token`lastFrame, this`M
      ensures Valid()
      ensures M == SetToken(old(M), token.id, old(M).tokens[token.id].(lastFrame := old(M).frame))
    {
      hide TrackMemory.Value;
      token.lastFrame := frameIndex;
      M := SetToken(M, token.id, M.tokens[token.id].(lastFrame := M.frame));
    }

    method HandTo(token: SourceToken, trackId: int)
      requires Valid() && Minted(token)
      modifies token`trackId, token`lastFrame, this`M
      ensures Valid()
      ensures M == SetToken(old(M), token.id,
                            old(M).tokens[token.id].(trackId := trackId, lastFrame := old(M).frame))
    {
      hide TrackMemory.Value;
      token.trackId := trackId;
      token.lastFrame := frameIndex;
      M := SetToken(M, token.id, M.tokens[token.id].(trackId := trackId, lastFrame := M.frame));
    }

    // ----- one track -----

    // What is left of Valid while the fields of one track are being changed.
    ghost predicate ValidBut(track: TrackMemory)
      reads this, Repr
    {
      && Owned()
      && totalCount == M.total && authorizedCount == M.authorized && inferredCount == M.inferred
      && frameIndex == M.frame && trackOrder == M.order
      && residents == M.residents && committedChains == M.chains
      && tokenSequence == |minted| == |M.tokens|
      && (forall k :: 0 <= k < |minted| ==> minted[k].id == k && minted[k].Value() == M.tokens[k])
      && tracks.Keys == M.tracks.Keys
      && (forall id :: id in trackOrder ==> id in tracks)
      && (forall id :: id in tracks ==> tracks[id].trackId == id)
      && (forall id :: id in tracks && tracks[id] != track ==> tracks[id].Value() == M.tracks[id])
      && (forall id :: id in tracks && tracks[id].sourceToken != null ==> Minted(tracks[id].sourceToken))
    }

    ghost method Store(track: TrackMemory)
      requires ValidBut(track) && Known(track)
      modifies this`M
      ensures Valid()
      ensures M == Put(old(M), track.trackId, track.Value())
    {
      hide TrackMemory.Value, SourceToken.Value;
      M := Put(M, track.trackId, track.Value());
    }

    // ----- counting -----

    method MarkCounted(track: TrackMemory)
      requires Valid() && Known(track)
      modifies track`counted, track`state, this`M
      ensures Valid()
      ensures M == Put(old(M), track.trackId,
                       old(M).tracks[track.trackId].(counted := true, state := CountedOutputResident))
    {
      hide TrackMemory.Value, SourceToken.Value;
      track.MarkCounted();
      Store(track);
    }

    method Tally(event: Event, ghost age: int)
      requires Valid()
      modifies this`totalCount, this`authorizedCount, this`inferredCount, this`residents, this`M
      ensures Valid()
      ensures M == CountModel.Tally(old(M), event, age)
    {
      hide TrackMemory.Value, SourceToken.Value;
      totalCount := totalCount + 1;
      if event.authority.RuntimeInferredOnly? {
        inferredCount := inferredCount + 1;
      } else {
        authorizedCount := authorizedCount + 1;
      }
      residents := residents + [Resident(event.trackId, event.bbox, Center(event.bbox), frameIndex)];
      M := CountModel.Tally(M, event, age);
    }

    method Spend(track: TrackMemory)
      requires Valid() && Known(track)
      modifies if track.sourceToken == null then {} else {track.sourceToken}, this`M
      ensures Valid()
      ensures M == CountModel.Spend(old(M), old(M).tracks[track.trackId])
    {
      LiveIsHasSourceToken(track);
      if track.sourceToken != null {
        Consume(track.sourceToken);
      }
    }

    method Commit(track: TrackMemory, reason: Reason, chainId: Option<string>,
                  sourceTrackId: Option<int>, provenance: Option<Provenance>)
      returns (event: Event)
      requires Valid() && Known(track) && track.lastBbox.Some?
      modifies track`counted, track`state, if track.sourceToken == null then {} else {track.sourceToken}
      modifies this`totalCount, this`authorizedCount, this`inferredCount, this`residents, this`M
      ensures Valid()
      ensures M == CountModel.Commit(old(M), track.trackId, reason, chainId, sourceTrackId, provenance)
      ensures event == CountEvent(old(M), track.trackId, reason, chainId, sourceTrackId, provenance)
    {
      hide Valid, CountEvent, Age;
      TrackAgrees(track);
      event := Describe(track, reason, chainId, sourceTrackId, provenance);
      ghost var before := M;
      Spend(track);
      MarkCounted(track);
      Tally(event, Age(before, before.tracks[track.trackId]));
    }

    method Describe(track: TrackMemory, reason: Reason, chainId: Option<string>,
                    sourceTrackId: Option<int>, provenance: Option<Provenance>)
      returns (event: Event)
      requires Valid() && Known(track) && track.lastBbox.Some?
      ensures event == CountEvent(M, track.trackId, reason, chainId, sourceTrackId, provenance)
    {
      LiveIsHasSourceToken(track);
      var authority := if provenance == Some(SyntheticApprovedChainToken)
                       then RuntimeInferredOnly else SourceTokenAuthorized;
      var tokenId: Option<nat> := None;
      var sourceBbox: Option<Box> := None;
      if track.sourceToken != null {
        tokenId := Some(track.sourceToken.id);
        sourceBbox := Some(track.sourceToken.sourceBbox);
      }
      event := Event(
        track.trackId, 1, reason, track.lastBbox.value, sourceTrackId, tokenId, chainId, sourceBbox,
        if provenance.Some? then provenance else if tokenId.Some? then Some(SourceZoneToken) else None,
        authority);
    }

    // ----- one detection -----

    method NewMemory(id: int) returns (track: TrackMemory)
      requires Valid() && id !in tracks
      modifies this`tracks, this`trackOrder, this`Repr, this`M
      ensures Valid() && fresh(Repr - old(Repr)) && old(Repr) <= Repr
      ensures M == CountModel.Remember(old(M), id)
      ensures Known(track) && track.trackId == id && track.lastCenter.None?
    {
      hide Valid;
      Agrees();
      track := new TrackMemory(id);
      assert track.lastCenter.None?;
      AddMemory(track);
    }

    method AddMemory(track: TrackMemory)
      requires Valid() && track.trackId !in tracks && track.sourceToken == null && track.Value() == FRESH_TRACK
      modifies this`tracks, this`trackOrder, this`Repr, this`M
      ensures Valid() && Repr == old(Repr) + {track}
      ensures M == CountModel.Remember(old(M), track.trackId)
      ensures tracks == old(tracks)[track.trackId := track]
    {
      hide TrackMemory.Value, SourceToken.Value;
      var id := track.trackId;
      tracks := tracks[id := track];
      trackOrder := trackOrder + [id];
      Repr := Repr + {track};
      M := CountModel.Remember(M, id);
    }

    method Remember(id: int) returns (track: TrackMemory)
      requires Valid()
      modifies this`tracks, this`trackOrder, this`Repr, this`M
      ensures Valid() && fresh(Repr - old(Repr)) && old(Repr) <= Repr
      ensures M == CountModel.Remember(old(M), id)
      ensures Known(track) && track.trackId == id && track.lastCenter == PreviousCenter(old(M), id)
    {
      if id in tracks {
        track := tracks[id];
      } else {
        track := NewMemory(id);
      }
    }

    method Observe(d: Detection, approved: bool) returns (track: TrackMemory, previous: Option<Point>)
      requires Valid()
      modifies Repr
      ensures Valid() && fresh(Repr - old(Repr)) && old(Repr) <= Repr
      ensures M == CountModel.Observe(old(M), d, approved)
      ensures Known(track) && track.trackId == d.trackId
      ensures previous == PreviousCenter(old(M), d.trackId)
    {
      hide Valid, TrackMemory.Value, CountModel.Remember;
      Agrees();
      track := Remember(d.trackId);
      TrackAgrees(track);
      Agrees();
      previous := track.lastCenter;
      RecordSighting(track, d, approved);
    }

    method RecordSighting(track: TrackMemory, d: Detection, approved: bool)
      requires Valid() && Known(track) && track.trackId == d.trackId
      modifies track`approved, track`missing, track`lastBbox, track`lastCenter
      modifies if track.sourceToken == null then {} else {track.sourceToken}, this`M
      ensures Valid()
      ensures var t := old(M).tracks[d.trackId];
        M == Note(Refresh(Put(old(M), d.trackId, t.(approved := approved, missing := 0,
                                                    lastBbox := Some(d.bbox), lastCenter := Some(Center(d.bbox)))),
                          t),
                  Detected(d.trackId, Center(d.bbox)))
    {
      hide Valid;
      StoreSighting(track, d, approved);
      RenewHeldToken(track);
      Record(Detected(d.trackId, Center(d.bbox)));
    }

    method RenewHeldToken(track: TrackMemory)
      requires Valid() && Known(track)
      modifies if track.sourceToken == null then {} else {track.sourceToken}, this`M
      ensures Valid()
      ensures M == Refresh(old(M), old(M).tracks[track.trackId])
    {
      LiveIsHasSourceToken(track);
      if track.HasSourceToken() {
        Renew(track.sourceToken);
      }
    }

    ghost method Record(e: Entry)
      requires Valid()
      modifies this`M
      ensures Valid() && M == Note(old(M), e)
    {
      hide TrackMemory.Value, SourceToken.Value;
      M := Note(M, e);
    }

    method StoreSighting(track: TrackMemory, d: Detection, approved: bool)
      requires Valid() && Known(track)
      modifies track`approved, track`missing, track`lastBbox, track`lastCenter, this`M
      ensures Valid()
      ensures M == Put(old(M), track.trackId, old(M).tracks[track.trackId].(
                         approved := approved, missing := 0,
                         lastBbox := Some(d.bbox), lastCenter := Some(Center(d.bbox))))
    {
      hide TrackMemory.Value, SourceToken.Value;
      track.Sight(d, approved);
      Store(track);
    }

    method SetState(track: TrackMemory, state: Lifecycle)
      requires Valid() && Known(track)
      modifies track`state, this`M
      ensures Valid()
      ensures M == Put(old(M), track.trackId, old(M).tracks[track.trackId].(state := state))
    {
      hide TrackMemory.Value, SourceToken.Value;
      track.SetState(state);
      Store(track);
    }

    method NewToken(track: TrackMemory, bbox: Box) returns (token: SourceToken)
      requires Valid() && Known(track)
      modifies this`minted, this`tokenSequence, this`Repr, this`M
      ensures Valid() && fresh(Repr - old(Repr)) && old(Repr) <= Repr
      ensures M == old(M).(tokens := old(M).tokens
                                     + [Token(track.trackId, old(M).frame, old(M).frame, bbox, false)])
      ensures Minted(token) && token.id == |old(M).tokens|
    {
      hide TrackMemory.Value, SourceToken.Value;
      token := new SourceToken(tokenSequence, track.trackId, frameIndex, bbox);
      tokenSequence := tokenSequence + 1;
      minted := minted + [token];
      Repr := Repr + {token};
      M := M.(tokens := M.tokens + [Token(track.trackId, frameIndex, frameIndex, bbox, false)]);
    }

    method CreateSourceToken(track: TrackMemory, bbox: Box)
      requires Valid() && Known(track)
      modifies track`sourceToken, track`state
      modifies this`minted, this`tokenSequence, this`Repr, this`M
      ensures Valid() && fresh(Repr - old(Repr)) && old(Repr) <= Repr
      ensures M == Mint(old(M), track.trackId, bbox)
    {
      hide Valid, TrackMemory.Value;
      TrackAgrees(track);
      var token := NewToken(track, bbox);
      StoreNewToken(track, token);
    }

    method StoreNewToken(track: TrackMemory, token: SourceToken)
      requires Valid() && Known(track) && Minted(token)
      modifies track`sourceToken, track`state, this`M
      ensures Valid()
      ensures M == Put(old(M), track.trackId,
                       old(M).tracks[track.trackId].(token := Some(token.id), state := SourceConfirmed))
    {
      hide TrackMemory.Value, SourceToken.Value;
      track.TakeNewToken(token);
      Store(track);
    }

    method Borrow(track: TrackMemory, lender: int)
      requires Valid() && Known(track) && lender in tracks && tracks[lender].HasSourceToken()
      requires lender != track.trackId
      modifies track`sourceToken, track`sourceFrames, track`crossedGate, track`state
      modifies tracks[lender].sourceToken`trackId, tracks[lender].sourceToken`lastFrame, this`M
      ensures Valid()
      ensures Live(old(M), old(M).tracks[lender]) && M == CountModel.Borrow(config, old(M), track.trackId, lender)
    {
      hide Valid, TrackMemory.Value;
      Agrees();
      IsKnown(lender);
      TrackAgrees(tracks[lender]);
      TrackAgrees(track);
      var token := tracks[lender].sourceToken;
      var lenderCrossed := tracks[lender].crossedGate;
      HandTo(token, track.trackId);
      StoreInherited(track, token, lenderCrossed);
      Record(Inherited(track.trackId, lender));
    }

    method StoreInherited(track: TrackMemory, token: SourceToken, lenderCrossed: bool)
      requires Valid() && Known(track) && Minted(token)
      modifies track`sourceToken, track`sourceFrames, track`crossedGate, track`state, this`M
      ensures Valid()
      ensures var t := old(M).tracks[track.trackId];
        M == Put(old(M), track.trackId, t.(
                   token := Some(token.id), sourceFrames := Max(t.sourceFrames, config.sourceMinFrames),
                   crossedGate := t.crossedGate || lenderCrossed, state := SourceConfirmed))
    {
      hide TrackMemory.Value, SourceToken.Value;
      TrackAgrees(track);
      track.Inherit(token, config.sourceMinFrames, lenderCrossed);
      Store(track);
    }

    // The first judgement of a new track; stop tells that it was in the output
    // all along.
    method Classify(track: TrackMemory, d: Detection) returns (stop: bool)
      requires Valid() && Known(track) && track.trackId == d.trackId && Placeable(M, d.trackId)
      modifies Repr
      ensures Valid() && Repr == old(Repr) && tracks == old(tracks)
      ensures stop == CountModel.Classify(config, old(M), d).None?
      ensures stop ==> M == Put(old(M), d.trackId, old(M).tracks[d.trackId].(state := ResidentOutputObject))
      ensures !stop ==> CountModel.Classify(config, old(M), d) == Some(M)
      ensures Events(M.log) == Events(old(M).log)
    {
      hide Valid, TrackMemory.Value, CountModel.Lender, CountModel.MatchingResident, Events;
      TrackAgrees(track);
      if track.state == NewTrack {
        var resident := MatchingResident(d.bbox);
        if resident.Some? && d.outputHit {
          SetState(track, ResidentOutputObject);
          return true;
        }
        if d.outputHit && !d.sourceHit {
          var lender := Lender(track.trackId);
          if lender.None? {
            SetState(track, ResidentOutputObject);
            return true;
          }
          IsKnown(lender.value);
          TrackAgrees(tracks[lender.value]);
          Quiet(config, M.log, Inherited(track.trackId, lender.value));
          Borrow(track, lender.value);
        }
        SetState(track, Observing);
      }
      return false;
    }

    method SourceStep(track: TrackMemory, d: Detection)
      requires Valid() && Known(track) && track.trackId == d.trackId && Placeable(M, d.trackId)
      modifies track`sourceFrames, track`sourceToken, track`state
      modifies this`minted, this`tokenSequence, this`Repr, this`M
      ensures Valid() && fresh(Repr - old(Repr)) && old(Repr) <= Repr
      ensures M == CountModel.SourceStep(config, old(M), d)
    {
      hide Valid, TrackMemory.Value;
      TrackAgrees(track);
      if d.sourceHit && !track.counted && track.state != ResidentOutputObject {
        StoreSourceFrame(track);
        TrackAgrees(track);
        if track.sourceFrames >= config.sourceMinFrames && !track.HasSourceToken() {
          CreateSourceToken(track, d.bbox);
        }
      }
    }

    method StoreSourceFrame(track: TrackMemory)
      requires Valid() && Known(track)
      modifies track`sourceFrames, this`M
      ensures Valid()
      ensures M == Put(old(M), track.trackId,
                       old(M).tracks[track.trackId].(sourceFrames := old(M).tracks[track.trackId].sourceFrames + 1))
    {
      hide TrackMemory.Value, SourceToken.Value;
      TrackAgrees(track);
      track.CountSourceFrame();
      Store(track);
    }

    method GateStep(track: TrackMemory, d: Detection, previous: Option<Point>)
      requires Valid() && Known(track) && track.trackId == d.trackId && Placeable(M, d.trackId)
      modifies track`crossedGate, track`state, this`M
      ensures Valid()
      ensures M == CountModel.GateStep(config, old(M), d, previous)
    {
      hide Valid, GateCrossed;
      TrackAgrees(track);
      if GateCrossed(config, previous, Center(d.bbox)) {
        StoreCrossing(track);
      }
    }

    method StoreCrossing(track: TrackMemory)
      requires Valid() && Known(track)
      modifies track`crossedGate, track`state, this`M
      ensures Valid()
      ensures var t := old(M).tracks[track.trackId];
        M == Put(old(M), track.trackId, t.(
                   crossedGate := true,
                   state := if Live(old(M), t) && t.state == SourceConfirmed then MovingToOutput else t.state))
    {
      hide TrackMemory.Value, SourceToken.Value;
      TrackAgrees(track);
      track.CrossGate();
      Store(track);
    }

    method StoreOutputFrame(track: TrackMemory, stable: bool)
      requires Valid() && Known(track)
      modifies track`outputFrames, track`enteredOutput, track`state, track`stableOutputFrames, this`M
      ensures Valid()
      ensures var t := old(M).tracks[track.trackId];
        M == Put(old(M), track.trackId, t.(
                   outputFrames := t.outputFrames + 1, enteredOutput := true, state := SettledState(t.state),
                   stableOutputFrames := if stable then t.stableOutputFrames + 1 else 1))
    {
      hide TrackMemory.Value, SourceToken.Value;
      TrackAgrees(track);
      track.EnterOutput(stable);
      Store(track);
    }

    method Settle(track: TrackMemory, d: Detection, previous: Option<Point>) returns (event: Option<Event>)
      requires Valid() && Known(track) && track.trackId == d.trackId && Placeable(M, d.trackId)
      modifies Repr
      ensures Valid() && Repr == old(Repr) && tracks == old(tracks)
      ensures M == CountModel.Settle(config, old(M), d, previous)
      ensures Events(M.log) == Events(old(M).log) + Listed(event)
    {
      hide Valid, Stable, TrackMemory.Value, Center, CountEvent, CountModel.Commit, Events;
      TrackAgrees(track);
      StoreOutputFrame(track, Stable(config, previous, Center(d.bbox)));
      TrackAgrees(track);
      event := None;
      if track.approved && !track.counted && track.stableOutputFrames >= config.outputStableFrames {
        EventsOfCommit(M, d.trackId, StableInOutput, None, None, None);
        var e := Commit(track, StableInOutput, None, None, None);
        event := Some(e);
      }
    }

    method StayOutside(track: TrackMemory)
      requires Valid() && Known(track)
      modifies track`outputFrames, track`stableOutputFrames, this`M
      ensures Valid()
      ensures M == Put(old(M), track.trackId,
                       old(M).tracks[track.trackId].(outputFrames := 0, stableOutputFrames := 0))
    {
      hide TrackMemory.Value, SourceToken.Value;
      track.LeaveOutput();
      Store(track);
    }

    method StayUncounted(track: TrackMemory, state: Lifecycle)
      requires Valid() && Known(track)
      modifies track`outputFrames, track`state, this`M
      ensures Valid()
      ensures var t := old(M).tracks[track.trackId];
        M == Put(old(M), track.trackId, t.(outputFrames := t.outputFrames + 1, state := state))
    {
      hide TrackMemory.Value, SourceToken.Value;
      TrackAgrees(track);
      track.CountOutputFrame(state);
      Store(track);
    }

    method OutputStep(track: TrackMemory, d: Detection, previous: Option<Point>) returns (event: Option<Event>)
      requires Valid() && Known(track) && track.trackId == d.trackId && Placeable(M, d.trackId)
      modifies Repr
      ensures Valid() && Repr == old(Repr) && tracks == old(tracks)
      ensures M == CountModel.OutputStep(config, old(M), d, previous)
      ensures Events(M.log) == Events(old(M).log) + Listed(event)
    {
      hide Valid, CountModel.Settle, Events, TrackMemory.Value;
      TrackAgrees(track);
      var satisfied := config.gate.None? || track.crossedGate;
      event := None;
      if d.outputHit {
        if track.HasSourceToken() && !satisfied {
          StayUncounted(track, UncertainReview);
        } else if track.HasSourceToken() {
          event := Settle(track, d, previous);
        } else if !track.counted {
          StayUncounted(track, ResidentOutputObject);
        } else {
          StayUncounted(track, track.state);
        }
      } else {
        StayOutside(track);
      }
    }

    method Advance(track: TrackMemory, d: Detection, previous: Option<Point>) returns (event: Option<Event>)
      requires Valid() && Known(track) && track.trackId == d.trackId && Placeable(M, d.trackId)
      modifies Repr
      ensures Valid() && fresh(Repr - old(Repr)) && old(Repr) <= Repr && tracks == old(tracks)
      ensures M == CountModel.Advance(config, old(M), d, previous)
      ensures Events(M.log) == Events(old(M).log) + Listed(event)
    {
      assert track in Repr;
      QuietSteps(config, M, d, previous);
      hide CountModel.SourceStep, CountModel.GateStep, CountModel.OutputStep, Events;
      SourceStep(track, d);
      GateStep(track, d, previous);
      event := OutputStep(track, d, previous);
    }

    method Judge(track: TrackMemory, d: Detection, previous: Option<Point>) returns (event: Option<Event>)
      requires Valid() && Known(track) && track.trackId == d.trackId && Placeable(M, d.trackId)
      modifies Repr
      ensures Valid() && fresh(Repr - old(Repr)) && old(Repr) <= Repr && tracks == old(tracks)
      ensures M == CountModel.Judge(config, old(M), d, previous)
      ensures Events(M.log) == Events(old(M).log) + Listed(event)
    {
      hide CountModel.Classify, CountModel.Advance, Events;
      StoreValidity(track, !d.ignoreHit && d.outputHit);
      event := None;
      if !d.ignoreHit {
        var stop := Classify(track, d);
        if !stop {
          event := Advance(track, d, previous);
        }
      }
    }

    method StoreValidity(track: TrackMemory, inOutput: bool)
      requires Valid() && Known(track)
      modifies track`lastValidInOutput, this`M
      ensures Valid()
      ensures M == Put(old(M), track.trackId, old(M).tracks[track.trackId].(lastValidInOutput := inOutput))
    {
      hide TrackMemory.Value, SourceToken.Value;
      track.SetLastValidInOutput(inOutput);
      Store(track);
    }

    method Detect(d: Detection, approved: bool) returns (event: Option<Event>)
      requires Valid()
      modifies Repr
      ensures Valid() && fresh(Repr - old(Repr)) && old(Repr) <= Repr
      ensures M == CountModel.Detect(config, old(M), d, approved)
      ensures Events(M.log) == Events(old(M).log) + Listed(event)
    {
      QuietObserve(config, M, d, approved);
      hide CountModel.Judge, CountModel.Observe, Events, Valid, PreviousCenter;
      var track, previous := Observe(d, approved);
      event := Judge(track, d, previous);
    }

    // ----- one track that was not detected -----

    method StoreMissing(track: TrackMemory)
      requires Valid() && Known(track)
      modifies track`missing, this`M
      ensures Valid()
      ensures M == Put(old(M), track.trackId,
                       old(M).tracks[track.trackId].(missing := old(M).tracks[track.trackId].missing + 1))
    {
      hide TrackMemory.Value, SourceToken.Value;
      TrackAgrees(track);
      track.CountMissing();
      Store(track);
    }

    method MarkMissing(track: TrackMemory) returns (event: Option<Event>)
      requires Valid() && Known(track)
      modifies Repr
      ensures Valid() && Repr == old(Repr) && tracks == old(tracks)
      ensures M == CountModel.MarkMissing(config, old(M), track.trackId)
      ensures Events(M.log) == Events(old(M).log) + Listed(event)
    {
      hide Valid, TrackMemory.Value;
      TrackAgrees(track);
      StoreMissing(track);
      TrackAgrees(track);
      event := None;
      if track.HasSourceToken()
         && track.enteredOutput
         && track.lastValidInOutput
         && (config.gate.None? || track.crossedGate)
         && track.approved
         && !track.counted
         && track.lastBbox.Some?
         && track.missing >= config.disappearFrames
      {
        EventsOfCommit(M, track.trackId, DisappearedInOutput, None, None, None);
        var e := Commit(track, DisappearedInOutput, None, None, None);
        event := Some(e);
      }
    }

    method Forget(id: int)
      requires Valid() && id in tracks
      modifies this`tracks, this`trackOrder, this`M
      ensures Valid() && M == CountModel.Forget(old(M), id)
    {
      hide TrackMemory.Value, SourceToken.Value, Without;
      WithoutSubset(trackOrder, id);
      tracks := tracks - {id};
      trackOrder := Without(trackOrder, id);
      M := CountModel.Forget(M, id);
    }

    method Miss(id: int) returns (event: Option<Event>)
      requires Valid() && id in tracks
      modifies Repr
      ensures Valid() && Repr == old(Repr)
      ensures M == CountModel.Miss(config, old(M), id)
      ensures Events(M.log) == Events(old(M).log) + Listed(event)
    {
      hide Valid, TrackMemory.Value, CountModel.MarkMissing, Events;
      Agrees();
      IsKnown(id);
      var track := tracks[id];
      TrackAgrees(track);
      event := MarkMissing(track);
      TrackAgrees(track);
      Agrees();
      Quiet(config, M.log, Forgotten(id));
      if track.missing > config.maxMissing {
        Forget(id);
      }
    }

    method Expire(id: int)
      requires Valid() && id in tracks
      modifies Repr
      ensures Valid() && Repr == old(Repr) && tracks == old(tracks) && trackOrder == old(trackOrder)
      ensures M == CountModel.Expire(config, old(M), id)
    {
      hide Valid, TrackMemory.Value;
      Agrees();
      IsKnown(id);
      var track := tracks[id];
      TrackAgrees(track);
      LiveIsHasSourceToken(track);
      if !track.HasSourceToken() || track.enteredOutput || track.counted {
        return;
      }
      if frameIndex - track.sourceToken.lastFrame > config.tokenTtl {
        Consume(track.sourceToken);
        SetState(track, UncertainReview);
      }
    }

    // ----- update -----

    ghost predicate Healthy()
      reads this, Repr
    {
      Valid() && Good(config, M)
    }

    method DetectAll(detections: seq<Detection>, approvedTrackIds: Option<set<int>>) returns (events: seq<Event>)
      requires Valid()
      modifies Repr
      ensures Valid() && fresh(Repr - old(Repr)) && old(Repr) <= Repr
      ensures M == CountModel.DetectAll(config, old(M), detections, approvedTrackIds)
      ensures Events(M.log) == Events(old(M).log) + events
    {
      hide CountModel.Detect, Events, Valid;
      Agrees();
      events := [];
      for i := 0 to |detections|
        invariant Valid() && fresh(Repr - old(Repr)) && old(Repr) <= Repr
        invariant M == CountModel.DetectAll(config, old(M), detections[..i], approvedTrackIds)
        invariant Events(M.log) == Events(old(M).log) + events
      {
        var d := detections[i];
        assert detections[..i + 1][..i] == detections[..i];
        var event := Detect(d, approvedTrackIds.None? || d.trackId in approvedTrackIds.value);
        events := events + Listed(event);
        Agrees();
      }
      assert detections[..|detections|] == detections;
    }

    method MissAll(present: set<int>, ghost late: set<int>) returns (events: seq<Event>)
      requires Valid() && Inv(config, M, late)
      requires late !! present && forall id :: id in M.tracks ==> id in late || id in present
      modifies Repr
      ensures Valid() && Repr == old(Repr)
      ensures M == CountModel.MissAll(config, old(M), old(M).order, present)
      ensures Events(M.log) == Events(old(M).log) + events
    {
      hide CountModel.Miss, CountModel.MissAll, Events, Inv, Valid;
      var ids := trackOrder;
      Agrees();
      events := [];
      MissNone(config, M, present);
      for i := 0 to |ids|
        invariant Valid() && Repr == old(Repr)
        invariant M == CountModel.MissAll(config, old(M), ids[..i], present)
        invariant Events(M.log) == Events(old(M).log) + events
      {
        MissNext(config, old(M), i, present, late);
        Agrees();
        if ids[i] !in present {
          var event := Miss(ids[i]);
          events := events + Listed(event);
        }
      }
      assert ids[..|ids|] == ids;
    }

    method ExpireStaleSourceTokens()
      requires Valid()
      modifies Repr
      ensures Valid() && Repr == old(Repr)
      ensures M == ExpireAll(config, old(M), old(M).order)
    {
      hide CountModel.Expire, Valid;
      Agrees();
      for i := 0 to |trackOrder|
        invariant Valid() && Repr == old(Repr) && trackOrder == old(trackOrder) && tracks == old(tracks)
        invariant M == ExpireAll(config, old(M), trackOrder[..i])
      {
        assert trackOrder[..i + 1][..i] == trackOrder[..i];
        Agrees();
        Expire(trackOrder[i]);
      }
      assert trackOrder[..|trackOrder|] == trackOrder;
    }

    method BeginFrame()
      requires Valid()
      modifies this`frameIndex, this`M
      ensures Valid() && M == CountModel.BeginFrame(old(M))
    {
      hide TrackMemory.Value, SourceToken.Value;
      frameIndex := frameIndex + 1;
      M := CountModel.BeginFrame(M);
    }

    method Update(detections: seq<Detection>, approvedTrackIds: Option<set<int>>) returns (events: seq<Event>)
      requires Healthy()
      modifies Repr
      ensures Healthy() && fresh(Repr - old(Repr)) && old(Repr) <= Repr
      ensures M == CountModel.Update(config, old(M), detections, approvedTrackIds)
      ensures Events(M.log) == Events(old(M).log) + events
    {
      hide Good, Valid, Events, CountModel.DetectAll, CountModel.MissAll, ExpireAll, Inv, CountModel.BeginFrame;
      UpdateKeeps(config, M, detections, approvedTrackIds);
      MissReady(config, M, detections, approvedTrackIds);
      BeginFrameQuiet(config, M);
      Agrees();
      ghost var late := M.tracks.Keys - Ids(detections);
      BeginFrame();
      events := DetectAll(detections, approvedTrackIds);
      var more := MissAll(Ids(detections), late);
      events := events + more;
      ExpireAllQuiet(config, M, M.order);
      ExpireStaleSourceTokens();
    }

    // ----- commit_approved_delivery_chain -----

    method Rest(track: TrackMemory, bbox: Box)
      requires Valid() && Known(track)
      modifies track`lastBbox, track`lastCenter, track`state, this`M
      ensures Valid()
      ensures M == Note(Put(old(M), track.trackId, old(M).tracks[track.trackId].(
                              lastBbox := Some(bbox), lastCenter := Some(Center(bbox)),
                              state := ResidentOutputObject)),
                        Placed(track.trackId, Center(bbox)))
    {
      hide TrackMemory.Value, SourceToken.Value;
      track.SettleBeside(bbox);
      Store(track);
      Record(Placed(track.trackId, Center(bbox)));
    }

    method Approach(track: TrackMemory, bbox: Box)
      requires Valid() && Known(track)
      modifies track, this`M
      ensures Valid() && track.sourceToken == old(track.sourceToken) && track.lastBbox == Some(bbox)
      ensures M == CountModel.Approach(config, old(M), track.trackId, bbox)
    {
      TrackAgrees(track);
      track.Deliver(bbox, config.sourceMinFrames);
      assert track.lastBbox == track.Value().lastBbox;
      hide TrackMemory.Value, SourceToken.Value;
      Store(track);
      Record(Placed(track.trackId, Center(bbox)));
    }

    method Adopt(track: TrackMemory, token: SourceToken)
      requires Valid() && Known(track) && Minted(token)
      modifies track`sourceToken, token`trackId, token`lastFrame, this`M
      ensures Valid() && track.sourceToken == token
      ensures M == Put(SetToken(old(M), token.id, old(M).tokens[token.id].(
                                  trackId := track.trackId, lastFrame := old(M).frame)),
                       track.trackId, old(M).tracks[track.trackId].(token := Some(token.id)))
    {
      hide Valid;
      TrackAgrees(track);
      HandTo(token, track.trackId);
      StoreToken(track, token);
    }

    method StoreToken(track: TrackMemory, token: SourceToken)
      requires Valid() && Known(track) && Minted(token)
      modifies track`sourceToken, this`M
      ensures Valid() && track.sourceToken == token
      ensures M == Put(old(M), track.trackId, old(M).tracks[track.trackId].(token := Some(token.id)))
    {
      hide TrackMemory.Value, SourceToken.Value;
      track.HoldToken(token);
      Store(track);
    }

    method Provide(track: TrackMemory, sourceTrackId: Option<int>) returns (provenance: Provenance)
      requires Valid() && Known(track)
      modifies Repr
      ensures Valid() && Repr == old(Repr) && tracks == old(tracks)
      ensures track.lastBbox == old(track.lastBbox)
      ensures (M, provenance) == CountModel.Provide(old(M), track.trackId, sourceTrackId)
    {
      hide Valid, TrackMemory.Value;
      Agrees();
      TrackAgrees(track);
      provenance := SyntheticApprovedChainToken;
      if sourceTrackId.Some? && sourceTrackId.value in tracks {
        IsKnown(sourceTrackId.value);
        var source := tracks[sourceTrackId.value];
        TrackAgrees(source);
        if source.HasSourceToken() {
          Adopt(track, source.sourceToken);
          return InheritedLiveSourceToken;
        }
      }
      if track.HasSourceToken() {
        RenewHeldToken(track);
        provenance := SourceZoneToken;
      }
    }

    method NoteChain(chainId: string)
      requires Valid()
      modifies this`committedChains, this`M
      ensures Valid() && M == old(M).(chains := old(M).chains + {chainId})
    {
      hide TrackMemory.Value, SourceToken.Value;
      committedChains := committedChains + {chainId};
      M := M.(chains := M.chains + {chainId});
    }

    method CountChain(track: TrackMemory, chainId: string, bbox: Box, sourceTrackId: Option<int>)
      returns (event: Event)
      requires Valid() && Known(track)
      modifies Repr
      ensures Valid() && Repr == old(Repr)
      ensures var (m, provenance) := CountModel.Provide(CountModel.Approach(config, old(M), track.trackId, bbox),
                                                        track.trackId, sourceTrackId);
        && Placeable(m, track.trackId)
        && M == CountModel.Commit(m, track.trackId, ApprovedDeliveryChain, Some(chainId), sourceTrackId,
                                  Some(provenance))
      ensures Events(M.log) == Events(old(M).log) + [event]
    {
      hide Valid, Events, CountModel.Provide, CountModel.Approach, CountModel.Commit;
      TrackAgrees(track);
      QuietApproach(config, M, track.trackId, bbox, sourceTrackId);
      Approach(track, bbox);
      var provenance := Provide(track, sourceTrackId);
      TrackAgrees(track);
      EventsOfCommit(M, track.trackId, ApprovedDeliveryChain, Some(chainId), sourceTrackId, Some(provenance));
      event := Commit(track, ApprovedDeliveryChain, Some(chainId), sourceTrackId, Some(provenance));
    }

    method CommitApprovedDeliveryChain(chainId: string, outputTrackId: int, outputBbox: Box,
                                       sourceTrackId: Option<int>)
      returns (event: Option<Event>)
      requires Healthy()
      modifies Repr
      ensures Healthy() && fresh(Repr - old(Repr)) && old(Repr) <= Repr
      ensures M == CommitChain(config, old(M), chainId, outputTrackId, outputBbox, sourceTrackId)
      ensures Events(M.log) == Events(old(M).log) + Listed(event)
    {
      StepKeeps(config, M, ChainOp(chainId, outputTrackId, outputBbox, sourceTrackId));
      hide Good;
      event := TryChain(chainId, outputTrackId, outputBbox, sourceTrackId);
    }

    method TryChain(chainId: string, outputTrackId: int, outputBbox: Box, sourceTrackId: Option<int>)
      returns (event: Option<Event>)
      requires Valid()
      modifies Repr
      ensures Valid() && fresh(Repr - old(Repr)) && old(Repr) <= Repr
      ensures M == CommitChain(config, old(M), chainId, outputTrackId, outputBbox, sourceTrackId)
      ensures Events(M.log) == Events(old(M).log) + Listed(event)
    {
      hide Valid, Events, CountModel.PlaceChain;
      event := None;
      Agrees();
      if chainId !in committedChains {
        var track := Remember(outputTrackId);
        NoteChain(chainId);
        event := PlaceChain(track, chainId, outputBbox, sourceTrackId);
      }
    }

    method PlaceChain(track: TrackMemory, chainId: string, outputBbox: Box, sourceTrackId: Option<int>)
      returns (event: Option<Event>)
      requires Valid() && Known(track)
      modifies Repr
      ensures Valid() && Repr == old(Repr)
      ensures track.trackId in old(M).tracks
      ensures M == CountModel.PlaceChain(config, old(M), chainId, track.trackId, outputBbox, sourceTrackId)
      ensures Events(M.log) == Events(old(M).log) + Listed(event)
    {
      hide Valid, CountModel.MatchingResident, Events, CountModel.Provide, CountModel.Approach, CountModel.Commit;
      event := None;
      Agrees();
      TrackAgrees(track);
      var resident := MatchingResident(outputBbox);
      if resident.Some? && frameIndex - resident.value.createdFrame <= config.dedupeWindow {
        Quiet(config, M.log, Placed(track.trackId, Center(outputBbox)));
        Rest(track, outputBbox);
      } else if !track.counted {
        var e := CountChain(track, chainId, outputBbox, sourceTrackId);
        event := Some(e);
      }
    }
  }

  lemma QuietSteps(cfg: Config, m: Machine, d: Detection, previous: Option<Point>)
    requires Placeable(m, d.trackId)
    ensures CountModel.GateStep(cfg, CountModel.SourceStep(cfg, m, d), d, previous).log == m.log
  {
    hide GateCrossed;
  }

  lemma BeginFrameQuiet(cfg: Config, m: Machine)
    ensures Events(CountModel.BeginFrame(m).log) == Events(m.log)
  {
    Quiet(cfg, m.log, Tick);
  }

  lemma QuietObserve(cfg: Config, m: Machine, d: Detection, approved: bool)
    ensures Events(CountModel.Observe(m, d, approved).log) == Events(m.log)
  {
    Quiet(cfg, m.log, Detected(d.trackId, Center(d.bbox)));
  }

  lemma MissNone(cfg: Config, m: Machine, present: set<int>)
    ensures CountModel.MissAll(cfg, m, m.order[..0], present) == m
  {
  }

  lemma MissOneMore(cfg: Config, m: Machine, i: nat, present: set<int>)
    requires i < |m.order|
    ensures var m1 := CountModel.MissAll(cfg, m, m.order[..i], present);
      m.order[i] in m1.tracks ==>
        CountModel.MissAll(cfg, m, m.order[..i + 1], present)
        == if m.order[i] in present then m1 else CountModel.Miss(cfg, m1, m.order[i])
  {
    hide CountModel.Miss;
    assert m.order[..i + 1][..i] == m.order[..i];
  }

  // One turn of the second loop of an update: its track is still there.
  lemma MissNext(cfg: Config, m: Machine, i: nat, present: set<int>, late: set<int>)
    requires Inv(cfg, m, late) && i < |m.order|
    requires late !! present && forall id :: id in m.tracks ==> id in late || id in present
    ensures var m1 := CountModel.MissAll(cfg, m, m.order[..i], present);
      && m.order[i] in m1.tracks
      && CountModel.MissAll(cfg, m, m.order[..i + 1], present)
         == if m.order[i] in present then m1 else CountModel.Miss(cfg, m1, m.order[i])
  {
    hide Inv, CountModel.Miss, CountModel.MissAll;
    OrderIsKeys(cfg, m, late);
    var ids := m.order;
    MissAllKeeps(cfg, m, ids[..i], present, late);
    assert ids[i] in ids && ids[i] !in ids[..i];
    MissOneMore(cfg, m, i, present);
  }

  // The state in which the second loop of an update starts.
  lemma MissReady(cfg: Config, m: Machine, ds: seq<Detection>, approved: Option<set<int>>)
    requires Good(cfg, m)
    ensures var m1 := CountModel.DetectAll(cfg, CountModel.BeginFrame(m), ds, approved);
      Inv(cfg, m1, m.tracks.Keys - Ids(ds)) && m1.tracks.Keys == m.tracks.Keys + Ids(ds)
  {
    hide Inv, CountModel.DetectAll, CountModel.BeginFrame;
    BeginFrameKeeps(cfg, m);
    BeginFrameTracks(m);
    DetectAllKeeps(cfg, CountModel.BeginFrame(m), ds, approved, m.tracks.Keys);
  }

  lemma QuietApproach(cfg: Config, m: Machine, id: int, bbox: Box, sourceTrackId: Option<int>)
    requires id in m.tracks
    ensures Events(CountModel.Provide(CountModel.Approach(cfg, m, id, bbox), id, sourceTrackId).0.log) == Events(m.log)
  {
    hide Live;
    Quiet(cfg, m.log, Placed(id, Center(bbox)));
  }
}
