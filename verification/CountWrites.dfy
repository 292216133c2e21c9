// What one step of the counter may write into the log.
module CountWrites {
  import opened Prelude
  import opened Geometry
  import opened CountModel
  import opened CountEffects

  // What handling a detection may write: the sighting, an inheritance of its
  // track, and one stable count of it, only when it was seen in the output, not in
  // an ignore zone, and approved; the count has the box that was seen.
  ghost predicate DetectEntry(e: Entry, d: Detection, approved: bool) {
    match e
    case Detected(id, c) => id == d.trackId && c == Center(d.bbox)
    case Inherited(child, _) => child == d.trackId && !d.ignoreHit && d.outputHit && !d.sourceHit
    case Emitted(ev, _) =>
      && ev.trackId == d.trackId && ev.reason == StableInOutput && ev.bbox == d.bbox
      && ev.sourceTrackId.None? && ev.chainId.None?
      && approved && d.outputHit && !d.ignoreHit
    case _ => false
  }

  ghost predicate DetectWrites(log: seq<Entry>, more: seq<Entry>, d: Detection, approved: bool) {
    log <= more && forall k :: |log| <= k < |more| ==> DetectEntry(more[k], d, approved)
  }

  lemma DetectWritesMore(log: seq<Entry>, more: seq<Entry>, most: seq<Entry>, d: Detection, approved: bool)
    requires DetectWrites(log, more, d, approved) && DetectWrites(more, most, d, approved)
    ensures DetectWrites(log, most, d, approved)
  {
    hide DetectEntry;
  }

  // The track has just been observed there.
  ghost predicate Seen(m: Machine, d: Detection, approved: bool) {
    && d.trackId in m.tracks && m.tracks[d.trackId].approved == approved
    && m.tracks[d.trackId].lastBbox == Some(d.bbox)
  }

  // Frames in the output are only ever counted once the gate is satisfied.
  predicate Steady(cfg: Config, t: Track) {
    t.stableOutputFrames > 0 ==> GateSatisfied(cfg, t)
  }

  // What the states say: counted where the state is counted, a token held where it
  // was given one, in the output only with the gate satisfied.
  predicate Earned(cfg: Config, t: Track) {
    && (t.state.CountedOutputResident? ==> t.counted)
    && (t.state in {SourceConfirmed, MovingToOutput, UncertainReview} ==> t.token.Some?)
    && (t.state.InOutputUnsettled? ==> t.enteredOutput && GateSatisfied(cfg, t))
  }

  predicate Sane(cfg: Config, t: Track) {
    Steady(cfg, t) && Earned(cfg, t)
  }

  ghost predicate Goes(cfg: Config, m: Machine, m': Machine, d: Detection, approved: bool) {
    && Seen(m', d, approved) && DetectWrites(m.log, m'.log, d, approved)
    && (d.trackId in m.tracks && Sane(cfg, m.tracks[d.trackId]) ==> Sane(cfg, m'.tracks[d.trackId]))
  }

  lemma GoesOn(cfg: Config, m: Machine, m': Machine, m'': Machine, d: Detection, approved: bool)
    requires Goes(cfg, m, m', d, approved) && Goes(cfg, m', m'', d, approved)
    ensures Goes(cfg, m, m'', d, approved)
  {
    DetectWritesMore(m.log, m'.log, m''.log, d, approved);
    hide DetectWrites;
  }

  lemma ObserveGoes(cfg: Config, m: Machine, d: Detection, approved: bool)
    ensures Goes(cfg, m, Observe(m, d, approved), d, approved)
    ensures d.trackId !in m.tracks ==> Sane(cfg, Observe(m, d, approved).tracks[d.trackId])
  {
  }

  lemma PutGoes(cfg: Config, m: Machine, d: Detection, approved: bool, t: Track)
    requires Seen(m, d, approved) && t.approved == approved && t.lastBbox == Some(d.bbox)
    requires Sane(cfg, m.tracks[d.trackId]) ==> Sane(cfg, t)
    ensures Goes(cfg, m, Put(m, d.trackId, t), d, approved)
  {
  }

  lemma ClassifyGoes(cfg: Config, m: Machine, d: Detection, approved: bool)
    requires Seen(m, d, approved) && !d.ignoreHit
    ensures Classify(cfg, m, d).Some? ==> Goes(cfg, m, Classify(cfg, m, d).value, d, approved)
  {
    hide MatchingResident, Lender;
  }

  lemma SourceStepGoes(cfg: Config, m: Machine, d: Detection, approved: bool)
    requires Seen(m, d, approved)
    ensures Goes(cfg, m, SourceStep(cfg, m, d), d, approved)
  {
  }

  lemma GateStepGoes(cfg: Config, m: Machine, d: Detection, approved: bool, previous: Option<Point>)
    requires Seen(m, d, approved)
    ensures Goes(cfg, m, GateStep(cfg, m, d, previous), d, approved)
  {
    hide GateCrossed;
  }

  lemma OutputStepGoes(cfg: Config, m: Machine, d: Detection, approved: bool, previous: Option<Point>)
    requires Seen(m, d, approved) && !d.ignoreHit
    ensures Goes(cfg, m, OutputStep(cfg, m, d, previous), d, approved)
  {
    hide Stable, Age, Center;
  }

  lemma AdvanceGoes(cfg: Config, m: Machine, d: Detection, approved: bool, previous: Option<Point>)
    requires Seen(m, d, approved) && !d.ignoreHit
    ensures Goes(cfg, m, Advance(cfg, m, d, previous), d, approved)
  {
    hide SourceStep, GateStep, OutputStep, DetectWrites, Sane;
    var m1 := SourceStep(cfg, m, d);
    var m2 := GateStep(cfg, m1, d, previous);
    SourceStepGoes(cfg, m, d, approved);
    GateStepGoes(cfg, m1, d, approved, previous);
    OutputStepGoes(cfg, m2, d, approved, previous);
    GoesOn(cfg, m, m1, m2, d, approved);
    GoesOn(cfg, m, m2, OutputStep(cfg, m2, d, previous), d, approved);
  }

  lemma JudgeGoes(cfg: Config, m: Machine, d: Detection, approved: bool, previous: Option<Point>)
    requires Seen(m, d, approved)
    ensures Goes(cfg, m, Judge(cfg, m, d, previous), d, approved)
  {
    hide Classify, Advance, DetectWrites;
    var id := d.trackId;
    var t := m.tracks[id].(lastValidInOutput := !d.ignoreHit && d.outputHit);
    var m1 := Put(m, id, t);
    PutGoes(cfg, m, d, approved, t);
    if !d.ignoreHit {
      var judged := Classify(cfg, m1, d);
      if judged.None? {
        PutGoes(cfg, m1, d, approved, t.(state := ResidentOutputObject));
        GoesOn(cfg, m, m1, Put(m1, id, t.(state := ResidentOutputObject)), d, approved);
      } else {
        ClassifyGoes(cfg, m1, d, approved);
        AdvanceGoes(cfg, judged.value, d, approved, previous);
        GoesOn(cfg, m, m1, judged.value, d, approved);
        GoesOn(cfg, m, judged.value, Advance(cfg, judged.value, d, previous), d, approved);
      }
    }
  }

  lemma DetectGoes(cfg: Config, m: Machine, d: Detection, approved: bool)
    ensures Goes(cfg, m, Detect(cfg, m, d, approved), d, approved)
    ensures d.trackId !in m.tracks ==> Sane(cfg, Detect(cfg, m, d, approved).tracks[d.trackId])
  {
    hide Observe, Judge, DetectWrites, Sane;
    var m1 := Observe(m, d, approved);
    ObserveGoes(cfg, m, d, approved);
    JudgeGoes(cfg, m1, d, approved, PreviousCenter(m, d.trackId));
    GoesOn(cfg, m, m1, Judge(cfg, m1, d, PreviousCenter(m, d.trackId)), d, approved);
  }

  // ----- a missing track -----

  ghost predicate MissEntry(e: Entry, id: int) {
    match e
    case Forgotten(i) => i == id
    case Emitted(ev, _) =>
      ev.trackId == id && ev.reason == DisappearedInOutput && ev.sourceTrackId.None? && ev.chainId.None?
    case _ => false
  }

  ghost predicate MissWrites(log: seq<Entry>, more: seq<Entry>, id: int) {
    log <= more && forall k :: |log| <= k < |more| ==> MissEntry(more[k], id)
  }

  lemma MissGoes(cfg: Config, m: Machine, id: int)
    requires id in m.tracks
    ensures MissWrites(m.log, Miss(cfg, m, id).log, id)
    ensures id in Miss(cfg, m, id).tracks && Sane(cfg, m.tracks[id]) ==> Sane(cfg, Miss(cfg, m, id).tracks[id])
  {
    hide Age;
  }

  // ----- a whole update -----

  // The track was shown by d and approved or not.
  ghost predicate ShownAs(ds: seq<Detection>, approved: Option<set<int>>, d: Detection, yes: bool) {
    d in ds && yes == (approved.None? || d.trackId in approved.value)
  }

  // What an update may write: for each detection what that may write, and
  // disappearances of tracks it does not show.
  ghost predicate UpdateEntry(e: Entry, ds: seq<Detection>, approved: Option<set<int>>) {
    || e.Tick?
    || (exists d, yes :: ShownAs(ds, approved, d, yes) && DetectEntry(e, d, yes))
    || (exists id :: id !in Ids(ds) && MissEntry(e, id))
  }

  ghost predicate UpdateWritesOnly(log: seq<Entry>, more: seq<Entry>, ds: seq<Detection>, approved: Option<set<int>>) {
    log <= more && forall k :: |log| <= k < |more| ==> UpdateEntry(more[k], ds, approved)
  }

  lemma {:induction false} DetectAllWrites(cfg: Config, m: Machine, ds: seq<Detection>, approved: Option<set<int>>,
                                           all: seq<Detection>)
    requires forall d :: d in ds ==> d in all
    ensures UpdateWritesOnly(m.log, DetectAll(cfg, m, ds, approved).log, all, approved)
  {
    hide Detect, DetectEntry, MissEntry;
    if ds != [] {
      var d := ds[|ds| - 1];
      var yes := approved.None? || d.trackId in approved.value;
      DetectAllWrites(cfg, m, ds[..|ds| - 1], approved, all);
      var m1 := DetectAll(cfg, m, ds[..|ds| - 1], approved);
      DetectGoes(cfg, m1, d, yes);
      assert ShownAs(all, approved, d, yes);
    }
  }

  lemma {:induction false} MissAllWrites(cfg: Config, m: Machine, ids: seq<int>, ds: seq<Detection>,
                                         approved: Option<set<int>>)
    ensures UpdateWritesOnly(m.log, MissAll(cfg, m, ids, Ids(ds)).log, ds, approved)
  {
    hide Miss, DetectEntry, MissEntry, ShownAs;
    if ids != [] {
      MissAllWrites(cfg, m, ids[..|ids| - 1], ds, approved);
      var m1 := MissAll(cfg, m, ids[..|ids| - 1], Ids(ds));
      var id := ids[|ids| - 1];
      if id !in Ids(ds) && id in m1.tracks {
        MissGoes(cfg, m1, id);
      }
    }
  }

  lemma {:induction false} ExpireAllWrites(cfg: Config, m: Machine, ids: seq<int>)
    ensures ExpireAll(cfg, m, ids).log == m.log
  {
    if ids != [] {
      ExpireAllWrites(cfg, m, ids[..|ids| - 1]);
    }
  }

  // Every entry of an update is about a detection of it or a track it misses; a
  // stable count is of an approved track seen in the output outside ignore zones,
  // with the box seen, a disappearance of a track not shown.
  lemma UpdateWrites(cfg: Config, m: Machine, ds: seq<Detection>, approved: Option<set<int>>)
    ensures UpdateWritesOnly(m.log, Update(cfg, m, ds, approved).log, ds, approved)
  {
    hide DetectAll, MissAll, ExpireAll, DetectEntry, MissEntry, ShownAs;
    var m0 := BeginFrame(m);
    var m1 := DetectAll(cfg, m0, ds, approved);
    var m2 := MissAll(cfg, m1, m1.order, Ids(ds));
    DetectAllWrites(cfg, m0, ds, approved, ds);
    MissAllWrites(cfg, m1, m1.order, ds, approved);
    ExpireAllWrites(cfg, m2, m2.order);
  }

  // ----- nothing about a track -----

  // No entry says that the track inherited a token or was counted.
  ghost predicate NothingOf(log: seq<Entry>, more: seq<Entry>, id: int) {
    log <= more && forall k :: |log| <= k < |more| ==> !Favours(more[k], id)
  }

  predicate Favours(e: Entry, id: int) {
    match e
    case Inherited(child, _) => child == id
    case Emitted(ev, _) => ev.trackId == id
    case _ => false
  }

  lemma {:induction false} NothingCounts(log: seq<Entry>, more: seq<Entry>, id: int)
    requires NothingOf(log, more, id)
    ensures CountsOf(more, id) == CountsOf(log, id)
    decreases |more|
  {
    if |more| == |log| {
      assert more == log;
    } else {
      assert !Favours(more[|more| - 1], id);
      NothingCounts(log, more[..|more| - 1], id);
    }
  }

  lemma NothingMore(log: seq<Entry>, more: seq<Entry>, most: seq<Entry>, id: int)
    requires NothingOf(log, more, id) && NothingOf(more, most, id)
    ensures NothingOf(log, most, id)
  {
    hide Favours;
  }

  lemma DetectFavoursIts(log: seq<Entry>, more: seq<Entry>, d: Detection, approved: bool, id: int)
    requires DetectWrites(log, more, d, approved) && d.trackId != id
    ensures NothingOf(log, more, id)
  {
    forall k | |log| <= k < |more|
      ensures !Favours(more[k], id)
    {
      assert DetectEntry(more[k], d, approved);
    }
  }

  lemma MissFavoursIts(log: seq<Entry>, more: seq<Entry>, j: int, id: int)
    requires MissWrites(log, more, j) && j != id
    ensures NothingOf(log, more, id)
  {
    forall k | |log| <= k < |more|
      ensures !Favours(more[k], id)
    {
      assert MissEntry(more[k], j);
    }
  }

  // Detections of other tracks do not favour this one.
  lemma {:induction false} DetectAllNothingOf(cfg: Config, m: Machine, ds: seq<Detection>, approved: Option<set<int>>,
                                              id: int)
    requires forall d :: d in ds ==> d.trackId != id
    ensures NothingOf(m.log, DetectAll(cfg, m, ds, approved).log, id)
  {
    hide Detect, DetectWrites, Favours;
    if ds != [] {
      var d := ds[|ds| - 1];
      var yes := approved.None? || d.trackId in approved.value;
      DetectAllNothingOf(cfg, m, ds[..|ds| - 1], approved, id);
      var m1 := DetectAll(cfg, m, ds[..|ds| - 1], approved);
      DetectGoes(cfg, m1, d, yes);
      DetectFavoursIts(m1.log, Detect(cfg, m1, d, yes).log, d, yes, id);
      NothingMore(m.log, m1.log, Detect(cfg, m1, d, yes).log, id);
    }
  }

  // Nor does missing tracks when this one is present.
  lemma {:induction false} MissAllNothingOf(cfg: Config, m: Machine, ids: seq<int>, present: set<int>, id: int)
    requires id in present
    ensures NothingOf(m.log, MissAll(cfg, m, ids, present).log, id)
  {
    hide Miss, MissWrites, Favours;
    if ids != [] {
      MissAllNothingOf(cfg, m, ids[..|ids| - 1], present, id);
      var m1 := MissAll(cfg, m, ids[..|ids| - 1], present);
      var j := ids[|ids| - 1];
      if j !in present && j in m1.tracks {
        MissGoes(cfg, m1, j);
        MissFavoursIts(m1.log, Miss(cfg, m1, j).log, j, id);
        NothingMore(m.log, m1.log, Miss(cfg, m1, j).log, id);
      }
    }
  }
}
