// The onboarding session of app/services/onboarding_state.py.
module Onboarding {
  import opened Prelude

  datatype State =
    | Created | Recording | SegmentsReady | WindowsReady | TeacherPending | TeacherReady | CalibrationReady
    | TrainingReady | ReadyForBlindReplay | ReadyForLive | Live | NeedsReview | Blocked

  function Name(s: State): string {
    match s
    case Created => "created"
    case Recording => "recording"
    case SegmentsReady => "segments_ready"
    case WindowsReady => "windows_ready"
    case TeacherPending => "teacher_pending"
    case TeacherReady => "teacher_ready"
    case CalibrationReady => "calibration_ready"
    case TrainingReady => "training_ready"
    case ReadyForBlindReplay => "ready_for_blind_replay"
    case ReadyForLive => "ready_for_live"
    case Live => "live"
    case NeedsReview => "needs_review"
    case Blocked => "blocked"
  }

  // An event, by its name; Other stands for every name the source does not know.
  datatype Event =
    | Create | RecordingStarted | SegmentsAvailable | WindowsExtracted | TeacherRequested | TeacherCompleted
    | TeacherUnavailable | CalibrationDone | TrainingDone | BlindReplayReady | BlindReplayPassed | ActivateLive
    | Other(name: string)

  function EventName(e: Event): string {
    match e
    case RecordingStarted => "recording_started"
    case SegmentsAvailable => "segments_available"
    case WindowsExtracted => "windows_extracted"
    case TeacherRequested => "teacher_requested"
    case TeacherCompleted => "teacher_completed"
    case TeacherUnavailable => "teacher_unavailable"
    case CalibrationDone => "calibration_ready"
    case TrainingDone => "training_ready"
    case BlindReplayReady => "blind_replay_ready"
    case BlindReplayPassed => "blind_replay_passed"
    case ActivateLive => "activate_live"
    case Create => "create"
    case Other(name) => name
  }

  datatype Artifact =
    | SegmentManifest | WindowManifest | TeacherLabels | StationCalibration | TrainingReport | BlindReplayReport

  predicate Terminal(s: State) {
    s == Live || s == NeedsReview || s == Blocked
  }

  datatype Entry = Entry(event: Event, stateFrom: Option<State>, stateTo: State, reason: Option<string>)

  datatype Session = Session(
    state: State,
    dryRun: bool,
    artifacts: map<Artifact, string>,
    failureReason: Option<string>,
    history: seq<Entry>)

  // One call of apply_onboarding_event.
  datatype Call = Call(event: Event, artifact: Option<string>, reason: Option<string>)

  // An empty string counts as absent.
  predicate Given(text: Option<string>) {
    text.Some? && text.value != ""
  }

  function GivenOr(text: Option<string>, default: string): string {
    if Given(text) then text.value else default
  }

  // ----- the specification: a table of the forward moves -----

  datatype Move = Move(to: State, artifact: Option<Artifact>)

  function Forward(from: State, event: Event): Option<Move> {
    match from
    case Created =>
      if event == RecordingStarted then Some(Move(Recording, None))
      else if event == SegmentsAvailable then Some(Move(SegmentsReady, Some(SegmentManifest)))
      else None
    case Recording =>
      if event == SegmentsAvailable then Some(Move(SegmentsReady, Some(SegmentManifest))) else None
    case SegmentsReady =>
      if event == WindowsExtracted then Some(Move(WindowsReady, Some(WindowManifest))) else None
    case WindowsReady =>
      if event == TeacherRequested then Some(Move(TeacherPending, None)) else None
    case TeacherPending =>
      if event == TeacherCompleted then Some(Move(TeacherReady, Some(TeacherLabels))) else None
    case TeacherReady =>
      if event == CalibrationDone then Some(Move(CalibrationReady, Some(StationCalibration))) else None
    case CalibrationReady =>
      if event == TrainingDone then Some(Move(TrainingReady, Some(TrainingReport))) else None
    case TrainingReady =>
      if event == BlindReplayReady then Some(Move(ReadyForBlindReplay, None)) else None
    case ReadyForBlindReplay =>
      if event == BlindReplayPassed then Some(Move(ReadyForLive, Some(BlindReplayReport))) else None
    case ReadyForLive =>
      if event == ActivateLive then Some(Move(Live, None)) else None
    case _ => None
  }

  function Started(dryRun: bool): Session {
    Session(Created, dryRun, map[], None, [Entry(Create, None, Created, None)])
  }

  function Moved(s: Session, event: Event, to: State, reason: Option<string>): Session {
    s.(state := to,
       failureReason := if to == NeedsReview || to == Blocked then reason else None,
       history := s.history + [Entry(event, Some(s.state), to, reason)])
  }

  function FailedClosed(s: Session, event: Event, reason: string): Session {
    Moved(s, event, NeedsReview, Some(reason))
  }

  function Noted(s: Session, event: Event, reason: string): Session {
    s.(history := s.history + [Entry(event, Some(s.state), s.state, Some(reason))])
  }

  // Why an event that is no forward move fails closed.
  function Refusal(from: State, call: Call): string {
    if call.event == TeacherUnavailable && (from == WindowsReady || from == TeacherPending) then
      GivenOr(call.reason, "teacher_provider_required")
    else
      GivenOr(call.reason, "invalid_transition:" + Name(from) + ":" + EventName(call.event))
  }

  function Applied(s: Session, call: Call): Result<Session> {
    if Terminal(s.state) then
      Success(Noted(s, call.event, GivenOr(call.reason, "terminal_state")))
    else
      match Forward(s.state, call.event)
      case None => Success(FailedClosed(s, call.event, Refusal(s.state, call)))
      case Some(move) =>
        if move.artifact.None? then
          Success(Moved(s, call.event, move.to, None))
        else if !Given(call.artifact) then
          Failure(EventName(call.event) + " requires artifact_path")
        else if move.to == TeacherReady && s.dryRun then
          Success(FailedClosed(s, call.event, "dry_run_teacher_cannot_unlock_live"))
        else
          Success(Moved(s.(artifacts := s.artifacts[move.artifact.value := call.artifact.value]),
                        call.event, move.to, None))
  }

  // A refused call leaves the session as it was.
  function Next(s: Session, call: Call): Session {
    match Applied(s, call)
    case Success(after) => after
    case Failure(_) => s
  }

  function Run(dryRun: bool, calls: seq<Call>): Session {
    if calls == [] then Started(dryRun)
    else Next(Run(dryRun, calls[..|calls| - 1]), calls[|calls| - 1])
  }

  // ----- the session as the source has it -----

  class OnboardingSession {
    var state: State
    const dryRun: bool
    var artifacts: map<Artifact, string>
    var failureReason: Option<string>
    var history: seq<Entry>

    ghost function Value(): Session
      reads this
    {
      Session(state, dryRun, artifacts, failureReason, history)
    }

    constructor (dryRun: bool)
      ensures Value() == Started(dryRun)
    {
      this.dryRun := dryRun;
      state, artifacts, failureReason := Created, map[], None;
      history := [Entry(Create, None, Created, None)];
    }

    method AppendHistory(event: Event, stateFrom: State, stateTo: State, reason: Option<string>)
      modifies this`history
      ensures history == old(history) + [Entry(event, Some(stateFrom), stateTo, reason)]
    {
      history := history + [Entry(event, Some(stateFrom), stateTo, reason)];
    }

    method Transition(event: Event, stateTo: State, reason: Option<string>)
      modifies this`state, this`failureReason, this`history
      ensures Value() == Moved(old(Value()), event, stateTo, reason)
    {
      var stateFrom := state;
      state := stateTo;
      failureReason := if stateTo == NeedsReview || stateTo == Blocked then reason else None;
      AppendHistory(event, stateFrom, stateTo, reason);
    }

    method FailClosed(event: Event, reason: string)
      modifies this`state, this`failureReason, this`history
      ensures Value() == FailedClosed(old(Value()), event, reason)
    {
      Transition(event, NeedsReview, Some(reason));
    }

    method NoteTerminal(event: Event, reason: Option<string>)
      modifies this`history
      ensures Value() == Noted(old(Value()), event, GivenOr(reason, "terminal_state"))
    {
      AppendHistory(event, state, state, Some(GivenOr(reason, "terminal_state")));
    }

    // A forward move that must come with an artifact: without one it raises
    // before anything is changed.
    method File(event: Event, key: Artifact, artifactPath: Option<string>, stateTo: State)
      returns (error: Option<string>)
      modifies this
      ensures !Given(artifactPath) ==> error == Some(EventName(event) + " requires artifact_path") && Value() == old(Value())
      ensures Given(artifactPath) ==> error == None
      ensures Given(artifactPath) ==>
        Value() == Moved(old(Value()).(artifacts := old(artifacts)[key := artifactPath.value]), event, stateTo, None)
    {
      if !Given(artifactPath) {
        return Some(EventName(event) + " requires artifact_path");
      }
      artifacts := artifacts[key := artifactPath.value];
      Transition(event, stateTo, None);
      error := None;
    }

    // The error is that of the missing artifact path; None stands for success.
    method Apply(event: Event, artifactPath: Option<string>, reason: Option<string>) returns (error: Option<string>)
      modifies this
      ensures match Applied(old(Value()), Call(event, artifactPath, reason))
        case Success(after) => error == None && Value() == after
        case Failure(message) => error == Some(message) && Value() == old(Value())
    {
      hide Moved, FailedClosed, Noted, Name, EventName, GivenOr, Given;
      error := None;
      if state == Live || state == NeedsReview || state == Blocked {
        NoteTerminal(event, reason);
      } else if event == RecordingStarted && state == Created {
        Transition(event, Recording, None);
      } else if event == SegmentsAvailable && (state == Created || state == Recording) {
        error := File(event, SegmentManifest, artifactPath, SegmentsReady);
      } else if event == WindowsExtracted && state == SegmentsReady {
        error := File(event, WindowManifest, artifactPath, WindowsReady);
      } else if event == TeacherRequested && state == WindowsReady {
        Transition(event, TeacherPending, None);
      } else if event == TeacherCompleted && state == TeacherPending {
        if Given(artifactPath) && dryRun {
          FailClosed(event, "dry_run_teacher_cannot_unlock_live");
        } else {
          error := File(event, TeacherLabels, artifactPath, TeacherReady);
        }
      } else if event == TeacherUnavailable && (state == WindowsReady || state == TeacherPending) {
        FailClosed(event, GivenOr(reason, "teacher_provider_required"));
      } else {
        error := ApplyAfterTeacher(event, artifactPath, reason);
      }
    }

    // The branches for a session that the teacher has labelled, and the refusal
    // of every event that fits no branch.
    method ApplyAfterTeacher(event: Event, artifactPath: Option<string>, reason: Option<string>)
      returns (error: Option<string>)
      requires !Terminal(state)
      requires Rank(state) >= Rank(TeacherReady) || Forward(state, event).None?
      requires event == TeacherUnavailable ==> state != WindowsReady && state != TeacherPending
      modifies this
      ensures match Applied(old(Value()), Call(event, artifactPath, reason))
        case Success(after) => error == None && Value() == after
        case Failure(message) => error == Some(message) && Value() == old(Value())
    {
      hide Moved, FailedClosed, Name, EventName, GivenOr, Given;
      error := None;
      if event == CalibrationDone && state == TeacherReady {
        error := File(event, StationCalibration, artifactPath, CalibrationReady);
      } else if event == TrainingDone && state == CalibrationReady {
        error := File(event, TrainingReport, artifactPath, TrainingReady);
      } else if event == BlindReplayReady && state == TrainingReady {
        Transition(event, ReadyForBlindReplay, None);
      } else if event == BlindReplayPassed && state == ReadyForBlindReplay {
        error := File(event, BlindReplayReport, artifactPath, ReadyForLive);
      } else if event == ActivateLive && state == ReadyForLive {
        Transition(event, Live, None);
      } else {
        FailClosed(event, GivenOr(reason, "invalid_transition:" + Name(state) + ":" + EventName(event)));
      }
    }
  }

  // ----- what holds in every run -----

  function Rank(s: State): nat {
    match s
    case Created => 0
    case Recording => 1
    case SegmentsReady => 2
    case WindowsReady => 3
    case TeacherPending => 4
    case TeacherReady => 5
    case CalibrationReady => 6
    case TrainingReady => 7
    case ReadyForBlindReplay => 8
    case ReadyForLive => 9
    case Live => 10
    case NeedsReview => 11
    case Blocked => 12
  }

  // The artifacts a session has by the time it reaches a forward state.
  function Needed(rank: nat): set<Artifact> {
    (if rank >= 2 then {SegmentManifest} else {})
    + (if rank >= 3 then {WindowManifest} else {})
    + (if rank >= 5 then {TeacherLabels} else {})
    + (if rank >= 6 then {StationCalibration} else {})
    + (if rank >= 7 then {TrainingReport} else {})
    + (if rank >= 9 then {BlindReplayReport} else {})
  }

  ghost predicate Visited(history: seq<Entry>, x: State) {
    exists i :: 0 <= i < |history| && history[i].stateTo == x
  }

  ghost predicate Chained(s: Session) {
    && s.history != [] && s.history[0].stateFrom == None && s.history[0].stateTo == Created
    && s.history[|s.history| - 1].stateTo == s.state
    && forall i :: 0 < i < |s.history| ==> s.history[i].stateFrom == Some(s.history[i - 1].stateTo)
  }

  // An entry moves forward, fails closed, or repeats a terminal state.
  predicate Proper(e: Entry) {
    match e.stateFrom
    case None => e.stateTo == Created
    case Some(from) =>
      if Terminal(from) then e.stateTo == from
      else e.stateTo == NeedsReview || Rank(from) < Rank(e.stateTo) <= Rank(Live)
  }

  ghost predicate Gated(s: Session) {
    && s.state != Blocked
    && (s.state != NeedsReview ==> s.artifacts.Keys == Needed(Rank(s.state)))
    && (s.dryRun && s.state != NeedsReview ==> Rank(s.state) <= Rank(TeacherPending))
    && (s.failureReason.Some? <==> s.state == NeedsReview)
  }

  ghost predicate Passed(s: Session) {
    s.state != NeedsReview ==>
      forall x: State :: 2 <= Rank(x) <= Rank(s.state) ==> Visited(s.history, x)
  }

  ghost predicate Sound(s: Session) {
    && Chained(s)
    && (forall i :: 0 <= i < |s.history| ==> Proper(s.history[i]))
    && Gated(s) && Passed(s)
  }

  // A forward move raises the rank by one, or skips the recording state.
  lemma ForwardClimbs(from: State, event: Event)
    requires Forward(from, event).Some?
    ensures var to := Forward(from, event).value.to;
      && Rank(from) < Rank(to) <= Rank(Live)
      && Rank(to) <= Max(Rank(from) + 1, 2)
      && (Rank(from) <= Rank(TeacherPending) < Rank(to) <==> to == TeacherReady)
  {
  }

  lemma ForwardCollects(from: State, event: Event)
    requires Forward(from, event).Some?
    ensures var move := Forward(from, event).value;
      Needed(Rank(move.to)) == Needed(Rank(from)) + if move.artifact.Some? then {move.artifact.value} else {}
  {
  }

  lemma VisitedStays(history: seq<Entry>, e: Entry, x: State)
    ensures Visited(history + [e], x) <==> Visited(history, x) || e.stateTo == x
  {
    if Visited(history, x) {
      var i :| 0 <= i < |history| && history[i].stateTo == x;
      assert (history + [e])[i].stateTo == x;
    }
    assert (history + [e])[|history|] == e;
  }

  lemma RankIsInjective(x: State, y: State)
    requires Rank(x) == Rank(y)
    ensures x == y
  {
  }

  lemma MovedStaysChained(s: Session, e: Entry, after: Session)
    requires Chained(s) && e.stateFrom == Some(s.state)
    requires after.history == s.history + [e] && after.state == e.stateTo
    ensures Chained(after)
  {
  }

  lemma ForwardKeepsSound(s: Session, call: Call, after: Session)
    requires Sound(s) && !Terminal(s.state) && Forward(s.state, call.event).Some?
    requires var move := Forward(s.state, call.event).value;
      && after.state == move.to && after.dryRun == s.dryRun && after.failureReason == None
      && after.history == s.history + [Entry(call.event, Some(s.state), move.to, None)]
      && after.artifacts.Keys == s.artifacts.Keys + (if move.artifact.Some? then {move.artifact.value} else {})
      && (s.dryRun ==> move.to != TeacherReady)
    ensures Sound(after)
  {
    hide Forward, Needed, Visited, Gated;
    var e := Entry(call.event, Some(s.state), after.state, None);
    ForwardClimbs(s.state, call.event);
    ForwardKeepsGated(s, call, after);
    MovedStaysChained(s, e, after);
    forall x: State | 2 <= Rank(x) <= Rank(after.state)
      ensures Visited(after.history, x)
    {
      VisitedStays(s.history, e, x);
      if Rank(x) == Rank(after.state) {
        RankIsInjective(x, after.state);
      }
    }
  }

  lemma ForwardKeepsGated(s: Session, call: Call, after: Session)
    requires Gated(s) && !Terminal(s.state) && Forward(s.state, call.event).Some?
    requires var move := Forward(s.state, call.event).value;
      && after.state == move.to && after.dryRun == s.dryRun && after.failureReason == None
      && after.artifacts.Keys == s.artifacts.Keys + (if move.artifact.Some? then {move.artifact.value} else {})
      && (s.dryRun ==> move.to != TeacherReady)
    ensures Gated(after)
  {
    hide Forward, Needed;
    ForwardClimbs(s.state, call.event);
    ForwardCollects(s.state, call.event);
  }

  lemma RefusalKeepsSound(s: Session, e: Entry, after: Session)
    requires Sound(s) && !Terminal(s.state) && e.stateFrom == Some(s.state)
    requires after == s.(state := NeedsReview, failureReason := e.reason, history := s.history + [e])
    requires e.stateTo == NeedsReview && e.reason.Some?
    ensures Sound(after)
  {
    MovedStaysChained(s, e, after);
  }

  lemma NoteKeepsSound(s: Session, e: Entry)
    requires Sound(s) && Terminal(s.state) && e.stateFrom == Some(s.state) && e.stateTo == s.state
    ensures Sound(s.(history := s.history + [e]))
  {
    hide Visited, Needed;
    MovedStaysChained(s, e, s.(history := s.history + [e]));
    forall x: State | 2 <= Rank(x) <= Rank(s.state) && s.state != NeedsReview
      ensures Visited(s.history + [e], x)
    {
      VisitedStays(s.history, e, x);
    }
  }

  lemma NextKeepsSound(s: Session, call: Call)
    requires Sound(s)
    ensures Sound(Next(s, call))
  {
    hide Sound, Forward;
    var after := Next(s, call);
    if Terminal(s.state) {
      NoteKeepsSound(s, Entry(call.event, Some(s.state), s.state, Some(GivenOr(call.reason, "terminal_state"))));
    } else if Applied(s, call).Success? {
      if Forward(s.state, call.event).Some? && after.state != NeedsReview {
        DryRunStopsAtTeacher(s, call);
        ForwardKeepsSound(s, call, after);
      } else {
        RefusalFails(s, call);
        RefusalKeepsSound(s, after.history[|s.history|], after);
      }
    }
  }

  lemma DryRunStopsAtTeacher(s: Session, call: Call)
    requires !Terminal(s.state) && Forward(s.state, call.event).Some? && Applied(s, call).Success?
    requires Next(s, call).state != NeedsReview
    ensures s.dryRun ==> Forward(s.state, call.event).value.to != TeacherReady
  {
  }

  lemma RefusalFails(s: Session, call: Call)
    requires !Terminal(s.state) && Applied(s, call).Success?
    requires Forward(s.state, call.event).None? || Next(s, call).state == NeedsReview
    ensures var after := Next(s, call);
      && after.state == NeedsReview && after.failureReason.Some?
      && after == FailedClosed(s, call.event, after.failureReason.value)
  {
  }

  lemma StartIsSound(dryRun: bool)
    ensures Sound(Started(dryRun))
  {
    assert Started(dryRun).artifacts.Keys == {};
  }

  lemma {:induction false} RunIsSound(dryRun: bool, calls: seq<Call>)
    ensures Sound(Run(dryRun, calls)) && Run(dryRun, calls).dryRun == dryRun
  {
    hide Sound, Forward;
    if calls == [] {
      StartIsSound(dryRun);
    } else {
      RunIsSound(dryRun, calls[..|calls| - 1]);
      NextKeepsSound(Run(dryRun, calls[..|calls| - 1]), calls[|calls| - 1]);
    }
  }

  // ----- the promises -----

  lemma DryRunNeverGoesLive(calls: seq<Call>)
    ensures !Run(true, calls).state.ReadyForLive? && !Run(true, calls).state.Live?
  {
    hide Run;
    RunIsSound(true, calls);
  }

  // A session is live only with all six artifacts, and only after passing
  // through every state from segments_ready on.
  lemma LiveNeedsEverything(dryRun: bool, calls: seq<Call>)
    requires Run(dryRun, calls).state.ReadyForLive? || Run(dryRun, calls).state.Live?
    ensures Run(dryRun, calls).artifacts.Keys ==
      {SegmentManifest, WindowManifest, TeacherLabels, StationCalibration, TrainingReport,
       BlindReplayReport}
    ensures forall x: State :: 2 <= Rank(x) <= Rank(ReadyForLive) ==> Visited(Run(dryRun, calls).history, x)
  {
    hide Run, Visited;
    RunIsSound(dryRun, calls);
  }

  // The history is one unbroken path whose entries climb, fail closed, or
  // repeat a terminal state; the state blocked is never entered.
  lemma {:induction false} HistoryIsAPath(dryRun: bool, calls: seq<Call>, i: int)
    requires 0 < i < |Run(dryRun, calls).history|
    ensures var h := Run(dryRun, calls).history;
      && h[i].stateFrom == Some(h[i - 1].stateTo) && Proper(h[i])
      && h[|h| - 1].stateTo == Run(dryRun, calls).state != Blocked
  {
    hide Run, Visited;
    RunIsSound(dryRun, calls);
  }

  // Once terminal, every later call only adds history.
  lemma {:induction false} TerminalStays(dryRun: bool, calls: seq<Call>, more: seq<Call>)
    requires Terminal(Run(dryRun, calls).state)
    ensures var s, t := Run(dryRun, calls), Run(dryRun, calls + more);
      && t.state == s.state && t.artifacts == s.artifacts && t.failureReason == s.failureReason
      && |t.history| == |s.history| + |more|
  {
    if more == [] {
      assert calls + more == calls;
    } else {
      var n := |more| - 1;
      TerminalStays(dryRun, calls, more[..n]);
      assert (calls + more)[..|calls + more| - 1] == calls + more[..n];
      assert (calls + more)[|calls + more| - 1] == more[n];
    }
  }

  lemma RefusedNeedsPath(s: Session, call: Call, path: string)
    requires Applied(s, call).Failure? && path != ""
    ensures Applied(s, call.(artifact := Some(path))).Success?
  {
    hide Forward, Moved, FailedClosed, EventName;
  }

  // Leaving a refused call out of a run changes nothing, and with an artifact
  // path the same call goes through.
  lemma {:induction false} RefusedCallsLeaveNoTrace(dryRun: bool, calls: seq<Call>, call: Call, more: seq<Call>,
                                                    path: string)
    requires Applied(Run(dryRun, calls), call).Failure? && path != ""
    ensures Run(dryRun, calls + [call] + more) == Run(dryRun, calls + more)
    ensures Applied(Run(dryRun, calls), call.(artifact := Some(path))).Success?
  {
    hide Applied, Run;
    RefusedNeedsPath(Run(dryRun, calls), call, path);
    if more == [] {
      RunOneMore(dryRun, calls, call);
      assert calls + [call] + more == calls + [call] && calls + more == calls;
    } else {
      var n := |more| - 1;
      RefusedCallsLeaveNoTrace(dryRun, calls, call, more[..n], path);
      RunOneMore(dryRun, calls + [call] + more[..n], more[n]);
      RunOneMore(dryRun, calls + more[..n], more[n]);
      assert calls + [call] + more == calls + [call] + more[..n] + [more[n]];
      assert calls + more == calls + more[..n] + [more[n]];
    }
  }

  // ----- live can be reached -----

  // The next call on the way to live.
  function Onward(from: State, path: string): Call
    requires Rank(from) < Rank(Live)
  {
    var event := match from
      case Created => SegmentsAvailable
      case Recording => SegmentsAvailable
      case SegmentsReady => WindowsExtracted
      case WindowsReady => TeacherRequested
      case TeacherPending => TeacherCompleted
      case TeacherReady => CalibrationDone
      case CalibrationReady => TrainingDone
      case TrainingReady => BlindReplayReady
      case ReadyForBlindReplay => BlindReplayPassed
      case _ => ActivateLive;
    Call(event, Some(path), None)
  }

  lemma OnwardClimbs(s: Session, path: string)
    requires Rank(s.state) < Rank(Live) && !s.dryRun && path != ""
    ensures var t := Next(s, Onward(s.state, path));
      Rank(s.state) < Rank(t.state) <= Rank(Live) && !t.dryRun
  {
  }

  // From any run of a real session that has not ended, live is still in reach.
  lemma {:induction false} LiveStaysInReach(calls: seq<Call>, path: string)
    requires Rank(Run(false, calls).state) <= Rank(Live) && path != ""
    ensures exists more: seq<Call> :: Run(false, calls + more).state == Live
    decreases Rank(Live) - Rank(Run(false, calls).state)
  {
    hide Run, Next, Onward;
    var s := Run(false, calls);
    if s.state == Live {
      assert calls + [] == calls;
      assert Run(false, calls + []).state == Live;
    } else {
      var call := Onward(s.state, path);
      RunOneMore(false, calls, call);
      RunIsSound(false, calls);
      OnwardClimbs(s, path);
      LiveStaysInReach(calls + [call], path);
      var more: seq<Call> :| Run(false, calls + [call] + more).state == Live;
      assert calls + ([call] + more) == calls + [call] + more;
      assert Run(false, calls + ([call] + more)).state == Live;
    }
  }

  lemma RunOneMore(dryRun: bool, calls: seq<Call>, call: Call)
    ensures Run(dryRun, calls + [call]) == Next(Run(dryRun, calls), call)
  {
    assert (calls + [call])[..|calls|] == calls;
  }

  // What a forward move does outside the teacher step.
  lemma MoveIsApplied(s: Session, call: Call)
    requires !Terminal(s.state) && Forward(s.state, call.event).Some?
    requires Forward(s.state, call.event).value.to != TeacherReady
    ensures var move, r := Forward(s.state, call.event).value, Applied(s, call);
      if move.artifact.Some? && !Given(call.artifact) then r.Failure?
      else
        && r.Success? && r.value.state == move.to && r.value.dryRun == s.dryRun
        && r.value.artifacts == if move.artifact.Some? then s.artifacts[move.artifact.value := call.artifact.value]
                                else s.artifacts
  {
    hide Forward;
  }

  lemma TeacherIsUnavailable(s: Session, reason: string)
    requires s.state.TeacherPending? && reason != ""
    ensures var r := Applied(s, Call(TeacherUnavailable, None, Some(reason)));
      r.Success? && r.value.state == NeedsReview && r.value.failureReason == Some(reason)
      && r.value.artifacts == s.artifacts
  {
  }

  // The built-in dry run ends in review, unless a manifest path is empty.
  method RunDryRunSession(segmentManifestPath: string, windowManifestPath: string)
    returns (session: OnboardingSession, error: Option<string>)
    ensures fresh(session)
    ensures error.None? <==> segmentManifestPath != "" && windowManifestPath != ""
    ensures error.None? ==>
      && session.state == NeedsReview && session.failureReason == Some("dry_run_no_teacher_provider")
      && session.artifacts == map[SegmentManifest := segmentManifestPath, WindowManifest := windowManifestPath]
  {
    hide Applied;
    session := new OnboardingSession(true);
    MoveIsApplied(session.Value(), Call(RecordingStarted, None, None));
    error := session.Apply(RecordingStarted, None, None);
    MoveIsApplied(session.Value(), Call(SegmentsAvailable, Some(segmentManifestPath), None));
    error := session.Apply(SegmentsAvailable, Some(segmentManifestPath), None);
    if error.Some? {
      return;
    }
    MoveIsApplied(session.Value(), Call(WindowsExtracted, Some(windowManifestPath), None));
    error := session.Apply(WindowsExtracted, Some(windowManifestPath), None);
    if error.Some? {
      return;
    }
    MoveIsApplied(session.Value(), Call(TeacherRequested, None, None));
    error := session.Apply(TeacherRequested, None, None);
    TeacherIsUnavailable(session.Value(), "dry_run_no_teacher_provider");
    error := session.Apply(TeacherUnavailable, None, Some("dry_run_no_teacher_provider"));
  }
}
